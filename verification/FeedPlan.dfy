/** Reading the feed plan out of a configuration document (`BacktestConfigParser`:
    `get_string`, `get_double`, `parse_feeds`). */
module FeedPlans {
  import opened Numbers
  import opened Json
  import opened Scanner

  datatype FeedSpec = FeedSpec(index: int, interval: string, role: string, source: string, dataPath: string, base: string)

  /** `find(c, from)`; the length of the text stands for `npos`. */
  function Find(s: string, c: char, from: nat): (k: nat)
    requires from <= |s|
    ensures from <= k <= |s| && (k < |s| ==> s[k] == c)
    ensures forall i :: from <= i < k ==> s[i] != c
    decreases |s| - from
  {
    if from == |s| || s[from] == c then from else Find(s, c, from + 1)
  }

  /** The contents of the next string from a position on. */
  function StringFrom(json: string, pos: nat, fallback: string): string
    requires pos <= |json|
  {
    var quote := Find(json, '"', pos);
    if quote == |json| then fallback
    else
      var end := Find(json, '"', quote + 1);
      if end == |json| then fallback else json[quote + 1..end]
  }

  /** `get_string`. */
  function GetString(json: string, key: string, fallback: string): string {
    match Outside(json, key, 0)
    case None => fallback
    case Some(pos) => StringFrom(json, pos, fallback)
  }

  predicate IsDigit(c: char) {
    '0' <= c <= '9'
  }

  predicate StartsNumber(c: char) {
    c == '-' || IsDigit(c)
  }

  predicate InNumber(c: char) {
    StartsNumber(c) || c in {'+', '.', 'e', 'E'}
  }

  /** `find_first_of("-0123456789", from)`. */
  function FindNumber(s: string, from: nat): (k: nat)
    requires from <= |s|
    ensures from <= k <= |s|
    decreases |s| - from
  {
    if from == |s| || StartsNumber(s[from]) then from else FindNumber(s, from + 1)
  }

  /** `find_first_not_of("-+0123456789.eE", from)`. */
  function NumberEnd(s: string, from: nat): (k: nat)
    requires from <= |s|
    ensures from <= k <= |s|
    decreases |s| - from
  {
    if from == |s| || !InNumber(s[from]) then from else NumberEnd(s, from + 1)
  }

  function ReadDigits(s: string): int
    requires forall i :: 0 <= i < |s| ==> IsDigit(s[i])
  {
    if s == [] then 0 else 10 * ReadDigits(s[..|s| - 1]) + (s[|s| - 1] as int - '0' as int)
  }

  predicate AllDigits(s: string) {
    s != [] && forall i :: 0 <= i < |s| ==> IsDigit(s[i])
  }

  /** `stod`, on the decimal integers it is used for here. */
  function ReadInteger(s: string): Option<int> {
    if AllDigits(s) then Some(ReadDigits(s))
    else if s != [] && s[0] == '-' && AllDigits(s[1..]) then Some(-ReadDigits(s[1..]))
    else None
  }

  /** `get_double`, on integers. */
  function GetInteger(json: string, key: string, fallback: int): int {
    match Outside(json, key, 0)
    case None => fallback
    case Some(pos) =>
      var begin := FindNumber(json, pos);
      if begin == |json| then fallback
      else match ReadInteger(json[begin..NumberEnd(json, begin)])
        case Some(n) => n
        case None => fallback
  }

  function ReadSpec(json: string): FeedSpec {
    FeedSpec(GetInteger(json, "index", 0), GetString(json, "interval", ""), GetString(json, "role", ""),
             GetString(json, "source", ""), GetString(json, "dataPath", ""), GetString(json, "base", ""))
  }

  /** Where the bracket closes that was opened before the text: the scan counts brackets and
      does not look at quotes.  The length of the text stands for "nowhere". */
  function CloseOffset(s: string, open: char, close: char, depth: nat): (k: nat)
    requires depth > 0
    ensures k <= |s|
  {
    if s == [] then 0
    else
      var depth' := if s[0] == open then depth + 1 else if s[0] == close then depth - 1 else depth;
      if depth' == 0 then 0 else 1 + CloseOffset(s[1..], open, close, depth')
  }

  /** The objects of an array, given what stands between its brackets. */
  function Objects(text: string): seq<FeedSpec>
    decreases |text|
  {
    var open := Find(text, '{', 0);
    if open == |text| then []
    else
      var inside := text[open + 1..];
      var n := CloseOffset(inside, '{', '}', 1);
      if n == |inside| then []
      else [ReadSpec(['{'] + inside[..n + 1])] + Objects(inside[n + 1..])
  }

  /** The objects of an array, given the text after its opening bracket. */
  function ListIn(inside: string): seq<FeedSpec> {
    var n := CloseOffset(inside, '[', ']', 1);
    if n == |inside| then [] else Objects(inside[..n])
  }

  function FeedsOf(json: string): seq<FeedSpec> {
    match Outside(json, "feeds", 0)
    case None => []
    case Some(pos) =>
      var open := Find(json, '[', pos);
      if open == |json| then [] else ListIn(json[open + 1..])
  }

  // --------------------------------------------------------------- the loops

  /** The position of the matching bracket, or `limit`. */
  method FindClose(s: string, open: char, close: char, from: nat, limit: nat) returns (k: nat)
    requires from <= limit <= |s|
    ensures from <= k <= limit
    ensures k == from + CloseOffset(s[from..limit], open, close, 1)
  {
    var depth: nat := 1;
    var pos := from;
    while pos < limit && depth > 0
      invariant from <= pos <= limit && depth > 0
      invariant from + CloseOffset(s[from..limit], open, close, 1) == pos + CloseOffset(s[pos..limit], open, close, depth)
    {
      assert s[pos..limit][1..] == s[pos + 1..limit];
      if s[pos] == open {
        depth := depth + 1;
      } else if s[pos] == close {
        depth := depth - 1;
      }
      if depth == 0 {
        return pos;
      }
      pos := pos + 1;
    }
    k := limit;
  }

  lemma {:induction false} FindShift(s: string, c: char, from: nat)
    requires from < |s|
    ensures Find(s, c, from + 1) == 1 + Find(s[1..], c, from)
    decreases |s| - from
  {
    if from + 1 < |s| {
      FindShift(s, c, from + 1);
    }
  }

  /** Searching a text from a position on, up to a limit. */
  lemma {:induction false} FindLocal(s: string, c: char, pos: nat, limit: nat)
    requires pos <= limit <= |s|
    ensures var k := Find(s[pos..limit], c, 0);
            if pos + k < limit then Find(s, c, pos) == pos + k else Find(s, c, pos) >= limit
  {
    var t := s[pos..limit];
    var k := Find(t, c, 0);
    assert forall i :: 0 <= i < |t| ==> t[i] == s[pos + i];
    var f := Find(s, c, pos);
    if f < limit {
      assert t[f - pos] == c;
    }
  }

  lemma {:induction false} ObjectsOpen(text: string, open: nat)
    requires open < |text| && Find(text, '{', 0) == open
    ensures var inside := text[open + 1..];
            var n := CloseOffset(inside, '{', '}', 1);
            Objects(text) == if n == |inside| then [] else [ReadSpec(['{'] + inside[..n + 1])] + Objects(inside[n + 1..])
  {
    hide ReadSpec, CloseOffset, Find;
    var inside := text[open + 1..];
    var n := CloseOffset(inside, '{', '}', 1);
    if n == |inside| {
      assert Objects(text) == [];
    } else {
      assert Objects(text) == [ReadSpec(['{'] + inside[..n + 1])] + Objects(inside[n + 1..]);
    }
  }

  lemma Slices(json: string, pos: nat, open: nat, limit: nat, n: nat)
    requires pos <= open < limit <= |json| && open + 1 + n < limit && json[open] == '{'
    ensures ['{'] + json[open + 1..limit][..n + 1] == json[open..open + n + 2]
    ensures json[open + 1..limit][n + 1..] == json[open + n + 2..limit]
  {
  }

  lemma ObjectsStep(json: string, pos: nat, limit: nat, open: nat)
    requires pos <= open < limit <= |json| && Find(json, '{', pos) == open
    ensures var n := CloseOffset(json[open + 1..limit], '{', '}', 1);
            var close := open + 1 + n;
            Objects(json[pos..limit]) ==
            if close == limit then [] else [ReadSpec(json[open..close + 1])] + Objects(json[close + 1..limit])
  {
    hide ReadSpec, CloseOffset, Find, Objects;
    FindLocal(json, '{', pos, limit);
    ObjectsOpen(json[pos..limit], open - pos);
    var inside := json[open + 1..limit];
    assert json[pos..limit][open - pos + 1..] == inside;
    var n := CloseOffset(inside, '{', '}', 1);
    if n < |inside| {
      Slices(json, pos, open, limit, n);
    }
  }

  lemma NoObject(json: string, pos: nat, limit: nat)
    requires pos <= limit <= |json| && Find(json, '{', pos) >= limit
    ensures Objects(json[pos..limit]) == []
  {
    hide Find;
    FindLocal(json, '{', pos, limit);
  }

  /** The loop over the objects of the array. */
  method ParseObjects(json: string, from: nat, limit: nat) returns (result: seq<FeedSpec>)
    requires from <= limit <= |json|
    ensures result == Objects(json[from..limit])
  {
    hide ReadSpec, CloseOffset, Find, Objects;
    result := [];
    var pos := from;
    while pos < limit
      invariant from <= pos <= limit
      invariant Objects(json[from..limit]) == result + Objects(json[pos..limit])
    {
      var open := Find(json, '{', pos);
      if open >= limit {
        NoObject(json, pos, limit);
        return;
      }
      var close := FindClose(json, '{', '}', open + 1, limit);
      ObjectsStep(json, pos, limit, open);
      if close == limit {
        return;
      }
      result := result + [ReadSpec(json[open..close + 1])];
      pos := close + 1;
    }
    NothingLeft(json[limit..limit]);
  }

  lemma NothingLeft(text: string)
    requires text == []
    ensures Objects(text) == []
  {
  }

  /** `parse_feeds`. */
  method ParseFeeds(json: string) returns (result: seq<FeedSpec>)
    ensures result == FeedsOf(json)
  {
    hide ReadSpec, CloseOffset, Objects, Find, Outside;
    result := [];
    var key := FindKey(json, "feeds");
    if key == None {
      return;
    }
    var bracketOpen := Find(json, '[', key.value);
    if bracketOpen == |json| {
      return;
    }
    var bracketClose := FindClose(json, '[', ']', bracketOpen + 1, |json|);
    ghost var inside := json[bracketOpen + 1..];
    assert json[bracketOpen + 1..|json|] == inside;
    if bracketClose == |json| {
      return;
    }
    assert inside[..bracketClose - bracketOpen - 1] == json[bracketOpen + 1..bracketClose];
    result := ParseObjects(json, bracketOpen + 1, bracketClose);
  }

  // ------------------------------------------------------------- round trip

  function Digit(d: nat): char
    requires d < 10
  {
    '0' + d as char
  }

  function Digits(n: nat): string {
    if n < 10 then [Digit(n)] else Digits(n / 10) + [Digit(n % 10)]
  }

  function Decimal(n: int): string {
    if n < 0 then "-" + Digits(-n) else Digits(n)
  }

  lemma {:induction false} DigitsRead(n: nat)
    ensures AllDigits(Digits(n)) && ReadDigits(Digits(n)) == n
  {
    if n >= 10 {
      DigitsRead(n / 10);
      assert Digits(n)[..|Digits(n)| - 1] == Digits(n / 10);
    } else {
      assert [Digit(n)][..0] == [];
    }
  }

  /** The characters a number may start with, and those it may go on with. */
  lemma NumberAlphabet(c: char)
    ensures StartsNumber(c) <==> c in {'-', '0', '1', '2', '3', '4', '5', '6', '7', '8', '9'}
    ensures InNumber(c) <==> StartsNumber(c) || c in {'+', '.', 'E', 'e'}
  {
    if '0' <= c <= '9' {
      assert c as int - '0' as int < 10;
      assert c == Digit(c as int - '0' as int);
    }
  }

  lemma DecimalRead(n: int)
    ensures ReadInteger(Decimal(n)) == Some(n)
    ensures Decimal(n) != [] && StartsNumber(Decimal(n)[0])
    ensures forall i :: 0 <= i < |Decimal(n)| ==> InNumber(Decimal(n)[i])
  {
    DigitsRead(if n < 0 then -n else n);
    if n < 0 {
      assert Decimal(n)[1..] == Digits(-n);
    }
  }

  // ----------------------------------------------------- reading a field

  /** A value without the white space around it. */
  function Core(v: Value): Value {
    if v.Spaced? then Core(v.value) else v
  }

  /** The white space after the core of a value. */
  function Trailing(v: Value): string {
    if v.Spaced? then Trailing(v.value) + v.after else ""
  }

  lemma {:induction false} CoreStands(v: Value) returns (before: string, after: string)
    requires WellFormed(v)
    ensures Blank(before) && Blank(after) && WellFormed(Core(v)) && Render(v) == before + Render(Core(v)) + after
    ensures after == Trailing(v)
    decreases v
  {
    if v.Spaced? {
      var b, a := CoreStands(v.value);
      before, after := v.before + b, a + v.after;
      assert Render(v) == v.before + (b + Render(Core(v)) + a) + v.after;
    } else {
      before, after := "", "";
      assert Render(v) == "" + Render(v) + "";
    }
  }

  /** What follows the value of member `k` in the rendered members. */
  function After(members: seq<Member>, k: nat): string
    requires k < |members|
  {
    if k > 0 then After(members[1..], k - 1)
    else if |members| == 1 then ""
    else "," + RenderMembers(members[1..])
  }

  lemma {:induction false} ValueStands(members: seq<Member>, k: nat)
    requires k < |members|
    ensures ValueOffset(members, k) <= |RenderMembers(members)|
    ensures RenderMembers(members)[ValueOffset(members, k)..] == Render(members[k].value) + After(members, k)
    decreases k
  {
    hide Render, RenderKey;
    var text := RenderMembers(members);
    var rest := if |members| == 1 then "" else "," + RenderMembers(members[1..]);
    assert text == RenderMember(members[0]) + rest;
    if k == 0 {
      assert text == RenderKey(members[0]) + (Render(members[0].value) + rest);
    } else {
      ValueStands(members[1..], k - 1);
      var off := ValueOffset(members[1..], k - 1);
      assert text[|RenderMember(members[0])| + 1 + off..] == RenderMembers(members[1..])[off..];
    }
  }

  /** In a rendered object, whatever comes after it, the text behind the colon of the key
      found is its value. */
  lemma KeyStands(members: seq<Member>, key: string, more: string) returns (pos: nat, rest: string)
    requires WellFormed(Object(members)) && MemberIndex(members, key) < |members|
    ensures var k := MemberIndex(members, key);
            var json := Render(Object(members)) + more;
            && pos == 1 + ValueOffset(members, k) <= |json| && Outside(json, key, 0) == Some(pos)
            && json[pos..] == Render(members[k].value) + rest
            && rest == After(members, k) + "}" + more
  {
    hide Outside, RenderMembers, ValueOffset;
    var k := MemberIndex(members, key);
    FindKeyIsFirstField(members, key);
    ValueStands(members, k);
    var json := Render(Object(members));
    OutsideExtends(json, more, key, 0);
    var off := ValueOffset(members, k);
    assert json == "{" + (RenderMembers(members) + "}");
    pos := 1 + off;
    rest := After(members, k) + "}" + more;
    assert json[pos..] == RenderMembers(members)[off..] + "}";
    assert (json + more)[pos..] == json[pos..] + more;
  }

  lemma {:induction false} FindAt(s: string, c: char, from: nat, k: nat)
    requires from <= k < |s| && s[k] == c && forall i :: from <= i < k ==> s[i] != c
    ensures Find(s, c, from) == k
  {
    hide Find;
    var f := Find(s, c, from);
    assert f < |s| ==> s[f] == c;
  }

  predicate NoQuote(s: string) {
    forall i :: 0 <= i < |s| ==> s[i] != '"'
  }

  /** A quoted string in the text, after white space. */
  lemma QuotedAt(json: string, pos: nat, before: string, raw: string, rest: string)
    requires pos <= |json| && json[pos..] == before + "\"" + raw + "\"" + rest && Blank(before) && NoQuote(raw)
    ensures var q := pos + |before|;
            && Find(json, '"', pos) == q < |json|
            && Find(json, '"', q + 1) == q + 1 + |raw| < |json|
            && json[q + 1..q + 1 + |raw|] == raw
  {
    hide Find;
    var tail := json[pos..];
    assert forall i :: 0 <= i < |tail| ==> json[pos + i] == tail[i];
    var q := pos + |before|;
    assert json[q] == tail[|before|] == '"';
    assert json[q + 1 + |raw|] == tail[|before| + 1 + |raw|] == '"';
    forall i | pos <= i < q ensures json[i] != '"' {
      assert json[i] == before[i - pos];
    }
    FindAt(json, '"', pos, q);
    forall i | q + 1 <= i < q + 1 + |raw| ensures json[i] == raw[i - q - 1] && json[i] != '"' {
      assert json[i] == tail[i - pos];
    }
    FindAt(json, '"', q + 1, q + 1 + |raw|);
  }

  /** `get_string` skips the white space before a string and returns its contents as they
      are written, up to the first quote in them. */
  lemma GetStringReads(members: seq<Member>, key: string, fallback: string, raw: string, more: string)
    requires WellFormed(Object(members)) && MemberIndex(members, key) < |members|
    requires Core(members[MemberIndex(members, key)].value) == Text(raw) && NoQuote(raw)
    ensures GetString(Render(Object(members)) + more, key, fallback) == raw
  {
    hide Outside, Render, Find, Core, WellFormed, NoQuote, After, Blank, MemberIndex, Trailing;
    var json := Render(Object(members)) + more;
    var k := MemberIndex(members, key);
    var pos, rest := KeyStands(members, key, more);
    MemberOk(members, k);
    var before, after := CoreStands(members[k].value);
    TextShown(raw);
    assert before + ("\"" + raw + "\"") + after + rest == before + "\"" + raw + "\"" + (after + rest);
    QuotedAt(json, pos, before, raw, after + rest);
  }

  lemma TextShown(raw: string)
    ensures Render(Text(raw)) == "\"" + raw + "\""
  {
  }

  lemma MemberOk(members: seq<Member>, k: nat)
    requires WellFormed(Object(members)) && k < |members|
    ensures WellFormed(members[k].value)
  {
    assert WellFormedMember(members[k]);
  }

  lemma {:induction false} NumberAt(s: string, from: nat, k: nat)
    requires from <= k < |s| && StartsNumber(s[k]) && forall i :: from <= i < k ==> !StartsNumber(s[i])
    ensures FindNumber(s, from) == k
    decreases k - from
  {
    if from < k {
      NumberAt(s, from + 1, k);
    }
  }

  lemma {:induction false} NumberEndAt(s: string, from: nat, k: nat)
    requires from <= k < |s| && !InNumber(s[k]) && forall i :: from <= i < k ==> InNumber(s[i])
    ensures NumberEnd(s, from) == k
    decreases k - from
  {
    if from < k {
      NumberEndAt(s, from + 1, k);
    }
  }

  /** A number in the text, after white space. */
  lemma NumberStands(json: string, pos: nat, before: string, text: string, rest: string)
    requires pos <= |json| && json[pos..] == before + (text + rest) && Blank(before)
    requires text != [] && StartsNumber(text[0]) && forall i :: 0 <= i < |text| ==> InNumber(text[i])
    requires rest != [] && !InNumber(rest[0])
    ensures var b := pos + |before|;
            && FindNumber(json, pos) == b < |json|
            && NumberEnd(json, b) == b + |text| <= |json|
            && json[b..b + |text|] == text
  {
    hide InNumber, StartsNumber, FindNumber, NumberEnd;
    var tail := json[pos..];
    assert forall i :: 0 <= i < |tail| ==> json[pos + i] == tail[i];
    var b, e := pos + |before|, pos + |before| + |text|;
    assert json[e] == tail[e - pos] == rest[0];
    forall i | b <= i < e ensures InNumber(json[i]) {
      assert json[i] == tail[i - pos] == text[i - b];
    }
    forall i | pos <= i < b ensures !StartsNumber(json[i]) {
      assert json[i] == before[i - pos];
      BlankNotNumber(before[i - pos]);
    }
    assert json[b] == tail[|before|] == text[0];
    NumberAt(json, pos, b);
    NumberEndAt(json, b, e);
    assert json[b..e] == tail[|before|..|before| + |text|] == text;
  }

  /** A member that is not followed by a string reads as the fallback. */
  lemma NoStringFallsBack(json: string, pos: nat, fallback: string)
    requires pos <= |json| && forall i :: pos <= i < |json| ==> json[i] != '"'
    ensures StringFrom(json, pos, fallback) == fallback
  {
  }

  /** `get_double` returns the integer of the first top-level field of that name. */
  lemma GetIntegerReads(members: seq<Member>, key: string, fallback: int, n: int, more: string)
    requires WellFormed(Object(members)) && MemberIndex(members, key) < |members|
    requires Core(members[MemberIndex(members, key)].value) == Atom(Decimal(n))
    ensures GetInteger(Render(Object(members)) + more, key, fallback) == n
  {
    hide Outside, RenderMembers, Decimal, ReadInteger, InNumber, Core, WellFormed, StartsNumber, FindNumber, NumberEnd, After;
    var json := Render(Object(members)) + more;
    var k := MemberIndex(members, key);
    var pos, rest := KeyStands(members, key, more);
    MemberOk(members, k);
    var before, after := CoreStands(members[k].value);
    DecimalRead(n);
    RestStops(members, k, after, more);
    assert Render(Atom(Decimal(n))) == Decimal(n);
    assert json[pos..] == before + (Decimal(n) + (after + rest));
    NumberStands(json, pos, before, Decimal(n), after + rest);
  }

  lemma BlankNotNumber(c: char)
    requires IsBlank(c)
    ensures !StartsNumber(c) && !InNumber(c)
  {
  }

  lemma RestStops(members: seq<Member>, k: nat, after: string, more: string)
    requires k < |members| && Blank(after)
    ensures !InNumber((after + (After(members, k) + "}" + more))[0])
  {
    if after != [] {
      BlankNotNumber(after[0]);
    } else {
      AfterStops(members, k);
      assert (after + (After(members, k) + "}" + more))[0] == (After(members, k) + "}")[0];
    }
  }

  lemma {:induction false} AfterStops(members: seq<Member>, k: nat)
    requires k < |members|
    ensures (After(members, k) + "}")[0] in {',', '}'}
  {
    if k > 0 {
      AfterStops(members[1..], k - 1);
    }
  }

  // ------------------------------------------------------- reading a spec

  /** The member that stands for a string field: its contents have no quote; a missing one
      stands for the empty string. */
  predicate StringField(ms: seq<Member>, key: string, x: string) {
    var k := MemberIndex(ms, key);
    if k < |ms| then Core(ms[k].value) == Text(x) && NoQuote(x) else x == ""
  }

  predicate IntegerField(ms: seq<Member>, key: string, n: int) {
    var k := MemberIndex(ms, key);
    if k < |ms| then Core(ms[k].value) == Atom(Decimal(n)) else n == 0
  }

  /** The members of an object, in any order and among any others, describe a feed. */
  predicate Describes(ms: seq<Member>, f: FeedSpec) {
    && IntegerField(ms, "index", f.index)
    && StringField(ms, "interval", f.interval) && StringField(ms, "role", f.role) && StringField(ms, "source", f.source)
    && StringField(ms, "dataPath", f.dataPath) && StringField(ms, "base", f.base)
  }

  lemma StringFieldReads(ms: seq<Member>, key: string, x: string, more: string)
    requires WellFormed(Object(ms)) && StringField(ms, key, x) && (more == "" || MemberIndex(ms, key) < |ms|)
    ensures GetString(Render(Object(ms)) + more, key, "") == x
  {
    hide Render, Outside, Find;
    if MemberIndex(ms, key) < |ms| {
      GetStringReads(ms, key, "", x, more);
    } else {
      FindKeyIsFirstField(ms, key);
      assert Render(Object(ms)) + more == Render(Object(ms));
    }
  }

  lemma IntegerFieldReads(ms: seq<Member>, key: string, n: int, more: string)
    requires WellFormed(Object(ms)) && IntegerField(ms, key, n) && (more == "" || MemberIndex(ms, key) < |ms|)
    ensures GetInteger(Render(Object(ms)) + more, key, 0) == n
  {
    hide Render, Outside, Decimal;
    if MemberIndex(ms, key) < |ms| {
      GetIntegerReads(ms, key, 0, n, more);
    } else {
      FindKeyIsFirstField(ms, key);
      assert Render(Object(ms)) + more == Render(Object(ms));
    }
  }

  /** All the keys of a feed are there. */
  predicate Complete(ms: seq<Member>) {
    && MemberIndex(ms, "index") < |ms| && MemberIndex(ms, "interval") < |ms| && MemberIndex(ms, "role") < |ms|
    && MemberIndex(ms, "source") < |ms| && MemberIndex(ms, "dataPath") < |ms| && MemberIndex(ms, "base") < |ms|
  }

  /** Reading an object that describes a feed gives that feed; if no key is missing, also
      when the text goes on after the object. */
  lemma SpecRoundTrip(ms: seq<Member>, f: FeedSpec, more: string)
    requires WellFormed(Object(ms)) && Describes(ms, f) && (more == "" || Complete(ms))
    ensures ReadSpec(Render(Object(ms)) + more) == f
  {
    hide Render, GetString, GetInteger, WellFormed, StringField, IntegerField, MemberIndex;
    IntegerFieldReads(ms, "index", f.index, more);
    StringFieldReads(ms, "interval", f.interval, more);
    StringFieldReads(ms, "role", f.role, more);
    StringFieldReads(ms, "source", f.source, more);
    StringFieldReads(ms, "dataPath", f.dataPath, more);
    StringFieldReads(ms, "base", f.base, more);
  }
}
