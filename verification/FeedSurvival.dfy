/** The exact condition under which a compact feed plan survives `parse_feeds`. */
module FeedSurvival {
  import opened Numbers
  import opened Json
  import opened Scanner
  import opened FeedPlans
  import opened FeedLists
  import opened FeedCuts
  import opened Quotes

  // ------------------------------------------------ quotes in the text

  /** A member of a compact feed object. */
  predicate Simple(m: Member) {
    && m.gap == "" && Bare(m.key) && Plain(m.key)
    && match m.value
       case Text(raw) => Bare(raw)
       case Atom(text) => Bare(text) && Plain(text)
       case _ => false
  }

  lemma MemberThen(m: Member, t: string)
    requires Simple(m)
    ensures var s := RenderMember(m) + t;
            && Flip(s, true) == Flip(t, true)
            && (Apart(t, true) && Follows(t) ==> Apart(s, true))
            && (BracesQuoted(t, true) ==> BracesQuoted(s, true))
  {
    hide Flip, Apart, BracesQuoted;
    var v := Render(m.value) + t;
    match m.value {
      case Text(raw) =>
        StringThen(raw, t);
        assert v == "\"" + raw + "\"" + t;
      case Atom(text) => BareThen(text, t, true);
    }
    BareThen(":", v, true);
    StringThen(m.key, ":" + v);
    assert RenderMember(m) + t == "\"" + m.key + "\"" + (":" + v);
  }

  lemma {:induction false} MembersThen(ms: seq<Member>, t: string)
    requires ms != [] && forall i :: 0 <= i < |ms| ==> Simple(ms[i])
    ensures var s := RenderMembers(ms) + t;
            && Flip(s, true) == Flip(t, true)
            && (Apart(t, true) && Follows(t) ==> Apart(s, true))
            && (BracesQuoted(t, true) ==> BracesQuoted(s, true))
  {
    hide Flip, Apart, BracesQuoted, Simple, RenderMember;
    if |ms| == 1 {
      MemberThen(ms[0], t);
    } else {
      var u := RenderMembers(ms[1..]) + t;
      MembersThen(ms[1..], t);
      BareThen(",", u, true);
      MemberThen(ms[0], "," + u);
      assert RenderMembers(ms) + t == RenderMember(ms[0]) + ("," + u);
    }
  }

  lemma SpecSimple(f: FeedSpec)
    requires QuotelessSpec(f)
    ensures forall i :: 0 <= i < |SpecMembers(f)| ==> Simple(SpecMembers(f)[i])
  {
    hide Decimal;
    KeysQuoteless();
    DecimalPlain(f.index);
  }

  lemma BodyThen(f: FeedSpec, t: string)
    requires QuotelessSpec(f)
    ensures Flip(SpecBody(f) + t, true) == Flip(t, true)
    ensures Apart(t, true) && Follows(t) ==> Apart(SpecBody(f) + t, true)
    ensures BracesQuoted(SpecBody(f), true)
  {
    hide Flip, Apart, Simple, RenderMembers;
    SpecSimple(f);
    MembersThen(SpecMembers(f), t);
    MembersThen(SpecMembers(f), "");
    assert RenderMembers(SpecMembers(f)) + "" == RenderMembers(SpecMembers(f));
  }

  lemma ObjectThen(f: FeedSpec, t: string)
    requires QuotelessSpec(f)
    ensures var s := "{" + SpecBody(f) + "}" + t;
            && Flip(s, true) == Flip(t, true)
            && (Apart(t, true) ==> Apart(s, true))
  {
    hide Flip, Apart, SpecBody;
    BareThen("}", t, true);
    BodyThen(f, "}" + t);
    BareThen("{", SpecBody(f) + ("}" + t), true);
    assert "{" + SpecBody(f) + "}" + t == "{" + (SpecBody(f) + ("}" + t));
  }

  lemma {:induction false} ListApart(fs: seq<FeedSpec>)
    requires QuotelessSpecs(fs)
    ensures Apart(ListText(fs), true)
  {
    hide Flip, SpecBody, ListText, QuotelessSpec;
    if fs == [] {
      EmptyList(fs);
    } else {
      ListSplits(fs);
      if |fs| > 1 {
        ListApart(fs[1..]);
        BareThen(",", ListText(fs[1..]), true);
      }
      ObjectThen(fs[0], Rest(fs));
    }
  }

  /** Outside the strings of a list, an opening brace is the start of one of its objects. */
  lemma {:induction false} StartIsObject(fs: seq<FeedSpec>, p: nat) returns (m: nat, rest: string)
    requires QuotelessSpecs(fs) && p < |ListText(fs)| && ListText(fs)[p] == '{' && Flip(ListText(fs)[..p], true)
    ensures m < |fs| && ListText(fs)[p..] == "{" + SpecBody(fs[m]) + "}" + rest
    decreases |fs|
  {
    hide Flip, SpecBody, ListText, QuotelessSpec;
    if fs == [] {
      EmptyList(fs);
      assert false;
    } else {
      ListSplits(fs);
      var text, body := ListText(fs), SpecBody(fs[0]);
      var n := |body|;
      if p == 0 {
        m, rest := 0, Rest(fs);
        assert text[0..] == text;
      } else {
        NotInBody(fs[0], Rest(fs), p);
        assert p >= n + 2 && |fs| > 1;
        var q := p - n - 3;
        assert text == ("{" + body + "}") + ("," + ListText(fs[1..]));
        assert text[n + 2] == ',';
        var t := ListText(fs[1..]);
        assert text[p..] == t[q..] && text[p] == t[q];
        assert text[..p] == "{" + body + "}" + ("," + t[..q]);
        ObjectThen(fs[0], "," + t[..q]);
        BareThen(",", t[..q], true);
        m, rest := StartIsObject(fs[1..], q);
        m := m + 1;
      }
    }
  }

  lemma BraceInBodyQuoted(f: FeedSpec, k: nat)
    requires QuotelessSpec(f) && k < |SpecBody(f)| && SpecBody(f)[k] in {'{', '}'}
    ensures !Flip("{" + SpecBody(f)[..k], true)
  {
    hide SpecBody, QuotelessSpec;
    BodyThen(f, "");
    BraceIsQuoted(SpecBody(f), k, true);
    BareThen("{", SpecBody(f)[..k], true);
  }

  lemma NotInBody(f: FeedSpec, rest: string, p: nat)
    requires QuotelessSpec(f)
    requires var text := "{" + SpecBody(f) + "}" + rest; 0 < p < |text| && text[p] == '{' && Flip(text[..p], true)
    ensures p >= |SpecBody(f)| + 2
  {
    hide SpecBody, QuotelessSpec, Flip;
    var body := SpecBody(f);
    var text := "{" + body + "}" + rest;
    assert text[|body| + 1] == '}';
    if p <= |body| {
      assert text[p] == body[p - 1] && text[..p] == "{" + body[..p - 1];
      BraceInBodyQuoted(f, p - 1);
    }
  }

  // ------------------------------------------------- reading inside a string

  const DEFAULT := FeedSpec(0, "", "", "", "", "")

  /** An object read from inside a string has no fields. */
  lemma InnerReadsDefault(text: string)
    requires Apart(text, false)
    ensures ReadSpec(text) == DEFAULT
  {
    hide Outside, Apart;
    NoKeyOutside(text, "index", 0);
    NoKeyOutside(text, "interval", 0);
    NoKeyOutside(text, "role", 0);
    NoKeyOutside(text, "source", 0);
    NoKeyOutside(text, "dataPath", 0);
    NoKeyOutside(text, "base", 0);
  }

  lemma KeysPlain()
    ensures Plain("index") && Plain("interval") && Plain("role") && Plain("source") && Plain("dataPath") && Plain("base")
  {
  }

  lemma TidyText(key: string, raw: string)
    requires Plain(key) && Plain(raw)
    ensures TidyMember(Member(key, "", Text(raw)))
  {
  }

  lemma TidyNumber(key: string, n: int)
    requires Plain(key)
    ensures TidyMember(Member(key, "", Atom(Decimal(n))))
  {
  }

  predicate PlainSpec(f: FeedSpec) {
    Plain(f.interval) && Plain(f.role) && Plain(f.source) && Plain(f.dataPath) && Plain(f.base)
  }

  /** A spec without braces and brackets in its strings is balanced in both ways. */
  lemma PlainBalanced(f: FeedSpec, open: char, close: char)
    requires QuotelessSpec(f) && PlainSpec(f) && Brackets(open, close)
    ensures Balanced(SpecBody(f), open, close)
  {
    hide Balanced, Decimal, Plain, Bare, TidyMember, RenderMembers, WellFormedMember;
    KeysPlain();
    SpecWellFormed(f);
    TidyNumber("index", f.index);
    TidyText("interval", f.interval);
    TidyText("role", f.role);
    TidyText("source", f.source);
    TidyText("dataPath", f.dataPath);
    TidyText("base", f.base);
    TidyMembers(SpecMembers(f), open, close);
  }

  lemma DefaultUncut()
    ensures QuotelessSpec(DEFAULT) && !Cut(DEFAULT)
  {
    hide SpecBody, Balanced;
    PlainBalanced(DEFAULT, '{', '}');
    BalancedStays(SpecBody(DEFAULT));
  }

  lemma BalancedStays(s: string)
    requires Balanced(s, '{', '}')
    ensures Stays(s, '{', '}', 1)
  {
  }

  // ------------------------------------------------ reading a cut object

  function Weight(f: FeedSpec): nat {
    |f.interval| + |f.role| + |f.source| + |f.dataPath| + |f.base|
  }

  lemma {:induction false} FindExtends(s: string, more: string, c: char, from: nat)
    requires from <= |s|
    ensures Find(s, c, from) < |s| ==> Find(s + more, c, from) == Find(s, c, from)
    decreases |s| - from
  {
    if from < |s| {
      FindExtends(s, more, c, from + 1);
    }
  }

  lemma FromOrNothing(text: string, more: string, pos: nat)
    requires pos <= |text|
    ensures StringFrom(text, pos, "") in {"", StringFrom(text + more, pos, "")}
  {
    hide Find;
    FindExtends(text, more, '"', pos);
    var quote := Find(text, '"', pos);
    if quote < |text| {
      FindExtends(text, more, '"', quote + 1);
      var end := Find(text, '"', quote + 1);
      if end < |text| {
        assert text[quote + 1..end] == (text + more)[quote + 1..end];
      }
    }
  }

  /** A text that ends early yields the string or nothing. */
  lemma StringOrNothing(text: string, more: string, key: string)
    ensures GetString(text, key, "") in {"", GetString(text + more, key, "")}
  {
    hide Outside, Find;
    OutsideExtends(text, more, key, 0);
    match Outside(text, key, 0)
    case None =>
    case Some(pos) => FromOrNothing(text, more, pos);
  }

  /** A brace in the members is in one of their strings. */
  lemma {:induction false} BraceInValue(ms: seq<Member>, c: nat) returns (k: nat)
    requires forall i :: 0 <= i < |ms| ==> Simple(ms[i])
    requires c < |RenderMembers(ms)| && RenderMembers(ms)[c] in {'{', '}'}
    ensures k < |ms| && ms[k].value.Text? && ValueOffset(ms, k) < c <= ValueOffset(ms, k) + |ms[k].value.raw|
    decreases |ms|
  {
    hide Simple;
    var m := ms[0];
    assert ms != [];
    var rest := if |ms| == 1 then "" else "," + RenderMembers(ms[1..]);
    assert RenderMembers(ms) == RenderMember(m) + rest;
    var n := |RenderMember(m)|;
    if c < n {
      assert RenderMembers(ms)[c] == RenderMember(m)[c];
      BraceInMember(m, c);
      k := 0;
    } else {
      assert RenderMembers(ms)[c] == rest[c - n];
      assert c > n;
      k := BraceInValue(ms[1..], c - n - 1);
      k := k + 1;
    }
  }

  lemma KeyPlain(m: Member)
    requires Simple(m)
    ensures forall i :: 0 <= i < |RenderKey(m)| ==> RenderKey(m)[i] !in {'{', '}'}
  {
    assert RenderKey(m) == "\"" + m.key + "\":";
  }

  lemma BraceInMember(m: Member, c: nat)
    requires Simple(m) && c < |RenderMember(m)| && RenderMember(m)[c] in {'{', '}'}
    ensures m.value.Text? && |RenderKey(m)| < c <= |RenderKey(m)| + |m.value.raw|
  {
    var key, v := RenderKey(m), Render(m.value);
    KeyPlain(m);
    assert forall i :: 0 <= i < |key| ==> RenderMember(m)[i] == key[i];
    assert RenderMember(m)[c] == v[c - |key|];
    assert m.value.Text? ==> v[0] == '"' && v[|v| - 1] == '"' && |v| == |m.value.raw| + 2;
  }

  /** A string that the text breaks off in is not read. */
  lemma BrokenString(ms: seq<Member>, k: nat, c: nat)
    requires WellFormed(Object(ms)) && k < |ms| && MemberIndex(ms, ms[k].key) == k
    requires ms[k].value.Text? && NoQuote(ms[k].value.raw)
    requires ValueOffset(ms, k) < c <= ValueOffset(ms, k) + |ms[k].value.raw| && c < |RenderMembers(ms)|
    ensures GetString("{" + RenderMembers(ms)[..c + 1], ms[k].key, "") == ""
  {
    hide Outside, Find, RenderMembers, ValueOffset, WellFormed, MemberIndex;
    var raw, key := ms[k].value.raw, ms[k].key;
    var whole := Render(Object(ms));
    assert whole == "{" + RenderMembers(ms) + "}";
    var text, more := whole[..c + 2], whole[c + 2..];
    assert text == "{" + RenderMembers(ms)[..c + 1] && whole == text + more;
    OutsideExtends(text, more, key, 0);
    var pos, rest := KeyStands(ms, key, "");
    assert whole + "" == whole;
    var tail := whole[pos..];
    assert tail == "\"" + raw + "\"" + rest;
    assert forall i :: 0 <= i < |tail| && pos + i < |text| ==> text[pos + i] == tail[i];
    assert text[pos] == '"';
    FindAt(text, '"', pos, pos);
    forall i | pos + 1 <= i < |text| ensures text[i] != '"' {
      assert text[i] == tail[i - pos] == raw[i - pos - 1];
    }
    var end := Find(text, '"', pos + 1);
    assert end == |text|;
  }

  /** The text of an object up to a brace in one of its strings. */
  function Broken(f: FeedSpec, c: nat): string
    requires c < |SpecBody(f)|
  {
    "{" + SpecBody(f)[..c + 1]
  }

  lemma StringShrinks(f: FeedSpec, c: nat, key: string, x: string)
    requires QuotelessSpec(f) && c < |SpecBody(f)| && StringField(SpecMembers(f), key, x) && MemberIndex(SpecMembers(f), key) < 6
    ensures |GetString(Broken(f, c), key, "")| <= |x|
  {
    hide GetString, RenderMembers, StringField, MemberIndex, WellFormed;
    SpecDescribed(f);
    var whole := Render(SpecObject(f));
    assert whole == "{" + SpecBody(f) + "}";
    var more := whole[c + 2..];
    assert whole == Broken(f, c) + more;
    StringOrNothing(Broken(f, c), more, key);
    StringFieldReads(SpecMembers(f), key, x, "");
    assert whole + "" == whole;
  }

  /** An object that a brace in one of its strings cuts short is read as a lighter one. */
  lemma BrokenIsLighter(f: FeedSpec, c: nat)
    requires QuotelessSpec(f) && c < |SpecBody(f)| && SpecBody(f)[c] == '}'
    ensures Weight(ReadSpec(Broken(f, c))) < Weight(f)
  {
    hide GetString, GetInteger, RenderMembers, Broken, WellFormed, Simple, MemberIndex, ValueOffset;
    var ms := SpecMembers(f);
    SpecDescribed(f);
    SpecKeys(f);
    SpecSimple(f);
    var text := Broken(f, c);
    StringShrinks(f, c, "interval", f.interval);
    StringShrinks(f, c, "role", f.role);
    StringShrinks(f, c, "source", f.source);
    StringShrinks(f, c, "dataPath", f.dataPath);
    StringShrinks(f, c, "base", f.base);
    var k := BraceInValue(ms, c);
    BareValue(ms[k]);
    BrokenString(ms, k, c);
    BrokenIs(f, c);
    assert k == 1 || k == 2 || k == 3 || k == 4 || k == 5;
  }

  lemma BareValue(m: Member)
    requires Simple(m) && m.value.Text?
    ensures NoQuote(m.value.raw)
  {
  }

  lemma BrokenIs(f: FeedSpec, c: nat)
    requires c < |SpecBody(f)|
    ensures Broken(f, c) == "{" + RenderMembers(SpecMembers(f))[..c + 1]
  {
  }

  // ---------------------------------------- what a list with a cut object loses

  lemma {:induction false} ClosePrefix(s: string, n: nat, open: char, close: char, d: nat)
    requires n <= |s| && d > 0
    ensures var k := CloseOffset(s, open, close, d);
            CloseOffset(s[..n], open, close, d) == if k < n then k else n
  {
    if n > 0 {
      assert s[..n][1..] == s[1..][..n - 1];
      var d' := Turn(s[0], open, close, d);
      if d' > 0 {
        ClosePrefix(s[1..], n - 1, open, close, d');
      }
    }
  }

  /** No cut feed of the list is heavier. */
  predicate Heaviest(fs: seq<FeedSpec>, f: FeedSpec) {
    f in fs && Cut(f) && forall g :: g in fs && Cut(g) ==> Weight(g) <= Weight(f)
  }

  lemma {:induction false} HeaviestCut(fs: seq<FeedSpec>, i: nat) returns (f: FeedSpec)
    requires i < |fs| && Cut(fs[i])
    ensures Heaviest(fs, f)
    decreases |fs|
  {
    hide Cut;
    if j :| 1 <= j < |fs| && Cut(fs[j]) {
      f := HeaviestCut(fs[1..], j - 1);
      assert fs == [fs[0]] + fs[1..];
      if Cut(fs[0]) && Weight(f) < Weight(fs[0]) {
        f := fs[0];
      }
    } else {
      f := fs[0];
    }
  }

  /** What is read from the start of an object, if its end is found. */
  lemma ReadAtStart(g: FeedSpec, rest: string, n: nat, f: FeedSpec)
    requires QuotelessSpec(g) && n <= |SpecBody(g) + "}" + rest|
    requires Cut(f) && (Cut(g) ==> Weight(g) <= Weight(f))
    requires var inside := (SpecBody(g) + "}" + rest)[..n]; CloseOffset(inside, '{', '}', 1) < n
    ensures var inside := (SpecBody(g) + "}" + rest)[..n];
            ReadSpec("{" + inside[..CloseOffset(inside, '{', '}', 1) + 1]) != f
  {
    hide SpecBody, ReadSpec, CloseOffset, Stays, Weight, QuotelessSpec;
    var body := SpecBody(g);
    var all := body + "}" + rest;
    var inside := all[..n];
    ClosePrefix(all, n, '{', '}', 1);
    var k := CloseOffset(inside, '{', '}', 1);
    assert k == CloseOffset(all, '{', '}', 1) < n;
    assert all == body + ("}" + rest);
    if Cut(g) {
      CloseInside(body, "}" + rest, '{', '}', 1);
      assert inside[..k + 1] == body[..k + 1];
      BrokenIsLighter(g, k);
      assert "{" + inside[..k + 1] == Broken(g, k);
    } else {
      CloseAfter(body, "}" + rest, '{', '}', 1);
      assert k >= |body|;
      var more := inside[|body| + 1..k + 1];
      assert inside[..k + 1] == body + "}" + more;
      SpecReads(g, more);
      assert "{" + inside[..k + 1] == "{" + body + "}" + more;
    }
  }

  /** Nothing that is read anywhere in the text is the heaviest cut feed. */
  lemma ReadNever(fs: seq<FeedSpec>, f: FeedSpec, open: nat, x: nat)
    requires QuotelessSpecs(fs) && Heaviest(fs, f) && open < x <= |ListText(fs)| && ListText(fs)[open] == '{'
    requires CloseOffset(ListText(fs)[open + 1..x], '{', '}', 1) < x - open - 1
    ensures var close := open + 1 + CloseOffset(ListText(fs)[open + 1..x], '{', '}', 1);
            ReadSpec(ListText(fs)[open..close + 1]) != f
  {
    hide ListText, SpecBody, ReadSpec, CloseOffset, Cut, Weight, Flip, Apart, QuotelessSpec;
    var text := ListText(fs);
    var inside := text[open + 1..x];
    var k := CloseOffset(inside, '{', '}', 1);
    var piece := text[open..open + k + 2];
    assert piece == "{" + inside[..k + 1];
    if Flip(text[..open], true) {
      var m, rest := StartIsObject(fs, open);
      var all := SpecBody(fs[m]) + "}" + rest;
      assert text[open..][1..] == all;
      assert inside == all[..x - open - 1];
      assert fs[m] in fs;
      ReadAtStart(fs[m], rest, x - open - 1, f);
    } else {
      ListApart(fs);
      assert text == text[..open] + (piece + text[open + k + 2..]);
      ApartParts(text[..open], piece + text[open + k + 2..], true);
      ApartParts(piece, text[open + k + 2..], false);
      InnerReadsDefault(piece);
      DefaultUncut();
    }
  }

  lemma {:induction false} NeverRead(fs: seq<FeedSpec>, f: FeedSpec, p: nat, x: nat)
    requires QuotelessSpecs(fs) && Heaviest(fs, f) && p <= x <= |ListText(fs)|
    ensures f !in Objects(ListText(fs)[p..x])
    decreases x - p
  {
    hide ListText, Objects, ReadSpec, CloseOffset, Find, Heaviest, QuotelessSpecs;
    var text := ListText(fs);
    var open := Find(text, '{', p);
    if open >= x {
      NoObject(text, p, x);
    } else {
      FoundThere(text, p, open);
      ObjectsStep(text, p, x, open);
      var k := CloseOffset(text[open + 1..x], '{', '}', 1);
      if k < x - open - 1 {
        ReadNever(fs, f, open, x);
        NeverRead(fs, f, open + k + 2, x);
      }
    }
  }

  lemma FoundThere(s: string, p: nat, open: nat)
    requires p <= |s| && Find(s, '{', p) == open < |s|
    ensures p <= open && s[open] == '{'
  {
  }

  /** Up to any point of the text of a list: the list is read back exactly if the text is
      whole and the braces inside every object are balanced. */
  lemma ListSurvivesIff(fs: seq<FeedSpec>, x: nat)
    requires QuotelessSpecs(fs) && x <= |ListText(fs)|
    ensures Objects(ListText(fs)[..x]) == fs <==> x == |ListText(fs)| && AllBalanced(fs)
  {
    hide ListText, Objects, SpecBody, QuotelessSpec;
    if i :| 0 <= i < |fs| && Cut(fs[i]) {
      var f := HeaviestCut(fs, i);
      NeverRead(fs, f, 0, x);
      assert ListText(fs)[0..x] == ListText(fs)[..x];
      assert !AllBalanced(fs);
    } else {
      UncutReads(fs, x);
    }
  }

  // ------------------------------------------------------- the document

  lemma ListsItself(fs: seq<FeedSpec>)
    requires QuotelessSpecs(fs)
    ensures ListsFeeds(SpecObjects(fs), fs)
  {
    hide Describes, WellFormed, SpecMembers;
    forall i | 0 <= i < |fs| ensures WellFormed(SpecObject(fs[i])) && Describes(SpecMembers(fs[i]), fs[i]) {
      SpecDescribed(fs[i]);
    }
  }

  lemma {:induction false} NoCloserStays(s: string, d: int)
    requires d > 0 && forall i :: 0 <= i < |s| ==> s[i] != ']'
    ensures Stays(s, '[', ']', d)
  {
    if s != [] {
      NoCloserStays(s[1..], Turn(s[0], '[', ']', d));
    }
  }

  /** A list with more opening brackets than closing ones in its strings, and no closing
      bracket after it: nothing is read. */
  lemma ListLost(text: string, rest: string)
    requires Stays(text, '[', ']', 1) && !Balanced(text, '[', ']') && forall i :: 0 <= i < |rest| ==> rest[i] != ']'
    ensures ListIn(text + "]" + rest) == []
  {
    hide Objects;
    var d := Depth(text, '[', ']', 1);
    DepthPositive(text, '[', ']', 1);
    NoCloserStays(rest, d - 1);
    assert ("]" + rest)[1..] == rest;
    DepthConcat(text, "]" + rest, '[', ']', 1);
    assert text + "]" + rest == text + ("]" + rest);
    CloseNowhere(text + "]" + rest, '[', ']', 1);
  }

  /** A list that a bracket in one of its strings cuts short. */
  lemma ListCut(fs: seq<FeedSpec>, rest: string)
    requires QuotelessSpecs(fs) && !Stays(ListText(fs), '[', ']', 1)
    ensures ListIn(ListText(fs) + "]" + rest) != fs
  {
    hide ListText, Objects, CloseOffset, QuotelessSpecs, AllBalanced;
    var text := ListText(fs);
    CloseInside(text, "]" + rest, '[', ']', 1);
    assert text + "]" + rest == text + ("]" + rest);
    var n := CloseOffset(text + "]" + rest, '[', ']', 1);
    assert (text + "]" + rest)[..n] == text[..n];
    ListSurvivesIff(fs, n);
  }

  lemma ListBalanced(fs: seq<FeedSpec>, rest: string)
    requires QuotelessSpecs(fs) && Balanced(ListText(fs), '[', ']')
    ensures ListIn(ListText(fs) + "]" + rest) == fs <==> AllBalanced(fs)
  {
    hide ListText, Objects, CloseOffset, QuotelessSpecs, AllBalanced, ListIn, Balanced;
    ListWhole(ListText(fs), rest);
    ListSurvivesIff(fs, |ListText(fs)|);
    assert ListText(fs)[..|ListText(fs)|] == ListText(fs);
  }

  lemma NotEmpty(fs: seq<FeedSpec>)
    requires !Balanced(ListText(fs), '[', ']')
    ensures fs != []
  {
    if fs == [] {
      EmptyList(fs);
    }
  }

  lemma ListInFrom(text: string, tail: string)
    requires Stays(text, '[', ']', 1)
    ensures Depth(text, '[', ']', 1) > 0
    ensures var n := CloseOffset(tail, '[', ']', Depth(text, '[', ']', 1));
            ListIn(text + tail) == if n == |tail| then [] else Objects(text + tail[..n])
  {
    hide Objects, CloseOffset, Stays, Depth;
    CloseAfter(text, tail, '[', ']', 1);
    var n := CloseOffset(tail, '[', ']', Depth(text, '[', ']', 1));
    assert (text + tail)[..|text| + n] == text + tail[..n];
  }

  /** The first object whose braces are not balanced, if any. */
  function FirstUnbalanced(fs: seq<FeedSpec>): (i: nat)
    ensures i <= |fs| && (i < |fs| ==> !Balanced(SpecBody(fs[i]), '{', '}'))
    ensures forall j :: 0 <= j < i ==> Balanced(SpecBody(fs[j]), '{', '}')
  {
    if fs == [] || !Balanced(SpecBody(fs[0]), '{', '}') then 0 else 1 + FirstUnbalanced(fs[1..])
  }

  /** An object that opens more braces than it closes is completed by the text after it: its
      closing brace is found there, and what remains is read as the rest of the list. */
  predicate Completed(fs: seq<FeedSpec>, more: string)
    requires fs != []
  {
    var inside := SpecBody(fs[0]) + "}" + (Rest(fs) + more);
    var n := CloseOffset(inside, '{', '}', 1);
    n < |inside| && Objects(inside[n + 1..]) == fs[1..]
  }

  /** What must be found behind a list for it to be read back from there: nothing more if its
      objects are balanced, and otherwise the end of the first that is not, if it is not cut,
      and then the rest of the list. */
  predicate ReadWith(fs: seq<FeedSpec>, more: string) {
    var i := FirstUnbalanced(fs);
    if i == |fs| then Objects(more) == [] else !Cut(fs[i]) && Completed(fs[i..], more)
  }

  /** A first object that its strings cut is not read as it was written, whatever follows. */
  lemma CutFirst(f: FeedSpec, rest: string)
    requires QuotelessSpec(f) && Cut(f)
    ensures var read := Objects("{" + SpecBody(f) + "}" + rest); read != [] && read[0] != f
  {
    hide Objects, ReadSpec, CloseOffset, Stays, SpecBody, Find, Weight;
    var body := SpecBody(f);
    var text, inside := "{" + body + "}" + rest, body + ("}" + rest);
    FindAt(text, '{', 0, 0);
    ObjectsOpen(text, 0);
    assert text[1..] == inside;
    CloseInside(body, "}" + rest, '{', '}', 1);
    var n := CloseOffset(inside, '{', '}', 1);
    assert ['{'] + inside[..n + 1] == "{" + body[..n + 1] == Broken(f, n);
    BrokenIsLighter(f, n);
  }

  /** A first object that is not cut is read as it was written, if its end is found. */
  lemma OpenFirst(f: FeedSpec, rest: string)
    requires QuotelessSpec(f) && !Cut(f)
    ensures var inside := SpecBody(f) + "}" + rest;
            var n := CloseOffset(inside, '{', '}', 1);
            Objects("{" + SpecBody(f) + "}" + rest) == if n == |inside| then [] else [f] + Objects(inside[n + 1..])
  {
    hide Objects, ReadSpec, CloseOffset, Stays, Depth, SpecBody, Find;
    var body := SpecBody(f);
    var text, inside := "{" + body + "}" + rest, body + "}" + rest;
    FindAt(text, '{', 0, 0);
    ObjectsOpen(text, 0);
    assert text[1..] == inside == body + ("}" + rest);
    var n := CloseOffset(inside, '{', '}', 1);
    CloseAfter(body, "}" + rest, '{', '}', 1);
    if n < |inside| {
      var tail := inside[|body| + 1..n + 1];
      assert ['{'] + inside[..n + 1] == "{" + body + "}" + tail;
      SpecReads(f, tail);
    }
  }

  lemma UnbalancedFirst(fs: seq<FeedSpec>, more: string)
    requires QuotelessSpecs(fs) && fs != [] && !Balanced(SpecBody(fs[0]), '{', '}')
    ensures Objects(ListText(fs) + more) == fs <==> !Cut(fs[0]) && Completed(fs, more)
  {
    hide ListText, Objects, CloseOffset, SpecBody, Balanced, Cut, Rest;
    ListSplits(fs);
    var rest := Rest(fs) + more;
    assert ListText(fs) + more == "{" + SpecBody(fs[0]) + "}" + rest;
    if Cut(fs[0]) {
      CutFirst(fs[0], rest);
    } else {
      OpenFirst(fs[0], rest);
      assert fs == [fs[0]] + fs[1..];
    }
  }

  /** When a list is read back from its text followed by any other. */
  lemma {:induction false} ReadWithIff(fs: seq<FeedSpec>, more: string)
    requires QuotelessSpecs(fs)
    ensures Objects(ListText(fs) + more) == fs <==> ReadWith(fs, more)
    decreases |fs|
  {
    hide ListText, Objects, SpecBody, QuotelessSpec, Balanced, Cut, Completed;
    if fs == [] {
      EmptyList(fs);
      assert "" + more == more;
    } else if !Balanced(SpecBody(fs[0]), '{', '}') {
      UnbalancedFirst(fs, more);
      assert fs[0..] == fs;
    } else {
      ListSplits(fs);
      var f, tail := fs[0], fs[1..];
      assert ListText(fs) + more == "{" + SpecBody(f) + "}" + (Rest(fs) + more);
      ObjectFirst(SpecBody(f), Rest(fs) + more);
      SpecReads(f, "");
      assert "{" + SpecBody(f) + "}" + "" == "{" + SpecBody(f) + "}";
      assert fs == [f] + tail;
      ReadWithIff(tail, more);
      RestThen(fs, more);
      assert fs[1 + FirstUnbalanced(tail)..] == tail[FirstUnbalanced(tail)..];
    }
  }

  lemma RestThen(fs: seq<FeedSpec>, more: string)
    requires fs != []
    ensures Objects(Rest(fs) + more) == Objects(ListText(fs[1..]) + more)
  {
    hide ListText, Objects;
    if |fs| == 1 {
      EmptyList(fs[1..]);
    } else {
      CommaNoBrace();
      assert Rest(fs) + more == "," + (ListText(fs[1..]) + more);
      ObjectsSkip(",", ListText(fs[1..]) + more);
    }
  }

  /** No string closes the list; the brackets that its strings leave open are closed behind
      it, and it is read back with the text up to there. */
  predicate RunsOn(fs: seq<FeedSpec>, tail: string) {
    && Stays(ListText(fs), '[', ']', 1)
    && (DepthPositive(ListText(fs), '[', ']', 1);
        var n := CloseOffset(tail, '[', ']', Depth(ListText(fs), '[', ']', 1));
        n < |tail| && ReadWith(fs, tail[..n]))
  }

  lemma ListRunsOn(fs: seq<FeedSpec>, rest: string)
    requires QuotelessSpecs(fs)
    requires Stays(ListText(fs), '[', ']', 1) && !Balanced(ListText(fs), '[', ']')
    ensures ListIn(ListText(fs) + "]" + rest) == fs <==> RunsOn(fs, "]" + rest)
  {
    hide ListText, Objects, CloseOffset, QuotelessSpecs, Stays, Depth, ListIn, ReadWith;
    var text, tail := ListText(fs), "]" + rest;
    ListInFrom(text, tail);
    assert text + "]" + rest == text + tail;
    var n := CloseOffset(tail, '[', ']', Depth(text, '[', ']', 1));
    if n < |tail| {
      ReadWithIff(fs, tail[..n]);
    }
    NotEmpty(fs);
  }

  /** Which feed plans survive.  Let the strings of the feeds have neither quote nor backslash.
      If the brackets of the list are balanced, those in its strings included, the list is
      read back exactly if the braces inside each object are.  If a bracket in a string closes
      the list, it is not read back.  Otherwise the reader runs on behind the list, and it
      depends on what it finds there.  In particular, if no closing bracket follows the list in
      the document, it is read back exactly if both kinds are balanced. */
  lemma FeedsSurviveIff(members: seq<Member>, fs: seq<FeedSpec>)
    requires WellFormed(Object(members)) && MemberIndex(members, "feeds") < |members|
    requires Core(members[MemberIndex(members, "feeds")].value) == Array(SpecObjects(fs)) && QuotelessSpecs(fs)
    ensures var read := FeedsOf(Render(Object(members)));
            && (read == fs <==>
                  if Balanced(ListText(fs), '[', ']') then AllBalanced(fs)
                  else RunsOn(fs, "]" + Behind(members)))
            && (']' !in After(members, MemberIndex(members, "feeds")) ==>
                  (read == fs <==> AllBalanced(fs) && Balanced(ListText(fs), '[', ']')))
  {
    hide FeedsOf, ListIn, WellFormed, Core, Render, RenderItems, After, Stays, Depth, QuotelessSpecs, AllBalanced, MemberIndex, RunsOn;
    FeedsText(members, SpecObjects(fs));
    var rest, text := Behind(members), ListText(fs);
    if Balanced(text, '[', ']') {
      ListBalanced(fs, rest);
    } else if Stays(text, '[', ']', 1) {
      ListRunsOn(fs, rest);
      if ']' !in After(members, MemberIndex(members, "feeds")) {
        RestHasNone(Trailing(members[MemberIndex(members, "feeds")].value), After(members, MemberIndex(members, "feeds")));
        ListLost(text, rest);
        NotEmpty(fs);
      }
    } else {
      ListCut(fs, rest);
      assert !RunsOn(fs, "]" + rest) by { NoRun(fs, "]" + rest); }
    }
  }

  lemma NoRun(fs: seq<FeedSpec>, tail: string)
    requires !Stays(ListText(fs), '[', ']', 1)
    ensures !RunsOn(fs, tail)
  {
  }

  lemma RestHasNone(blank: string, after: string)
    requires ']' !in after && Blank(blank)
    ensures forall i :: 0 <= i < |blank + (after + "}")| ==> (blank + (after + "}"))[i] != ']'
  {
    var rest := blank + (after + "}");
    forall i | 0 <= i < |rest| ensures rest[i] != ']' {
      assert i < |blank| ==> rest[i] == blank[i];
      assert |blank| <= i < |blank| + |after| ==> rest[i] == after[i - |blank|] && after[i - |blank|] in after;
    }
  }

  // ---------------------------------------------- only the strings matter

  /** The strings of the members, one after the other. */
  function Strings(ms: seq<Member>): string {
    if ms == [] then "" else (if ms[0].value.Text? then ms[0].value.raw else "") + Strings(ms[1..])
  }

  lemma FreeDrops(s: string, t: string, open: char, close: char, d: int)
    requires d > 0 && forall i :: 0 <= i < |s| ==> s[i] != open && s[i] != close
    ensures Depth(s + t, open, close, d) == Depth(t, open, close, d)
    ensures Stays(s + t, open, close, d) <==> Stays(t, open, close, d)
  {
    DepthConcat(s, t, open, close, d);
    BalancedFree(s, open, close);
    DepthLift(s, open, close, 1, d - 1);
  }

  predicate SameDepths(s: string, t: string, open: char, close: char, d: int) {
    && (Stays(s, open, close, d) <==> Stays(t, open, close, d))
    && (Stays(s, open, close, d) ==> Depth(s, open, close, d) == Depth(t, open, close, d))
  }

  /** The rest of a text after a string that both texts have in common. */
  lemma SameHead(raw: string, s: string, t: string, open: char, close: char, d: int)
    requires var e := Depth(raw, open, close, d); e > 0 ==> SameDepths(s, t, open, close, e)
    ensures SameDepths(raw + s, raw + t, open, close, d)
  {
    DepthConcat(raw, s, open, close, d);
    DepthConcat(raw, t, open, close, d);
    if Stays(raw, open, close, d) {
      DepthPositive(raw, open, close, d);
    }
  }

  lemma {:induction false} OnlyStrings(ms: seq<Member>, open: char, close: char, d: int)
    requires d > 0 && Brackets(open, close) && forall i :: 0 <= i < |ms| ==> Simple(ms[i])
    ensures SameDepths(RenderMembers(ms), Strings(ms), open, close, d)
    decreases |ms|
  {
    hide Stays, Depth, RenderMember;
    if ms != [] {
      var m := ms[0];
      var rest := if |ms| == 1 then "" else "," + RenderMembers(ms[1..]);
      var raw := if m.value.Text? then m.value.raw else "";
      var quote := if m.value.Text? then "\"" else "";
      var e := Depth(raw, open, close, d);
      if e > 0 {
        if |ms| > 1 {
          OnlyStrings(ms[1..], open, close, e);
          FreeDrops(",", RenderMembers(ms[1..]), open, close, e);
        } else {
          assert ms[1..] == [];
        }
        FreeDrops(quote, rest, open, close, e);
      }
      SameHead(raw, quote + rest, Strings(ms[1..]), open, close, d);
      var key := HeadOf(m);
      HeadPlain(m, open, close);
      MemberText(m, rest);
      FreeDrops(key, raw + (quote + rest), open, close, d);
      assert RenderMembers(ms) == RenderMember(m) + rest;
    }
  }

  /** What stands before the contents of the string. */
  function HeadOf(m: Member): string {
    RenderKey(m) + match m.value case Text(_) => "\"" case Atom(text) => text case _ => ""
  }

  lemma HeadPlain(m: Member, open: char, close: char)
    requires Simple(m) && Brackets(open, close)
    ensures forall i :: 0 <= i < |HeadOf(m)| ==> HeadOf(m)[i] != open && HeadOf(m)[i] != close
  {
    assert RenderKey(m) == "\"" + m.key + "\":";
  }

  lemma MemberText(m: Member, rest: string)
    requires Simple(m)
    ensures RenderMember(m) + rest ==
            HeadOf(m) + ((if m.value.Text? then m.value.raw else "") + ((if m.value.Text? then "\"" else "") + rest))
  {
    match m.value
    case Text(raw) => assert Render(m.value) == "\"" + raw + "\"";
    case Atom(text) => assert Render(m.value) == text;
  }

  /** Whether an object is balanced is decided by its strings, read one after the other. */
  lemma StringsDecide(f: FeedSpec, open: char, close: char)
    requires QuotelessSpec(f) && Brackets(open, close)
    ensures Balanced(SpecBody(f), open, close) <==>
            Balanced(f.interval + f.role + f.source + f.dataPath + f.base, open, close)
  {
    hide Stays, Depth, RenderMembers, Simple, Strings;
    SpecSimple(f);
    OnlyStrings(SpecMembers(f), open, close, 1);
    SpecStrings(f);
    BalancedIs(SpecBody(f), open, close);
  }

  lemma BalancedIs(s: string, open: char, close: char)
    ensures Balanced(s, open, close) <==> Stays(s, open, close, 1) && Depth(s, open, close, 1) == 1
  {
  }

  lemma SpecStrings(f: FeedSpec)
    ensures Strings(SpecMembers(f)) == f.interval + f.role + f.source + f.dataPath + f.base
  {
    hide Decimal;
    var ms := SpecMembers(f);
    assert Strings(ms[6..]) == "";
    assert Strings(ms[5..]) == f.base by { assert ms[5..][1..] == ms[6..]; }
    assert Strings(ms[4..]) == f.dataPath + f.base by { assert ms[4..][1..] == ms[5..]; }
    assert Strings(ms[3..]) == f.source + (f.dataPath + f.base) by { assert ms[3..][1..] == ms[4..]; }
    assert Strings(ms[2..]) == f.role + (f.source + (f.dataPath + f.base)) by { assert ms[2..][1..] == ms[3..]; }
    assert Strings(ms[1..]) == f.interval + (f.role + (f.source + (f.dataPath + f.base))) by { assert ms[1..][1..] == ms[2..]; }
  }

  /** In particular a compact list without braces and brackets in its strings survives. */
  lemma PlainFeedsSurvive(members: seq<Member>, fs: seq<FeedSpec>)
    requires WellFormed(Object(members)) && MemberIndex(members, "feeds") < |members|
    requires Core(members[MemberIndex(members, "feeds")].value) == Array(SpecObjects(fs)) && QuotelessSpecs(fs)
    requires forall i :: 0 <= i < |fs| ==> PlainSpec(fs[i])
    ensures FeedsOf(Render(Object(members))) == fs
  {
    hide FeedsOf, WellFormed, Core, Render, RenderItems, SpecBody, Stays, Depth, QuotelessSpec, PlainSpec, MemberIndex;
    forall i | 0 <= i < |fs| ensures Balanced(SpecBody(fs[i]), '{', '}') && Balanced(SpecBody(fs[i]), '[', ']') {
      PlainBalanced(fs[i], '{', '}');
      PlainBalanced(fs[i], '[', ']');
    }
    PlainList(fs);
    FeedsSurviveIff(members, fs);
  }

  lemma {:induction false} PlainList(fs: seq<FeedSpec>)
    requires forall i :: 0 <= i < |fs| ==> Balanced(SpecBody(fs[i]), '[', ']')
    ensures Balanced(ListText(fs), '[', ']')
  {
    hide Balanced, SpecBody, ListText;
    if fs == [] {
      EmptyList(fs);
      BalancedFree("", '[', ']');
    } else {
      ListSplits(fs);
      Wrapped(SpecBody(fs[0]), '{', '}', '[', ']');
      assert ['{'] + SpecBody(fs[0]) + ['}'] == "{" + SpecBody(fs[0]) + "}";
      if |fs| > 1 {
        PlainList(fs[1..]);
        Joined("{" + SpecBody(fs[0]) + "}", ListText(fs[1..]), '[', ']');
        assert "{" + SpecBody(fs[0]) + "}" + "," + ListText(fs[1..]) == "{" + SpecBody(fs[0]) + "}" + Rest(fs);
      } else {
        assert "{" + SpecBody(fs[0]) + "}" + Rest(fs) == "{" + SpecBody(fs[0]) + "}";
      }
    }
  }

  // ------------------------------------------- an unbalanced list that survives

  const OPENER := FeedSpec(0, "", "", "", "", "[{")
  const RESCUED := [Member("feeds", "", Array(SpecObjects([OPENER]))), Member("x", "", Text("}]"))]

  lemma OpenerDepth(open: char, close: char)
    requires Brackets(open, close)
    ensures QuotelessSpec(OPENER)
    ensures Stays(SpecBody(OPENER), open, close, 1) && Depth(SpecBody(OPENER), open, close, 1) == 2
  {
    hide SpecMembers, RenderMembers, Simple, Strings;
    var f := OPENER;
    SpecSimple(f);
    SpecStrings(f);
    OnlyStrings(SpecMembers(f), open, close, 1);
    assert f.interval + f.role + f.source + f.dataPath + f.base == "[{";
    OneEach(open, close);
  }

  lemma OneEach(open: char, close: char)
    requires Brackets(open, close)
    ensures Stays("[{", open, close, 1) && Depth("[{", open, close, 1) == 2
  {
    assert "[{"[1..] == "{" && "{"[1..] == "";
    assert Depth("", open, close, 2) == 2 && Stays("", open, close, 2);
  }

  lemma RescuedText()
    ensures WellFormed(Object(RESCUED)) && MemberIndex(RESCUED, "feeds") == 0
    ensures ListText([OPENER]) == "{" + SpecBody(OPENER) + "}"
    ensures Behind(RESCUED) == ",\"x\":\"}]\"}"
  {
    hide SpecMembers, RenderMember, WellFormed;
    OpenerDepth('{', '}');
    SpecWellFormed(OPENER);
    RescuedWellFormed();
    ListSplits([OPENER]);
    assert RESCUED[1..] == [Member("x", "", Text("}]"))];
    XMember();
  }

  lemma XMember()
    ensures RenderMember(Member("x", "", Text("}]"))) == "\"x\":\"}]\""
  {
  }

  lemma RescuedWellFormed()
    requires WellFormed(SpecObject(OPENER))
    ensures WellFormed(Object(RESCUED))
  {
    hide SpecMembers;
    hide SpecObject;
    QuotelessEscaped("feeds");
    TextMember("x", "}]");
    assert WellFormed(Array(SpecObjects([OPENER])));
    assert WellFormedMember(RESCUED[0]) && WellFormedMember(RESCUED[1]);
  }

  /** The second closing bracket is the one in the string. */
  lemma RescuedBrackets(body: string)
    requires Stays(body, '[', ']', 1) && Depth(body, '[', ']', 1) == 2
    ensures var text, tail := "{" + body + "}", "],\"x\":\"}]\"}";
            && Stays(text, '[', ']', 1) && Depth(text, '[', ']', 1) == 2
            && var n := CloseOffset(tail, '[', ']', 2); n < |tail| && tail[..n] == "],\"x\":\"}"
  {
    hide Stays, Depth, CloseOffset;
    FreeDrops("{", body + "}", '[', ']', 1);
    DepthConcat(body, "}", '[', ']', 1);
    BalancedFree("}", '[', ']');
    FreeDrops("}", "", '[', ']', 2);
    assert "}" + "" == "}";
    NoMore('[', ']', 2);
    assert "{" + (body + "}") == "{" + body + "}";
    var head := ",\"x\":\"}";
    BalancedFree(head, '[', ']');
    CloseAfter(head, "]\"}", '[', ']', 1);
    BalancedIs(head, '[', ']');
    NowClosed("]\"}", '[', ']');
    OneDown(head + "]\"}", '[', ']', 2);
    assert "]" + (head + "]\"}") == "],\"x\":\"}]\"}";
    assert ("],\"x\":\"}]\"}")[..8] == "],\"x\":\"}";
  }

  lemma NoMore(open: char, close: char, d: int)
    requires d > 0
    ensures Stays("", open, close, d) && Depth("", open, close, d) == d
  {
  }

  lemma NowClosed(s: string, open: char, close: char)
    requires s != [] && s[0] == close != open
    ensures CloseOffset(s, open, close, 1) == 0
  {
  }

  lemma OneDown(s: string, open: char, close: char, d: nat)
    requires d > 1 && open != close
    ensures CloseOffset([close] + s, open, close, d) == 1 + CloseOffset(s, open, close, d - 1)
  {
    assert ([close] + s)[1..] == s;
  }

  lemma RescuedBraces(body: string)
    requires Stays(body, '{', '}', 1) && Depth(body, '{', '}', 1) == 2
    ensures var inside := body + "}" + ("" + "],\"x\":\"}");
            CloseOffset(inside, '{', '}', 1) == |inside| - 1
  {
    hide Stays, Depth, CloseOffset;
    var head := "],\"x\":\"";
    CloseAfter(body, "}" + (head + "}"), '{', '}', 1);
    OneDown(head + "}", '{', '}', 2);
    BalancedFree(head, '{', '}');
    BalancedIs(head, '{', '}');
    CloseAfter(head, "}", '{', '}', 1);
    NowClosed("}", '{', '}');
    assert ['}'] + (head + "}") == "}" + (head + "}");
    assert head + "}" == "" + "],\"x\":\"}";
    assert body + "}" + ("" + "],\"x\":\"}") == body + ("}" + (head + "}"));
  }

  /** For example a lone feed whose base is "[{" survives, if another field of the document
      happens to hold "}]", although nothing is balanced. */
  lemma LaterTextRescues()
    ensures FeedsOf(Render(Object(RESCUED))) == [OPENER]
    ensures !AllBalanced([OPENER]) && !Balanced(ListText([OPENER]), '[', ']')
  {
    hide SpecBody, Depth, Stays, FeedsOf, Render, ListText, WellFormed, Behind, After, CloseOffset, ReadWith;
    OpenerDepth('{', '}');
    OpenerDepth('[', ']');
    RescuedText();
    var fs, body, tail := [OPENER], SpecBody(OPENER), "],\"x\":\"}]\"}";
    assert "]" + Behind(RESCUED) == tail;
    RescuedBrackets(body);
    RescuedRead();
    assert RunsOn(fs, tail);
    assert ListText(fs) == "{" + body + "}";
    assert !Balanced(SpecBody(fs[0]), '{', '}');
    FeedsSurviveIff(RESCUED, fs);
  }

  lemma RescuedRead()
    ensures ReadWith([OPENER], "],\"x\":\"}")
  {
    hide SpecBody, Depth, Stays, ListText, Objects, CloseOffset;
    OpenerDepth('{', '}');
    var fs, body := [OPENER], SpecBody(OPENER);
    assert !Balanced(body, '{', '}') && fs[0..] == fs;
    RescuedBraces(body);
    var inside := body + "}" + (Rest(fs) + "],\"x\":\"}");
    assert Rest(fs) == "" && FirstUnbalanced(fs) == 0;
    NothingLeft(inside[CloseOffset(inside, '{', '}', 1) + 1..]);
    assert Completed(fs, "],\"x\":\"}");
  }
}
