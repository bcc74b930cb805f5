/** The structural key search of `BacktestConfigParser::find_key`, and the proof that it
    finds the first top-level field whatever the document contains. */
module Scanner {
  import opened Numbers
  import opened Json

  function Shift(n: nat, r: Option<nat>): Option<nat> {
    match r
    case None => None
    case Some(i) => Some(n + i)
  }

  /** Length of the white space at the start. */
  function Blanks(s: string): (n: nat)
    ensures n <= |s| && Blank(s[..n]) && (n < |s| ==> !IsBlank(s[n]))
  {
    if s != [] && IsBlank(s[0]) then 1 + Blanks(s[1..]) else 0
  }

  predicate ColonNext(s: string) {
    Blanks(s) < |s| && s[Blanks(s)] == ':'
  }

  /** The scan outside a string: the offset just after the colon of the key, if found. */
  function Outside(rest: string, key: string, depth: int): (r: Option<nat>)
    ensures r.Some? ==> r.value <= |rest|
    decreases |rest|
  {
    if rest == [] then None
    else
      var c := rest[0];
      if c == '"' then Shift(1, Inside(rest[1..], key, depth, [], false))
      else if c in {'{', '['} then Shift(1, Outside(rest[1..], key, depth + 1))
      else if c in {'}', ']'} then Shift(1, Outside(rest[1..], key, depth - 1))
      else Shift(1, Outside(rest[1..], key, depth))
  }

  /** The scan inside a string, of which `token` has been read. */
  function Inside(rest: string, key: string, depth: int, token: string, escape: bool): (r: Option<nat>)
    ensures r.Some? ==> r.value <= |rest|
    decreases |rest|
  {
    if rest == [] then None
    else
      var c := rest[0];
      if escape then Shift(1, Inside(rest[1..], key, depth, token + [c], false))
      else if c == '\\' then Shift(1, Inside(rest[1..], key, depth, token + [c], true))
      else if c == '"' then
        if depth == 1 && ColonNext(rest[1..]) && token == key then Some(1 + Blanks(rest[1..]) + 1)
        else Shift(1, Outside(rest[1..], key, depth))
      else Shift(1, Inside(rest[1..], key, depth, token + [c], false))
  }

  // ------------------------------------------------------------- the loop

  /** What the scan will find from position `i` on, given the variables of the loop. */
  function Resume(json: string, key: string, depth: int, inString: bool, escape: bool, start: nat, i: nat): Option<nat>
    requires i <= |json| && (inString ==> start <= i)
  {
    Shift(i, if inString then Inside(json[i..], key, depth, json[start..i], escape) else Outside(json[i..], key, depth))
  }

  lemma ResumeInside(json: string, key: string, depth: int, escape: bool, start: nat, i: nat)
    requires start <= i < |json|
    ensures Resume(json, key, depth, true, escape, start, i) ==
            if escape then Resume(json, key, depth, true, false, start, i + 1)
            else if json[i] == '\\' then Resume(json, key, depth, true, true, start, i + 1)
            else if json[i] != '"' then Resume(json, key, depth, true, false, start, i + 1)
            else if depth == 1 && ColonNext(json[i + 1..]) && json[start..i] == key then
              Some(i + 1 + Blanks(json[i + 1..]) + 1)
            else Resume(json, key, depth, false, false, start, i + 1)
  {
    hide Blanks, ColonNext;
    assert json[i..][0] == json[i] && json[i..][1..] == json[i + 1..];
    assert json[start..i + 1] == json[start..i] + [json[i]];
  }

  lemma ResumeOutside(json: string, key: string, depth: int, start: nat, i: nat)
    requires i < |json|
    ensures Resume(json, key, depth, false, false, start, i) ==
            if json[i] == '"' then Resume(json, key, depth, true, false, i + 1, i + 1)
            else if json[i] in {'{', '['} then Resume(json, key, depth + 1, false, false, start, i + 1)
            else if json[i] in {'}', ']'} then Resume(json, key, depth - 1, false, false, start, i + 1)
            else Resume(json, key, depth, false, false, start, i + 1)
  {
    assert json[i..][0] == json[i] && json[i..][1..] == json[i + 1..];
    assert json[i + 1..i + 1] == [];
  }

  /** `find_key`: the position after the colon, or `None` for `npos`. */
  method FindKey(json: string, key: string) returns (r: Option<nat>)
    ensures r == Outside(json, key, 0)
  {
    hide Blanks, Resume, Inside, Outside;
    var depth, inString, escape, start := 0, false, false, 0;
    var i := 0;
    ResumeStarts(json, key);
    while i < |json|
      invariant i <= |json| && (if inString then start <= i else !escape)
      invariant Outside(json, key, 0) == Resume(json, key, depth, inString, escape, start, i)
    {
      if inString {
        ResumeInside(json, key, depth, escape, start, i);
        if escape {
          escape := false;
        } else if json[i] == '\\' {
          escape := true;
        } else if json[i] == '"' {
          inString := false;
          if depth == 1 {
            var token := json[start..i];
            var after := FirstNotBlank(json, i + 1);
            assert after < |json| ==> json[i + 1..][Blanks(json[i + 1..])] == json[after];
            if after < |json| && json[after] == ':' && token == key {
              return Some(after + 1);
            }
          }
        }
      } else {
        ResumeOutside(json, key, depth, start, i);
        match json[i]
        case '"' => inString, start := true, i + 1;
        case '{' => depth := depth + 1;
        case '[' => depth := depth + 1;
        case '}' => depth := depth - 1;
        case ']' => depth := depth - 1;
        case _ =>
      }
      i := i + 1;
    }
    ResumeEnds(json, key, depth, inString, escape, start);
    r := None;
  }

  lemma ResumeStarts(json: string, key: string)
    ensures Resume(json, key, 0, false, false, 0, 0) == Outside(json, key, 0)
  {
    assert json[0..] == json;
  }

  lemma ResumeEnds(json: string, key: string, depth: int, inString: bool, escape: bool, start: nat)
    requires inString ==> start <= |json|
    ensures Resume(json, key, depth, inString, escape, start, |json|) == None
  {
  }

  /** `find_first_not_of(" \t\r\n", from)`; the length of the text stands for `npos`. */
  method FirstNotBlank(s: string, from: nat) returns (k: nat)
    requires from <= |s|
    ensures k == from + Blanks(s[from..])
  {
    k := from;
    while k < |s| && IsBlank(s[k])
      invariant from <= k <= |s|
      invariant from + Blanks(s[from..]) == k + Blanks(s[k..])
    {
      assert s[k..][1..] == s[k + 1..];
      k := k + 1;
    }
  }

  // --------------------------------------------------- texts that go on

  lemma {:induction false} BlanksExtend(s: string, more: string)
    ensures Blanks(s) < |s| ==> Blanks(s + more) == Blanks(s)
  {
    if s != [] && IsBlank(s[0]) {
      assert (s + more)[1..] == s[1..] + more;
      BlanksExtend(s[1..], more);
    }
  }

  lemma {:induction false} BlankHasNoKey(s: string, key: string, depth: int)
    requires Blank(s)
    ensures Outside(s, key, depth) == None
  {
    if s != [] {
      BlankHasNoKey(s[1..], key, depth);
    }
  }

  /** A key that is found is also found if the text goes on. */
  lemma {:induction false} OutsideExtends(s: string, more: string, key: string, depth: int)
    ensures Outside(s, key, depth).Some? ==> Outside(s + more, key, depth) == Outside(s, key, depth)
    decreases |s|
  {
    hide Blanks;
    if s != [] {
      var c := s[0];
      assert (s + more)[1..] == s[1..] + more;
      if c == '"' {
        InsideExtends(s[1..], more, key, depth, [], false);
      } else {
        OutsideExtends(s[1..], more, key, if c in {'{', '['} then depth + 1 else if c in {'}', ']'} then depth - 1 else depth);
      }
    }
  }

  lemma {:induction false} InsideExtends(s: string, more: string, key: string, depth: int, token: string, escape: bool)
    ensures Inside(s, key, depth, token, escape).Some? ==>
              Inside(s + more, key, depth, token, escape) == Inside(s, key, depth, token, escape)
    decreases |s|
  {
    hide Blanks;
    if s != [] {
      var c, rest := s[0], s[1..];
      assert (s + more)[1..] == rest + more;
      if escape {
        InsideExtends(rest, more, key, depth, token + [c], false);
      } else if c == '\\' {
        InsideExtends(rest, more, key, depth, token + [c], true);
      } else if c == '"' {
        BlanksExtend(rest, more);
        OutsideExtends(rest, more, key, depth);
        if Blanks(rest) == |rest| {
          BlankHasNoKey(rest, key, depth);
        }
      } else {
        InsideExtends(rest, more, key, depth, token + [c], false);
      }
    }
  }

  // ------------------------------------------------- scanning over a value

  /** Reading the contents of a string. */
  lemma {:induction false} SkipRaw(raw: string, post: string, key: string, depth: int, token: string)
    requires WellEscaped(raw)
    ensures Inside(raw + post, key, depth, token, false) == Shift(|raw|, Inside(post, key, depth, token + raw, false))
    decreases |raw|
  {
    if raw == [] {
      assert raw + post == post && token + raw == token;
    } else {
      var all := raw + post;
      if raw[0] == '\\' {
        assert all[1..] == raw[1..] + post && all[1..][1..] == raw[2..] + post;
        SkipRaw(raw[2..], post, key, depth, token + [raw[0]] + [raw[1]]);
        assert token + [raw[0]] + [raw[1]] + raw[2..] == token + raw;
      } else {
        assert all[1..] == raw[1..] + post;
        SkipRaw(raw[1..], post, key, depth, token + [raw[0]]);
        assert token + [raw[0]] + raw[1..] == token + raw;
      }
    }
  }

  /** Scanning over a quoted string that is not the key searched for. */
  lemma SkipQuoted(raw: string, post: string, key: string, depth: int)
    requires WellEscaped(raw) && !(depth == 1 && ColonNext(post) && raw == key)
    ensures Outside("\"" + raw + "\"" + post, key, depth) == Shift(|raw| + 2, Outside(post, key, depth))
  {
    hide Blanks;
    var all := "\"" + raw + "\"" + post;
    var tail := "\"" + post;
    assert all[1..] == raw + tail;
    SkipRaw(raw, tail, key, depth, []);
    assert [] + raw == raw;
    assert tail[1..] == post;
  }

  /** Scanning over text without structure. */
  lemma {:induction false} SkipPlain(text: string, post: string, key: string, depth: int)
    requires forall i :: 0 <= i < |text| ==> !Structural(text[i])
    ensures Outside(text + post, key, depth) == Shift(|text|, Outside(post, key, depth))
  {
    if text == [] {
      assert text + post == post;
    } else {
      assert (text + post)[1..] == text[1..] + post;
      SkipPlain(text[1..], post, key, depth);
    }
  }

  lemma SkipOne(c: char, post: string, key: string, depth: int)
    requires c != '"'
    ensures Outside([c] + post, key, depth) ==
            Shift(1, Outside(post, key, if c in {'{', '['} then depth + 1 else if c in {'}', ']'} then depth - 1 else depth))
  {
    assert ([c] + post)[1..] == post;
  }

  lemma {:induction false} BlanksSkip(ws: string, post: string)
    requires Blank(ws)
    ensures ColonNext(ws + post) <==> ColonNext(post)
    ensures Blanks(ws + post) == |ws| + Blanks(post)
  {
    if ws == [] {
      assert ws + post == post;
    } else {
      assert (ws + post)[1..] == ws[1..] + post;
      BlanksSkip(ws[1..], post);
    }
  }

  /** Where a value stands: nested, or at the top level with no colon after it. */
  predicate Quiet(depth: int, post: string) {
    depth >= 2 || (depth == 1 && !ColonNext(post))
  }

  /** The scan passes over any value and is back in the state it was in. */
  lemma {:induction false} SkipValue(v: Value, post: string, key: string, depth: int)
    requires WellFormed(v) && Quiet(depth, post)
    ensures Outside(Render(v) + post, key, depth) == Shift(|Render(v)|, Outside(post, key, depth))
    decreases v, 1
  {
    hide Outside, Inside, Blanks, ColonNext, WellFormedMember, RenderItems, RenderMembers;
    match v
    case Text(raw) => SkipQuoted(raw, post, key, depth);
    case Atom(text) => SkipPlain(text, post, key, depth);
    case Array(items) =>
      var body := RenderItems(items);
      assert Render(v) + post == "[" + (body + ("]" + post));
      SkipOne('[', body + ("]" + post), key, depth);
      SkipItems(items, "]" + post, key, depth + 1);
      SkipOne(']', post, key, depth + 1);
    case Object(members) =>
      var body := RenderMembers(members);
      assert Render(v) + post == "{" + (body + ("}" + post));
      SkipOne('{', body + ("}" + post), key, depth);
      SkipMembers(members, "}" + post, key, depth + 1);
      SkipOne('}', post, key, depth + 1);
    case Spaced(before, value, after) =>
      assert Render(v) + post == before + (Render(value) + (after + post));
      BlankIsPlain(before);
      BlankIsPlain(after);
      SkipPlain(before, Render(value) + (after + post), key, depth);
      BlanksSkip(after, post);
      SkipValue(value, after + post, key, depth);
      SkipPlain(after, post, key, depth);
  }

  lemma BlankIsPlain(ws: string)
    requires Blank(ws)
    ensures forall i :: 0 <= i < |ws| ==> !Structural(ws[i])
  {
  }

  lemma {:induction false} SkipItems(items: seq<Value>, post: string, key: string, depth: int)
    requires depth >= 2 && forall i :: 0 <= i < |items| ==> WellFormed(items[i])
    ensures Outside(RenderItems(items) + post, key, depth) == Shift(|RenderItems(items)|, Outside(post, key, depth))
    decreases items, 0
  {
    hide Outside, Inside, Blanks, ColonNext, WellFormed, Render;
    if items == [] {
      assert RenderItems(items) + post == post;
    } else if |items| == 1 {
      SkipValue(items[0], post, key, depth);
    } else {
      var rest := RenderItems(items[1..]) + post;
      assert RenderItems(items) + post == Render(items[0]) + ("," + rest);
      SkipValue(items[0], "," + rest, key, depth);
      SkipOne(',', rest, key, depth);
      SkipItems(items[1..], post, key, depth);
    }
  }

  /** Scanning over a nested member: its key is not at the top level. */
  lemma {:induction false} SkipMember(m: Member, post: string, key: string, depth: int)
    requires depth >= 2 && WellFormedMember(m)
    ensures Outside(RenderMember(m) + post, key, depth) == Shift(|RenderMember(m)|, Outside(post, key, depth))
    decreases m, 0
  {
    hide Outside, Inside, Blanks, ColonNext, WellFormed, Render;
    var tail := Render(m.value) + post;
    assert RenderMember(m) + post == "\"" + m.key + "\"" + (m.gap + (":" + tail));
    SkipQuoted(m.key, m.gap + (":" + tail), key, depth);
    BlankIsPlain(m.gap);
    SkipPlain(m.gap, ":" + tail, key, depth);
    SkipOne(':', tail, key, depth);
    SkipValue(m.value, post, key, depth);
  }

  lemma {:induction false} SkipMembers(members: seq<Member>, post: string, key: string, depth: int)
    requires depth >= 2 && forall i :: 0 <= i < |members| ==> WellFormedMember(members[i])
    ensures Outside(RenderMembers(members) + post, key, depth) == Shift(|RenderMembers(members)|, Outside(post, key, depth))
    decreases members, 0
  {
    hide Outside, Inside, Blanks, ColonNext, WellFormedMember, RenderMember;
    if members == [] {
      assert RenderMembers(members) + post == post;
    } else if |members| == 1 {
      SkipMember(members[0], post, key, depth);
    } else {
      var rest := RenderMembers(members[1..]) + post;
      assert RenderMembers(members) + post == RenderMember(members[0]) + ("," + rest);
      SkipMember(members[0], "," + rest, key, depth);
      SkipOne(',', rest, key, depth);
      SkipMembers(members[1..], post, key, depth);
    }
  }

  // ------------------------------------------------------- the top level

  /** Index of the first member with the key. */
  function MemberIndex(members: seq<Member>, key: string): (k: nat)
    ensures k <= |members|
    ensures k < |members| ==> members[k].key == key
    ensures forall j :: 0 <= j < k ==> members[j].key != key
  {
    if members == [] || members[0].key == key then 0 else 1 + MemberIndex(members[1..], key)
  }

  /** Offset, within the rendered members, of the value of member `k`. */
  function ValueOffset(members: seq<Member>, k: nat): nat
    requires k < |members|
  {
    if k == 0 then |RenderKey(members[0])| else |RenderMember(members[0])| + 1 + ValueOffset(members[1..], k - 1)
  }

  /** The scan finds the colon of a key it is looking at. */
  lemma KeyFound(m: Member, post: string)
    requires WellEscaped(m.key) && Blank(m.gap)
    ensures Outside(RenderKey(m) + post, m.key, 1) == Some(|RenderKey(m)|)
  {
    hide Blanks;
    var tail := "\"" + (m.gap + (":" + post));
    var all := RenderKey(m) + post;
    assert all == "\"" + (m.key + tail);
    assert all[1..] == m.key + tail;
    SkipRaw(m.key, tail, m.key, 1, []);
    assert [] + m.key == m.key;
    assert tail[1..] == m.gap + (":" + post);
    BlanksSkip(m.gap, ":" + post);
    ColonIsNext(post);
  }

  lemma ColonIsNext(post: string)
    ensures Blanks(":" + post) == 0 && ColonNext(":" + post)
  {
  }

  /** A top-level member with another key is passed over. */
  lemma OtherMember(m: Member, post: string, key: string)
    requires WellFormedMember(m) && m.key != key && !ColonNext(post)
    ensures Outside(RenderMember(m) + post, key, 1) == Shift(|RenderMember(m)|, Outside(post, key, 1))
  {
    hide Outside, Inside, Blanks, ColonNext, Render;
    var tail := Render(m.value) + post;
    assert RenderMember(m) + post == "\"" + m.key + "\"" + (m.gap + (":" + tail));
    SkipQuoted(m.key, m.gap + (":" + tail), key, 1);
    BlankIsPlain(m.gap);
    SkipPlain(m.gap, ":" + tail, key, 1);
    SkipOne(':', tail, key, 1);
    SkipValue(m.value, post, key, 1);
  }

  lemma NotColon(c: char, post: string)
    requires c in {',', '}'}
    ensures !ColonNext([c] + post)
  {
  }

  lemma {:induction false} FindsMember(members: seq<Member>, post: string, key: string)
    requires forall i :: 0 <= i < |members| ==> WellFormedMember(members[i])
    requires !ColonNext(post)
    ensures var k := MemberIndex(members, key);
            Outside(RenderMembers(members) + post, key, 1) ==
            if k < |members| then Some(ValueOffset(members, k))
            else Shift(|RenderMembers(members)|, Outside(post, key, 1))
    decreases |members|
  {
    hide Outside, Inside, Blanks, ColonNext, WellFormedMember, RenderKey, Render;
    if members == [] {
      assert RenderMembers(members) + post == post;
    } else {
      var m := members[0];
      var rest := if |members| == 1 then post else "," + (RenderMembers(members[1..]) + post);
      assert RenderMembers(members) + post == RenderMember(m) + rest;
      if |members| > 1 {
        NotColon(',', RenderMembers(members[1..]) + post);
      }
      if m.key == key {
        FirstFound(m, rest);
      } else {
        OtherMember(m, rest, key);
        FindsMember(members[1..], post, key);
        if |members| > 1 {
          SkipOne(',', RenderMembers(members[1..]) + post, key, 1);
        } else {
          assert members[1..] == [];
          assert RenderMembers(members[1..]) + post == post;
        }
      }
    }
  }

  lemma FirstFound(m: Member, rest: string)
    requires WellFormedMember(m)
    ensures Outside(RenderMember(m) + rest, m.key, 1) == Some(|RenderKey(m)|)
  {
    hide Outside, Render;
    assert RenderMember(m) + rest == RenderKey(m) + (Render(m.value) + rest);
    KeyFound(m, Render(m.value) + rest);
  }

  lemma NothingOutside(key: string)
    ensures Outside("}", key, 1) == None
  {
    assert "}"[1..] == [];
  }

  /** In every rendered object, whatever is nested or escaped in it, `find_key` lands just
      after the colon of the first top-level field of that name, or reports that there is
      none. */
  lemma FindKeyIsFirstField(members: seq<Member>, key: string)
    requires WellFormed(Object(members))
    ensures var k := MemberIndex(members, key);
            Outside(Render(Object(members)), key, 0) ==
            if k < |members| then Some(1 + ValueOffset(members, k)) else None
  {
    hide Outside, Inside, RenderMembers;
    var doc := Render(Object(members));
    assert doc == "{" + (RenderMembers(members) + "}");
    SkipOne('{', RenderMembers(members) + "}", key, 0);
    NotColon('}', []);
    assert ['}'] + [] == "}";
    FindsMember(members, "}", key);
    NothingOutside(key);
  }
}
