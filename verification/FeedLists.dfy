/** From the objects of a document to the feed plan: matching brackets, and the round trip of
    a list of feeds in any layout. */
module FeedLists {
  import opened Numbers
  import opened Json
  import opened Scanner
  import opened FeedPlans

  // ------------------------------------------------------------- brackets

  function Turn(c: char, open: char, close: char, d: int): int {
    if c == open then d + 1 else if c == close then d - 1 else d
  }

  /** The depth after a text that starts at depth `d`. */
  function Depth(s: string, open: char, close: char, d: int): int {
    if s == [] then d else Depth(s[1..], open, close, Turn(s[0], open, close, d))
  }

  /** The depth is positive throughout. */
  predicate Stays(s: string, open: char, close: char, d: int) {
    d > 0 && (s == [] || Stays(s[1..], open, close, Turn(s[0], open, close, d)))
  }

  /** Seen from inside a bracket, the text never closes it, and closes all it opens. */
  predicate Balanced(s: string, open: char, close: char) {
    Stays(s, open, close, 1) && Depth(s, open, close, 1) == 1
  }

  lemma {:induction false} DepthConcat(s: string, t: string, open: char, close: char, d: int)
    ensures Depth(s + t, open, close, d) == Depth(t, open, close, Depth(s, open, close, d))
    ensures Stays(s + t, open, close, d) <==> Stays(s, open, close, d) && Stays(t, open, close, Depth(s, open, close, d))
  {
    if s == [] {
      assert s + t == t;
    } else {
      assert (s + t)[1..] == s[1..] + t;
      DepthConcat(s[1..], t, open, close, Turn(s[0], open, close, d));
    }
  }

  /** Deeper down everything is the same. */
  lemma {:induction false} DepthLift(s: string, open: char, close: char, d: int, e: nat)
    ensures Depth(s, open, close, d + e) == Depth(s, open, close, d) + e
    ensures Stays(s, open, close, d) ==> Stays(s, open, close, d + e)
  {
    if s != [] {
      DepthLift(s[1..], open, close, Turn(s[0], open, close, d), e);
    }
  }

  lemma {:induction false} DepthPositive(s: string, open: char, close: char, d: int)
    requires Stays(s, open, close, d)
    ensures Depth(s, open, close, d) > 0
  {
    if s != [] {
      DepthPositive(s[1..], open, close, Turn(s[0], open, close, d));
    }
  }

  /** The matching bracket is not in a text in which the depth stays positive, ... */
  lemma {:induction false} CloseAfter(s: string, t: string, open: char, close: char, d: nat)
    requires Stays(s, open, close, d)
    ensures Depth(s, open, close, d) > 0
    ensures CloseOffset(s + t, open, close, d) == |s| + CloseOffset(t, open, close, Depth(s, open, close, d))
    decreases |s|
  {
    if s == [] {
      assert s + t == t;
    } else {
      assert (s + t)[1..] == s[1..] + t;
      var d' := Turn(s[0], open, close, d);
      assert Stays(s[1..], open, close, d');
      CloseAfter(s[1..], t, open, close, d');
    }
  }

  /** ... and otherwise it is where the depth first reaches zero. */
  lemma {:induction false} CloseInside(s: string, t: string, open: char, close: char, d: nat)
    requires d > 0 && !Stays(s, open, close, d)
    ensures var n := CloseOffset(s, open, close, d);
            CloseOffset(s + t, open, close, d) == n < |s| && s[n] == close && s[n] != open
    decreases |s|
  {
    if s != [] {
      assert (s + t)[1..] == s[1..] + t;
      var d' := Turn(s[0], open, close, d);
      if d' > 0 {
        CloseInside(s[1..], t, open, close, d');
      }
    }
  }

  /** Without a closing bracket that fits there is none to be found. */
  lemma CloseNowhere(s: string, open: char, close: char, d: nat)
    requires Stays(s, open, close, d)
    ensures CloseOffset(s, open, close, d) == |s|
  {
    CloseAfter(s, [], open, close, d);
    assert s + [] == s;
  }

  lemma BalancedConcat(s: string, t: string, open: char, close: char)
    requires Balanced(s, open, close) && Balanced(t, open, close)
    ensures Balanced(s + t, open, close)
  {
    DepthConcat(s, t, open, close, 1);
  }

  lemma BalancedEnclosed(s: string, open: char, close: char)
    requires Balanced(s, open, close) && open != close
    ensures Balanced([open] + s + [close], open, close)
  {
    DepthLift(s, open, close, 1, 1);
    DepthConcat([open] + s, [close], open, close, 1);
    assert ([open] + s)[1..] == s;
    assert [close][1..] == [];
  }

  lemma {:induction false} BalancedFree(s: string, open: char, close: char)
    requires forall i :: 0 <= i < |s| ==> s[i] != open && s[i] != close
    ensures Balanced(s, open, close)
  {
    if s != [] {
      BalancedFree(s[1..], open, close);
    }
  }

  // ------------------------------------------------------ reading a list

  predicate NoBrace(s: string) {
    forall i :: 0 <= i < |s| ==> s[i] != '{'
  }

  /** Text before the first object is passed over. */
  lemma ObjectsSkip(s: string, t: string)
    requires NoBrace(s)
    ensures Objects(s + t) == Objects(t)
  {
    hide ReadSpec, CloseOffset, Objects;
    var all := s + t;
    var open := Find(t, '{', 0);
    assert forall i :: 0 <= i < |t| ==> all[|s| + i] == t[i];
    if open == |t| {
      assert forall i :: 0 <= i < |all| ==> all[i] != '{';
      NoObject(all, 0, |all|);
      NoObject(t, 0, |t|);
      assert all[0..|all|] == all && t[0..|t|] == t;
    } else {
      FindAt(all, '{', 0, |s| + open);
      ObjectsOpen(all, |s| + open);
      ObjectsOpen(t, open);
      assert all[|s| + open + 1..] == t[open + 1..];
    }
  }

  /** An object whose braces are balanced is read as a whole. */
  lemma ObjectFirst(body: string, rest: string)
    requires Balanced(body, '{', '}')
    ensures Objects("{" + body + "}" + rest) == [ReadSpec("{" + body + "}")] + Objects(rest)
  {
    hide ReadSpec, CloseOffset, Objects, Find;
    var text := "{" + body + "}" + rest;
    var inside := body + ("}" + rest);
    FindAt(text, '{', 0, 0);
    ObjectsOpen(text, 0);
    assert text[1..] == inside;
    CloseAfter(body, "}" + rest, '{', '}', 1);
    CloseNow(rest);
    assert ['{'] + inside[..|body| + 1] == "{" + body + "}";
    assert inside[|body| + 1..] == rest;
  }

  lemma CloseNow(rest: string)
    ensures CloseOffset("}" + rest, '{', '}', 1) == 0 && CloseOffset("]" + rest, '[', ']', 1) == 0
  {
  }

  /** The items of an array are objects that describe the feeds. */
  predicate ListsFeeds(items: seq<Value>, fs: seq<FeedSpec>) {
    && |items| == |fs|
    && forall i :: 0 <= i < |items| ==>
         WellFormed(items[i]) && Core(items[i]).Object? && Describes(Core(items[i]).members, fs[i])
  }

  /** Braces are balanced inside each object, those in its strings included. */
  predicate BalancedItems(items: seq<Value>) {
    forall i :: 0 <= i < |items| && Core(items[i]).Object? ==> Balanced(RenderMembers(Core(items[i]).members), '{', '}')
  }

  lemma BlankNoBrace(s: string)
    requires Blank(s)
    ensures NoBrace(s)
  {
  }

  lemma ItemReads(item: Value, f: FeedSpec, sep: string, rest: string)
    requires WellFormed(item) && Core(item).Object? && Describes(Core(item).members, f) && NoBrace(sep)
    requires Balanced(RenderMembers(Core(item).members), '{', '}')
    ensures Objects(sep + Render(item) + rest) == [f] + Objects(rest)
  {
    hide Objects, ReadSpec, Describes, RenderMembers, Balanced, NoBrace, WellFormedMember;
    var before, after := CoreStands(item);
    var ms := Core(item).members;
    var body := RenderMembers(ms);
    BlankNoBrace(before);
    BlankNoBrace(after);
    var whole := "{" + body + "}";
    assert Core(item) == Object(ms) && Render(Core(item)) == whole;
    assert sep + Render(item) + rest == sep + (before + (whole + (after + rest)));
    ObjectsSkip(sep, before + (whole + (after + rest)));
    ObjectsSkip(before, whole + (after + rest));
    ObjectFirst(body, after + rest);
    ObjectsSkip(after, rest);
    SpecRoundTrip(ms, f, "");
    assert Render(Object(ms)) + "" == whole;
  }

  /** A rendered list is read item by item, whatever follows it. */
  lemma {:induction false} ListReads(items: seq<Value>, fs: seq<FeedSpec>, sep: string, rest: string)
    requires ListsFeeds(items, fs) && BalancedItems(items) && NoBrace(sep)
    ensures Objects(sep + RenderItems(items) + rest) == fs + Objects(rest)
    decreases |items|
  {
    hide Objects, Describes, RenderMembers, Balanced, Core, WellFormed, Render, NoBrace;
    if items == [] {
      assert sep + RenderItems(items) + rest == sep + rest;
      ObjectsSkip(sep, rest);
    } else if |items| == 1 {
      ItemReads(items[0], fs[0], sep, rest);
    } else {
      var more := RenderItems(items[1..]) + rest;
      assert sep + RenderItems(items) + rest == sep + Render(items[0]) + ("," + more);
      ItemReads(items[0], fs[0], sep, "," + more);
      CommaNoBrace();
      ListReads(items[1..], fs[1..], ",", rest);
      assert "," + RenderItems(items[1..]) + rest == "," + more;
    }
  }

  lemma CommaNoBrace()
    ensures NoBrace(",") && NoBrace("") && NoBrace("]")
  {
  }

  // --------------------------------------------------------- the document

  /** The text of a document behind its "feeds" array. */
  function Behind(members: seq<Member>): string
    requires MemberIndex(members, "feeds") < |members|
  {
    var k := MemberIndex(members, "feeds");
    Trailing(members[k].value) + (After(members, k) + "}")
  }

  /** What `parse_feeds` reads of a document whose first top-level "feeds" field is an array
      depends on the text after the opening bracket. */
  lemma FeedsText(members: seq<Member>, items: seq<Value>)
    requires WellFormed(Object(members)) && MemberIndex(members, "feeds") < |members|
    requires Core(members[MemberIndex(members, "feeds")].value) == Array(items)
    ensures FeedsOf(Render(Object(members))) == ListIn(RenderItems(items) + "]" + Behind(members))
    ensures Blank(Trailing(members[MemberIndex(members, "feeds")].value))
  {
    hide Outside, ListIn, FeedsOf, WellFormed, After, ValueOffset, Render, RenderItems, Core, Trailing, MemberIndex, Blank;
    var json := Render(Object(members));
    var k := MemberIndex(members, "feeds");
    var v := members[k].value;
    var pos, post := KeyStands(members, "feeds", "");
    assert json + "" == json;
    MemberOk(members, k);
    var before, after := CoreStands(v);
    assert After(members, k) + "}" + "" == After(members, k) + "}";
    var text := RenderItems(items);
    ArrayText(items);
    var inside := text + "]" + (after + post);
    assert before + ("[" + text + "]") + after + post == before + ("[" + inside);
    FeedsAt(json, pos, before, inside);
  }

  lemma ArrayText(items: seq<Value>)
    ensures Render(Array(items)) == "[" + RenderItems(items) + "]"
  {
  }

  lemma FeedsAt(json: string, pos: nat, before: string, inside: string)
    requires pos <= |json| && Outside(json, "feeds", 0) == Some(pos)
    requires json[pos..] == before + ("[" + inside) && Blank(before)
    ensures FeedsOf(json) == ListIn(inside)
  {
    hide Outside, ListIn, Find, Blank;
    BracketAt(json, pos, before, inside);
  }

  lemma BracketAt(json: string, pos: nat, before: string, inside: string)
    requires pos <= |json| && json[pos..] == before + ("[" + inside) && Blank(before)
    ensures var open := Find(json, '[', pos); open < |json| && json[open + 1..] == inside
  {
    hide Find;
    var tail := json[pos..];
    var open := pos + |before|;
    assert forall i :: 0 <= i < |tail| ==> json[pos + i] == tail[i];
    assert json[open] == tail[|before|] == '[';
    forall i | pos <= i < open ensures json[i] != '[' {
      assert json[i] == before[i - pos];
    }
    FindAt(json, '[', pos, open);
    assert json[open + 1..] == tail[|before| + 1..];
  }

  /** Without a top-level "feeds" field nothing is read. */
  lemma NoFeedsField(members: seq<Member>)
    requires WellFormed(Object(members)) && MemberIndex(members, "feeds") == |members|
    ensures FeedsOf(Render(Object(members))) == []
  {
    hide Outside, Render, ListIn, WellFormed, MemberIndex;
    FindKeyIsFirstField(members, "feeds");
  }

  /** The array ends at its own bracket if its brackets are balanced. */
  lemma ListWhole(items: string, rest: string)
    requires Balanced(items, '[', ']')
    ensures ListIn(items + "]" + rest) == Objects(items)
  {
    hide Objects, CloseOffset;
    CloseAfter(items, "]" + rest, '[', ']', 1);
    CloseNow(rest);
    assert items + "]" + rest == items + ("]" + rest);
    assert (items + ("]" + rest))[..|items|] == items;
  }

  lemma NothingAfter(text: string)
    ensures text + "" == text && Objects("") == []
  {
  }

  /** The feed plan round trip: from any document whose first top-level "feeds" field is an
      array of objects that describe feeds, with their members in any order, among others, and
      spaced out at will, that list of feeds is read back, provided that braces and brackets
      are balanced where the reader counts them. */
  lemma FeedsRoundTrip(members: seq<Member>, items: seq<Value>, fs: seq<FeedSpec>)
    requires WellFormed(Object(members)) && MemberIndex(members, "feeds") < |members|
    requires Core(members[MemberIndex(members, "feeds")].value) == Array(items)
    requires ListsFeeds(items, fs) && BalancedItems(items) && Balanced(RenderItems(items), '[', ']')
    ensures FeedsOf(Render(Object(members))) == fs
  {
    hide FeedsOf, ListIn, Objects, WellFormed, ListsFeeds, BalancedItems, Balanced, Core, Render, RenderItems, NoBrace;
    FeedsText(members, items);
    var text := RenderItems(items);
    ListWhole(text, Behind(members));
    CommaNoBrace();
    ListReads(items, fs, "", "");
    NothingAfter(text);
    assert "" + text + "" == text;
  }

  // ------------------------------------------------------ tidy documents

  /** No string of a value holds a brace or a bracket. */
  predicate Tidy(v: Value)
    decreases v, 1
  {
    match v
    case Text(raw) => Plain(raw)
    case Atom(_) => true
    case Array(items) => forall i :: 0 <= i < |items| ==> Tidy(items[i])
    case Object(members) => forall i :: 0 <= i < |members| ==> TidyMember(members[i])
    case Spaced(_, value, _) => Tidy(value)
  }

  predicate TidyMember(m: Member)
    decreases m, 0
  {
    Plain(m.key) && Tidy(m.value)
  }

  predicate Plain(s: string) {
    forall i :: 0 <= i < |s| ==> s[i] !in {'{', '}', '[', ']'}
  }

  predicate Brackets(open: char, close: char) {
    (open == '{' && close == '}') || (open == '[' && close == ']')
  }

  /** In a tidy value both kinds of brackets are balanced. */
  lemma {:induction false} TidyBalanced(v: Value, open: char, close: char)
    requires WellFormed(v) && Tidy(v) && Brackets(open, close)
    ensures Balanced(Render(v), open, close)
    decreases v, 1
  {
    hide Balanced;
    match v
    case Text(raw) => BalancedFree("\"" + raw + "\"", open, close);
    case Atom(text) => BalancedFree(text, open, close);
    case Array(items) =>
      TidyItems(items, open, close);
      Wrapped(RenderItems(items), '[', ']', open, close);
    case Object(members) =>
      TidyMembers(members, open, close);
      Wrapped(RenderMembers(members), '{', '}', open, close);
    case Spaced(before, value, after) =>
      TidyBalanced(value, open, close);
      BalancedFree(before, open, close);
      BalancedFree(after, open, close);
      BalancedConcat(before, Render(value), open, close);
      BalancedConcat(before + Render(value), after, open, close);
  }

  lemma Wrapped(s: string, l: char, r: char, open: char, close: char)
    requires Balanced(s, open, close) && Brackets(open, close) && Brackets(l, r)
    ensures Balanced([l] + s + [r], open, close)
  {
    hide Balanced;
    if l == open {
      BalancedEnclosed(s, open, close);
    } else {
      BalancedFree([l], open, close);
      BalancedFree([r], open, close);
      BalancedConcat([l], s, open, close);
      BalancedConcat([l] + s, [r], open, close);
    }
  }

  lemma {:induction false} TidyItems(items: seq<Value>, open: char, close: char)
    requires Brackets(open, close) && forall i :: 0 <= i < |items| ==> WellFormed(items[i]) && Tidy(items[i])
    ensures Balanced(RenderItems(items), open, close)
    decreases items, 0
  {
    hide Balanced, WellFormed, Tidy, Render;
    if items == [] {
      BalancedFree([], open, close);
    } else {
      TidyBalanced(items[0], open, close);
      if |items| > 1 {
        TidyItems(items[1..], open, close);
        Joined(Render(items[0]), RenderItems(items[1..]), open, close);
      }
    }
  }

  lemma Joined(s: string, t: string, open: char, close: char)
    requires Balanced(s, open, close) && Balanced(t, open, close) && Brackets(open, close)
    ensures Balanced(s + "," + t, open, close)
  {
    hide Balanced;
    BalancedFree(",", open, close);
    BalancedConcat(s, ",", open, close);
    BalancedConcat(s + ",", t, open, close);
  }

  lemma {:induction false} TidyMembers(members: seq<Member>, open: char, close: char)
    requires Brackets(open, close) && forall i :: 0 <= i < |members| ==> WellFormedMember(members[i]) && TidyMember(members[i])
    ensures Balanced(RenderMembers(members), open, close)
    decreases members, 0
  {
    hide Balanced, WellFormed, Tidy, Render;
    if members == [] {
      BalancedFree([], open, close);
    } else {
      var m := members[0];
      TidyBalanced(m.value, open, close);
      BalancedFree(RenderKey(m), open, close);
      BalancedConcat(RenderKey(m), Render(m.value), open, close);
      if |members| > 1 {
        TidyMembers(members[1..], open, close);
        Joined(RenderMember(m), RenderMembers(members[1..]), open, close);
      }
    }
  }

  /** Hence a list without braces and brackets in its strings is always read back. */
  lemma TidyFeedsRoundTrip(members: seq<Member>, items: seq<Value>, fs: seq<FeedSpec>)
    requires WellFormed(Object(members)) && MemberIndex(members, "feeds") < |members|
    requires Core(members[MemberIndex(members, "feeds")].value) == Array(items)
    requires ListsFeeds(items, fs) && forall i :: 0 <= i < |items| ==> Tidy(items[i])
    ensures FeedsOf(Render(Object(members))) == fs
  {
    hide FeedsOf, Describes, Balanced;
    forall i | 0 <= i < |items| && Core(items[i]).Object?
      ensures Balanced(RenderMembers(Core(items[i]).members), '{', '}')
    {
      var before, after := CoreStands(items[i]);
      CoreTidy(items[i]);
      TidyMembers(Core(items[i]).members, '{', '}');
    }
    TidyItems(items, '[', ']');
    FeedsRoundTrip(members, items, fs);
  }

  lemma {:induction false} CoreTidy(v: Value)
    requires Tidy(v)
    ensures Tidy(Core(v))
    decreases v
  {
    if v.Spaced? {
      CoreTidy(v.value);
    }
  }
}
