/** Which feed plans survive `parse_feeds`: brackets are matched without regard to quotes, so
    the strings of the feeds matter.  The exact condition for compact lists. */
module FeedCuts {
  import opened Numbers
  import opened Json
  import opened Scanner
  import opened FeedPlans
  import opened FeedLists
  import opened Quotes

  // ------------------------------------------------- the text of a plan

  /** The strings have neither quote nor backslash; braces and brackets are allowed. */
  predicate QuotelessSpec(f: FeedSpec) {
    Bare(f.interval) && Bare(f.role) && Bare(f.source) && Bare(f.dataPath) && Bare(f.base)
  }

  predicate QuotelessSpecs(fs: seq<FeedSpec>) {
    forall i :: 0 <= i < |fs| ==> QuotelessSpec(fs[i])
  }

  function SpecMembers(f: FeedSpec): seq<Member> {
    [Member("index", "", Atom(Decimal(f.index))),
     Member("interval", "", Text(f.interval)),
     Member("role", "", Text(f.role)),
     Member("source", "", Text(f.source)),
     Member("dataPath", "", Text(f.dataPath)),
     Member("base", "", Text(f.base))]
  }

  function SpecObject(f: FeedSpec): Value {
    Object(SpecMembers(f))
  }

  function SpecObjects(fs: seq<FeedSpec>): seq<Value> {
    seq(|fs|, i requires 0 <= i < |fs| => SpecObject(fs[i]))
  }

  /** What stands between the braces of a rendered spec. */
  function SpecBody(f: FeedSpec): string {
    RenderMembers(SpecMembers(f))
  }

  /** What stands between the brackets of a rendered list. */
  function ListText(fs: seq<FeedSpec>): string {
    RenderItems(SpecObjects(fs))
  }

  function Rest(fs: seq<FeedSpec>): string
    requires fs != []
  {
    if |fs| == 1 then "" else "," + ListText(fs[1..])
  }

  /** The text of a list, taken apart at its first object. */
  lemma ListSplits(fs: seq<FeedSpec>)
    requires fs != []
    ensures ListText(fs) == "{" + SpecBody(fs[0]) + "}" + Rest(fs)
  {
    hide RenderMembers;
    assert SpecObjects(fs)[1..] == SpecObjects(fs[1..]);
    assert Render(SpecObject(fs[0])) == "{" + SpecBody(fs[0]) + "}";
  }

  lemma {:induction false} QuotelessEscaped(s: string)
    requires Bare(s)
    ensures WellEscaped(s)
  {
    if s != [] {
      QuotelessEscaped(s[1..]);
    }
  }

  lemma KeysQuoteless()
    ensures Bare("index") && Bare("interval") && Bare("role") && Bare("source") && Bare("dataPath")
    ensures Bare("base")
  {
  }

  lemma TextMember(key: string, raw: string)
    requires Bare(key) && Bare(raw)
    ensures WellFormedMember(Member(key, "", Text(raw)))
  {
    QuotelessEscaped(key);
    QuotelessEscaped(raw);
  }

  lemma NumberMember(key: string, n: int)
    requires Bare(key)
    ensures WellFormedMember(Member(key, "", Atom(Decimal(n))))
  {
    QuotelessEscaped(key);
    DecimalPlain(n);
  }

  lemma DecimalPlain(n: int)
    ensures forall i :: 0 <= i < |Decimal(n)| ==> !Structural(Decimal(n)[i]) && Decimal(n)[i] != '\\'
  {
    DecimalRead(n);
    assert forall c: char :: InNumber(c) ==> !Structural(c) && c != '\\';
  }

  lemma SpecWellFormed(f: FeedSpec)
    requires QuotelessSpec(f)
    ensures WellFormed(SpecObject(f))
  {
    hide WellFormedMember, Decimal, Structural, Bare;
    KeysQuoteless();
    NumberMember("index", f.index);
    TextMember("interval", f.interval);
    TextMember("role", f.role);
    TextMember("source", f.source);
    TextMember("dataPath", f.dataPath);
    TextMember("base", f.base);
    var ms := SpecMembers(f);
    assert forall i :: 0 <= i < |ms| ==> WellFormedMember(ms[i]);
  }

  lemma SpecKeys(f: FeedSpec)
    ensures var ms := SpecMembers(f);
            && MemberIndex(ms, "index") == 0 && MemberIndex(ms, "interval") == 1 && MemberIndex(ms, "role") == 2
            && MemberIndex(ms, "source") == 3 && MemberIndex(ms, "dataPath") == 4 && MemberIndex(ms, "base") == 5
  {
    var ms := SpecMembers(f);
    assert |"index"| == 5 && |"interval"| == 8 && |"role"| == 4 && |"source"| == 6 && |"dataPath"| == 8 && |"base"| == 4;
    assert "interval"[0] == 'i' && "dataPath"[0] == 'd' && "role"[0] == 'r' && "base"[0] == 'b';
    KeyAt(ms, "index", 0);
    KeyAt(ms, "interval", 1);
    KeyAt(ms, "role", 2);
    KeyAt(ms, "source", 3);
    KeyAt(ms, "dataPath", 4);
    KeyAt(ms, "base", 5);
  }

  lemma KeyAt(ms: seq<Member>, key: string, k: nat)
    requires k < |ms| && ms[k].key == key && forall j :: 0 <= j < k ==> ms[j].key != key
    ensures MemberIndex(ms, key) == k
  {
  }

  lemma SpecDescribed(f: FeedSpec)
    requires QuotelessSpec(f)
    ensures WellFormed(SpecObject(f)) && Describes(SpecMembers(f), f) && Complete(SpecMembers(f))
  {
    hide MemberIndex, Decimal, WellFormed;
    SpecWellFormed(f);
    SpecKeys(f);
  }

  lemma SpecReads(f: FeedSpec, more: string)
    requires QuotelessSpec(f)
    ensures ReadSpec("{" + SpecBody(f) + "}" + more) == f
  {
    hide ReadSpec, Describes, Complete, RenderMembers, WellFormed;
    SpecDescribed(f);
    SpecRoundTrip(SpecMembers(f), f, more);
    assert Render(SpecObject(f)) == "{" + SpecBody(f) + "}";
  }

  // ---------------------------------------- lists that no string cuts short

  /** Seen from inside the object, the braces in its strings close it. */
  predicate Cut(f: FeedSpec) {
    !Stays(SpecBody(f), '{', '}', 1)
  }

  predicate AllBalanced(fs: seq<FeedSpec>) {
    forall i :: 0 <= i < |fs| ==> Balanced(SpecBody(fs[i]), '{', '}')
  }

  lemma StaysPrefix(s: string, k: nat, open: char, close: char, d: int)
    requires k <= |s| && Stays(s, open, close, d)
    ensures Stays(s[..k], open, close, d)
  {
    DepthConcat(s[..k], s[k..], open, close, d);
    assert s[..k] + s[k..] == s;
  }

  /** A list in which no object is cut only adds to the depth. */
  lemma {:induction false} ListStays(fs: seq<FeedSpec>, d: int)
    requires d > 0 && forall i :: 0 <= i < |fs| ==> !Cut(fs[i])
    ensures Stays(ListText(fs), '{', '}', d) && Depth(ListText(fs), '{', '}', d) >= d
  {
    hide SpecBody, ListText;
    if fs == [] {
      EmptyList(fs);
    } else {
      ListSplits(fs);
      BodyStays(SpecBody(fs[0]), Rest(fs), d);
      var e := Depth("{" + SpecBody(fs[0]) + "}", '{', '}', d);
      if |fs| > 1 {
        ListStays(fs[1..], e);
        CommaStays(ListText(fs[1..]), e);
      }
      DepthConcat("{" + SpecBody(fs[0]) + "}", Rest(fs), '{', '}', d);
    }
  }

  lemma EmptyList(fs: seq<FeedSpec>)
    requires fs == []
    ensures ListText(fs) == ""
  {
  }

  lemma CommaStays(s: string, d: int)
    requires Stays(s, '{', '}', d)
    ensures Stays("," + s, '{', '}', d) && Depth("," + s, '{', '}', d) == Depth(s, '{', '}', d)
  {
    assert ("," + s)[1..] == s;
  }

  lemma BodyStays(body: string, rest: string, d: int)
    requires d > 0 && Stays(body, '{', '}', 1)
    ensures var s := "{" + body + "}";
            Stays(s, '{', '}', d) && Depth(s, '{', '}', d) == d + Depth(body, '{', '}', 1) - 1 >= d
  {
    DepthPositive(body, '{', '}', 1);
    DepthLift(body, '{', '}', 1, d);
    DepthConcat("{" + body, "}", '{', '}', d);
    assert ("{" + body)[1..] == body && "}"[1..] == [];
  }

  /** Objects that are not cut, up to any point of the text: the list is read back exactly
      if the text is whole and every object is balanced; otherwise fewer are read. */
  lemma {:induction false} UncutReads(fs: seq<FeedSpec>, x: nat)
    requires QuotelessSpecs(fs) && x <= |ListText(fs)| && forall i :: 0 <= i < |fs| ==> !Cut(fs[i])
    ensures if x == |ListText(fs)| && AllBalanced(fs) then Objects(ListText(fs)[..x]) == fs
            else |Objects(ListText(fs)[..x])| < |fs|
    decreases |fs|
  {
    hide SpecBody, ListText, Objects, QuotelessSpec, Balanced, Cut;
    if fs == [] {
      EmptyList(fs);
      NothingLeft(ListText(fs)[..x]);
    } else {
      ListSplits(fs);
      var f := fs[0];
      var whole := |SpecBody(f)| + 2;
      if x < whole {
        ShortObject(f, ListText(fs), x);
      } else if !Balanced(SpecBody(f), '{', '}') {
        OpenObject(fs, x);
      } else {
        var rest := Rest(fs)[..x - whole];
        assert ListText(fs)[..x] == "{" + SpecBody(f) + "}" + rest;
        ObjectFirst(SpecBody(f), rest);
        SpecReads(f, "");
        assert "{" + SpecBody(f) + "}" + "" == "{" + SpecBody(f) + "}";
        RestReads(fs, x - whole);
      }
    }
  }

  lemma {:induction false} RestReads(fs: seq<FeedSpec>, y: nat)
    requires fs != [] && QuotelessSpecs(fs) && y <= |Rest(fs)| && forall i :: 0 <= i < |fs| ==> !Cut(fs[i])
    ensures if y == |Rest(fs)| && AllBalanced(fs[1..]) then Objects(Rest(fs)[..y]) == fs[1..]
            else |Objects(Rest(fs)[..y])| < |fs| - 1
    decreases |fs|, 0
  {
    hide SpecBody, ListText, Objects, QuotelessSpec, Balanced, Cut;
    if |fs| == 1 {
      NothingLeft(Rest(fs)[..y]);
    } else if y == 0 {
      NothingLeft(Rest(fs)[..y]);
    } else {
      UncutReads(fs[1..], y - 1);
      CommaNoBrace();
      assert Rest(fs)[..y] == "," + ListText(fs[1..])[..y - 1];
      ObjectsSkip(",", ListText(fs[1..])[..y - 1]);
    }
  }

  /** An object without its end. */
  lemma ShortObject(f: FeedSpec, text: string, x: nat)
    requires !Cut(f) && x < |SpecBody(f)| + 2 && x <= |text| && "{" + SpecBody(f) + "}" <= text
    ensures Objects(text[..x]) == []
  {
    hide SpecBody, Objects, CloseOffset, ReadSpec;
    if x == 0 {
      NothingLeft(text[..x]);
    } else {
      var t := text[..x];
      var inside := t[1..];
      assert inside == SpecBody(f)[..x - 1];
      FindAt(t, '{', 0, 0);
      ObjectsOpen(t, 0);
      StaysPrefix(SpecBody(f), x - 1, '{', '}', 1);
      CloseNowhere(inside, '{', '}', 1);
    }
  }

  /** An object with more opening braces than closing ones swallows all that follows. */
  lemma OpenObject(fs: seq<FeedSpec>, x: nat)
    requires fs != [] && |SpecBody(fs[0])| + 2 <= x <= |ListText(fs)| && forall i :: 0 <= i < |fs| ==> !Cut(fs[i])
    requires !Balanced(SpecBody(fs[0]), '{', '}')
    ensures Objects(ListText(fs)[..x]) == []
  {
    hide SpecBody, ListText, Objects, CloseOffset, ReadSpec;
    ListSplits(fs);
    var body := SpecBody(fs[0]);
    var t := ListText(fs)[..x];
    FindAt(t, '{', 0, 0);
    ObjectsOpen(t, 0);
    DepthPositive(body, '{', '}', 1);
    RestStays(fs, Depth(body, '{', '}', 1) - 1);
    var inside := body + "}" + Rest(fs);
    CloserStays(body, Rest(fs));
    assert t[1..] == inside[..x - 1];
    StaysPrefix(inside, x - 1, '{', '}', 1);
    CloseNowhere(t[1..], '{', '}', 1);
  }

  lemma RestStays(fs: seq<FeedSpec>, d: int)
    requires fs != [] && d > 0 && forall i :: 0 <= i < |fs| ==> !Cut(fs[i])
    ensures Stays(Rest(fs), '{', '}', d)
  {
    hide SpecBody, ListText;
    if |fs| > 1 {
      ListStays(fs[1..], d);
      CommaStays(ListText(fs[1..]), d);
    }
  }

  lemma CloserStays(body: string, rest: string)
    requires Stays(body, '{', '}', 1) && Depth(body, '{', '}', 1) > 1
    requires Stays(rest, '{', '}', Depth(body, '{', '}', 1) - 1)
    ensures Stays(body + "}" + rest, '{', '}', 1)
  {
    DepthConcat(body, "}" + rest, '{', '}', 1);
    assert body + "}" + rest == body + ("}" + rest);
    assert ("}" + rest)[1..] == rest;
  }
}
