/** Scanning a text from inside one of its strings: inside and outside are exchanged, and the
    scanner finds none of the keys. */
module Quotes {
  import opened Numbers
  import opened Scanner

  /** Whether one is outside the strings after a text; every quote counts. */
  function Flip(s: string, out: bool): bool {
    if s == [] then out else Flip(s[1..], if s[0] == '"' then !out else out)
  }

  /** What may follow a string. */
  predicate Follows(s: string) {
    s == [] || s[0] in {':', ',', '}'}
  }

  /** There are no escapes, and a closing quote is followed by punctuation. */
  predicate Apart(s: string, out: bool) {
    s == [] ||
    (s[0] != '\\' && (s[0] == '"' && !out ==> Follows(s[1..])) && Apart(s[1..], if s[0] == '"' then !out else out))
  }

  /** Braces occur inside strings only. */
  predicate BracesQuoted(s: string, out: bool) {
    s == [] || ((out ==> s[0] !in {'{', '}'}) && BracesQuoted(s[1..], if s[0] == '"' then !out else out))
  }

  lemma {:induction false} FlipConcat(s: string, t: string, out: bool)
    ensures Flip(s + t, out) == Flip(t, Flip(s, out))
  {
    if s == [] {
      assert s + t == t;
    } else {
      assert (s + t)[1..] == s[1..] + t;
      FlipConcat(s[1..], t, if s[0] == '"' then !out else out);
    }
  }

  lemma {:induction false} ApartParts(s: string, t: string, out: bool)
    requires Apart(s + t, out)
    ensures Apart(s, out) && Apart(t, Flip(s, out))
  {
    if s == [] {
      assert s + t == t;
    } else {
      assert (s + t)[1..] == s[1..] + t;
      ApartParts(s[1..], t, if s[0] == '"' then !out else out);
    }
  }

  lemma {:induction false} BraceIsQuoted(s: string, k: nat, out: bool)
    requires k < |s| && BracesQuoted(s, out) && s[k] in {'{', '}'}
    ensures !Flip(s[..k], out)
  {
    if k > 0 {
      BraceIsQuoted(s[1..], k - 1, if s[0] == '"' then !out else out);
      assert s[..k][1..] == s[1..][..k - 1];
    }
  }

  // -------------------------------------------------- composing texts

  predicate Bare(s: string) {
    forall i :: 0 <= i < |s| ==> s[i] != '"' && s[i] != '\\'
  }

  lemma {:induction false} BareThen(s: string, t: string, out: bool)
    requires Bare(s)
    ensures Flip(s + t, out) == Flip(t, out)
    ensures Apart(t, out) ==> Apart(s + t, out)
    ensures BracesQuoted(t, out) && (!out || forall i :: 0 <= i < |s| ==> s[i] !in {'{', '}'}) ==> BracesQuoted(s + t, out)
  {
    if s == [] {
      assert s + t == t;
    } else {
      assert (s + t)[1..] == s[1..] + t;
      BareThen(s[1..], t, out);
    }
  }

  lemma QuoteThen(t: string, out: bool)
    ensures Flip("\"" + t, out) == Flip(t, !out)
    ensures Apart(t, !out) && (!out ==> Follows(t)) ==> Apart("\"" + t, out)
    ensures BracesQuoted(t, !out) ==> BracesQuoted("\"" + t, out)
  {
    assert ("\"" + t)[1..] == t;
  }

  /** A string, and what comes after it. */
  lemma StringThen(raw: string, t: string)
    requires Bare(raw)
    ensures var s := "\"" + raw + "\"" + t;
            && Flip(s, true) == Flip(t, true)
            && (Apart(t, true) && Follows(t) ==> Apart(s, true))
            && (BracesQuoted(t, true) ==> BracesQuoted(s, true))
  {
    hide Flip, Apart, BracesQuoted, Follows;
    QuoteThen(t, false);
    BareThen(raw, "\"" + t, false);
    QuoteThen(raw + ("\"" + t), true);
    assert "\"" + raw + "\"" + t == "\"" + (raw + ("\"" + t));
  }

  // ------------------------------------------------------- finding no key

  /** Seen from inside a string, the strings are the separators: no key is found. */
  lemma {:induction false} NoKeyOutside(s: string, key: string, depth: int)
    requires Apart(s, false) && key != [] && key[0] !in {':', ',', '}'}
    ensures Outside(s, key, depth) == None
    decreases |s|
  {
    hide ColonNext;
    if s != [] {
      if s[0] == '"' {
        NoKeyInside(s[1..], key, depth, []);
      } else {
        NoKeyOutside(s[1..], key, if s[0] in {'{', '['} then depth + 1 else if s[0] in {'}', ']'} then depth - 1 else depth);
      }
    }
  }

  lemma {:induction false} NoKeyInside(s: string, key: string, depth: int, token: string)
    requires Apart(s, true) && key != [] && key[0] !in {':', ',', '}'}
    requires if token == [] then Follows(s) else token[0] in {':', ',', '}'}
    ensures Inside(s, key, depth, token, false) == None
    decreases |s|
  {
    hide ColonNext;
    if s != [] {
      if s[0] == '"' {
        assert token != key;
        NoKeyOutside(s[1..], key, depth);
      } else {
        NoKeyInside(s[1..], key, depth, token + [s[0]]);
      }
    }
  }
}
