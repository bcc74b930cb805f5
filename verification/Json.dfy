/** JSON documents as trees and as text (RFC 8259), with the white space and the escapes
    that a scanner has to cope with. */
module Json {

  /** A string value keeps its contents as written, escapes included (section 7). */
  datatype Value =
    | Text(raw: string)
    | Atom(text: string) // a number, true, false or null
    | Array(items: seq<Value>)
    | Object(members: seq<Member>)
    | Spaced(before: string, value: Value, after: string)

  /** A member of an object; `gap` is the white space before the colon. */
  datatype Member = Member(key: string, gap: string, value: Value)

  predicate IsBlank(c: char) {
    c in {' ', '\t', '\r', '\n'}
  }

  /** White space is the tab, the line feed, the carriage return and the space (section 2). */
  lemma BlankCodes(c: char)
    ensures IsBlank(c) <==> c as int in {0x09, 0x0A, 0x0D, 0x20}
  {
  }

  predicate Blank(s: string) {
    forall i :: 0 <= i < |s| ==> IsBlank(s[i])
  }

  /** Every quote is escaped, and the last backslash is not left alone. */
  predicate WellEscaped(raw: string) {
    raw == [] ||
    (if raw[0] == '\\' then |raw| >= 2 && WellEscaped(raw[2..])
     else raw[0] != '"' && WellEscaped(raw[1..]))
  }

  predicate Structural(c: char) {
    c in {'"', '{', '}', '[', ']'}
  }

  /** Documents of the grammar, as far as the scanner can tell. */
  predicate WellFormed(v: Value)
    decreases v, 1
  {
    match v
    case Text(raw) => WellEscaped(raw)
    case Atom(text) => forall i :: 0 <= i < |text| ==> !Structural(text[i])
    case Array(items) => forall i :: 0 <= i < |items| ==> WellFormed(items[i])
    case Object(members) => forall i :: 0 <= i < |members| ==> WellFormedMember(members[i])
    case Spaced(before, value, after) => Blank(before) && WellFormed(value) && Blank(after)
  }

  predicate WellFormedMember(m: Member)
    decreases m, 0
  {
    WellEscaped(m.key) && Blank(m.gap) && WellFormed(m.value)
  }

  function Render(v: Value): string
    decreases v, 1
  {
    match v
    case Text(raw) => "\"" + raw + "\""
    case Atom(text) => text
    case Array(items) => "[" + RenderItems(items) + "]"
    case Object(members) => "{" + RenderMembers(members) + "}"
    case Spaced(before, value, after) => before + Render(value) + after
  }

  function RenderItems(items: seq<Value>): string
    decreases items, 0
  {
    if items == [] then ""
    else if |items| == 1 then Render(items[0])
    else Render(items[0]) + "," + RenderItems(items[1..])
  }

  /** The quoted key, the gap and the colon. */
  function RenderKey(m: Member): string {
    "\"" + m.key + "\"" + m.gap + ":"
  }

  function RenderMember(m: Member): string
    decreases m, 0
  {
    RenderKey(m) + Render(m.value)
  }

  function RenderMembers(members: seq<Member>): string
    decreases members, 0
  {
    if members == [] then ""
    else if |members| == 1 then RenderMember(members[0])
    else RenderMember(members[0]) + "," + RenderMembers(members[1..])
  }
}
