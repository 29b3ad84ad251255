/**
  Reading one field out of a document with a regular expression (packages/aes67-core/NetworkEngine/JsonFields.cpp),
  and why that finds the right one in documents the writers here make: no part of a string value can be
  taken for a key.
 */
module JsonFields {
  import opened StreamTypes
  import opened Decimal
  import opened Text
  import opened JsonEscape

  // ---- the search ------------------------------------------------------------------------------

  predicate IsWordChar(c: char) {
    'a' <= c <= 'z' || 'A' <= c <= 'Z' || '0' <= c <= '9' || c == '_' || c == '-'
  }

  /** A key that means itself inside a pattern. */
  predicate IsWord(s: string) { forall i :: 0 <= i < |s| ==> IsWordChar(s[i]) }

  /** The value patterns the readers use. */
  datatype Pattern = QuotedText | Digits | SignedDigits | Boolean | UpToBrace | UpToBracket

  /** The inside of a JSON string, up to the quote that closes it. */
  function ReadQuoted(s: string): Option<string> {
    if s == "" then None
    else if s[0] == '"' then Some("")
    else if s[0] != '\\' then
      match ReadQuoted(s[1..])
      case None => None
      case Some(t) => Some([s[0]] + t)
    else if |s| < 2 || s[1] == '\n' || s[1] == '\r' then None
    else
      match ReadQuoted(s[2..])
      case None => None
      case Some(t) => Some(s[..2] + t)
  }

  /** The longest match first, and a value of at least one character where the pattern asks for one. */
  function Capture(pattern: Pattern, s: string): Option<string> {
    match pattern
    case QuotedText => if s != "" && s[0] == '"' then ReadQuoted(s[1..]) else None
    case Digits => if LeadingDigits(s) != "" then Some(LeadingDigits(s)) else None
    case SignedDigits =>
      if s != "" && s[0] == '-' then (if LeadingDigits(s[1..]) != "" then Some(['-'] + LeadingDigits(s[1..])) else None)
      else if LeadingDigits(s) != "" then Some(LeadingDigits(s)) else None
    case Boolean => if "true" <= s then Some("true") else if "false" <= s then Some("false") else None
    case UpToBrace =>
      if s != "" && s[0] == '{' then
        (match Find(s, '}') case None => None case Some(i) => if i >= 2 then Some(s[1..i]) else None)
      else None
    case UpToBracket =>
      if s != "" && s[0] == '[' then (match Find(s, ']') case None => None case Some(i) => Some(s[1..i])) else None
  }

  /** The key, its closing quote, and a colon with nothing but spaces before it. */
  predicate StartsKey(s: string, key: string) {
    && key <= s && |key| < |s| && s[|key|] == '"'
    && DropSpaces(s[|key| + 1..]) != "" && DropSpaces(s[|key| + 1..])[0] == ':'
  }

  /** What stands where the key's value begins. */
  function ValueOf(s: string, key: string): string
    requires StartsKey(s, key)
  {
    DropSpaces(DropSpaces(s[|key| + 1..])[1..])
  }

  /** The leftmost place where the quoted key, the colon and a value of the pattern all match. */
  function Search(s: string, key: string, pattern: Pattern): Option<string> {
    if s == "" then None
    else if s[0] == '"' && StartsKey(s[1..], key) && Capture(pattern, ValueOf(s[1..], key)).Some?
    then Capture(pattern, ValueOf(s[1..], key))
    else Search(s[1..], key, pattern)
  }

  function MatchField(s: string, key: string, pattern: Pattern): Option<string> {
    if IsWord(key) then Search(s, key, pattern) else None
  }

  // ---- the readers -----------------------------------------------------------------------------

  function ExtractString(s: string, key: string): Option<string> {
    match MatchField(s, key, QuotedText)
    case None => None
    case Some(text) => Some(Unescape(text))
  }

  function ExtractUInt64(s: string, key: string): Option<U64> {
    match MatchField(s, key, Digits)
    case None => None
    case Some(text) => Stoull(text)
  }

  /** A number that does not fit is no number, rather than itself reduced. */
  function Narrow(value: Option<U64>, max: nat): Option<nat> {
    if value.Some? && value.value <= max then value else None
  }

  function ExtractInt(s: string, key: string): Option<I32> {
    match MatchField(s, key, SignedDigits)
    case None => None
    case Some(text) => Stoi(text)
  }

  function ExtractBool(s: string, key: string): Option<bool> {
    match MatchField(s, key, Boolean)
    case None => None
    case Some(text) => Some(text == "true")
  }

  // ---- what the writers make -------------------------------------------------------------------

  /** A JSON value as the writers lay it out: an object's members each on a line of their own. */
  datatype Value = Text(raw: string) | Bare(text: string) | Object(members: seq<Member>, indent: nat)
  datatype Member = Member(key: string, value: Value)

  function Spaces(n: nat): (r: string)
    ensures forall i :: 0 <= i < |r| ==> r[i] == ' '
  {
    if n == 0 then "" else [' '] + Spaces(n - 1)
  }

  function Quoted(raw: string): string { ['"'] + Escape(raw) + ['"'] }

  function Render(v: Value): string
    decreases v, 0
  {
    match v
    case Text(raw) => Quoted(raw)
    case Bare(text) => text
    case Object(members, indent) =>
      "{\n" + Spaces(indent + 2) + RenderMembers(members, indent) + ("\n" + Spaces(indent) + "}")
  }

  function RenderMember(m: Member): string
    decreases m, 1
  {
    ['"'] + m.key + ['"'] + (": " + Render(m.value))
  }

  function RenderMembers(members: seq<Member>, indent: nat): string
    decreases members, 2
  {
    if members == [] then ""
    else RenderMember(members[0]) + RenderTail(members, indent)
  }

  function RenderTail(members: seq<Member>, indent: nat): string
    requires members != []
    decreases members, 1
  {
    if |members| == 1 then "" else ",\n" + Spaces(indent + 2) + RenderMembers(members[1..], indent)
  }
}
