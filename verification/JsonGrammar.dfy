/** The grammar of sections 2 to 7 of RFC 8259 with integers as the only numbers: syntax trees that
    keep the white space, their text, and the document each one denotes. Raw control characters and
    leading zeros, which the grammar forbids and the parser reads, are admitted. */
module JsonGrammar {
  import opened JsonValue

  /** A character of a string, or a maximal run of adjacent code-unit escapes. */
  datatype Char = Raw(c: char) | Escaped(letter: char) | Run(units: seq<string>)

  datatype Syntax =
    | NullLit
    | TrueLit
    | FalseLit
    | Number(negative: bool, digits: string)
    | Text(chars: seq<Char>)
    | Array(pad: string, elements: seq<Element>)
    | Object(pad: string, members: seq<Member>)

  datatype Element = Element(before: string, value: Syntax, after: string)

  datatype Member =
    Member(before: string, key: seq<Char>, beforeColon: string, afterColon: string, value: Syntax, after: string)

  // ---------------------------------------------------------------- well-formedness

  predicate IsSpace(c: char) {
    c == ' ' || c == '\t' || c == '\n' || c == '\r'
  }

  predicate AllSpace(s: string) {
    forall i | 0 <= i < |s| :: IsSpace(s[i])
  }

  /** The two-character escapes of section 7. */
  const ESCAPES: map<char, char> := map[
    '\"' := '\"', '\\' := '\\', '/' := '/', 'b' := '\U{0008}',
    'f' := '\U{000C}', 'n' := '\n', 'r' := '\r', 't' := '\t'
  ]

  const HEX_LOWER := "0123456789abcdef"
  const HEX_UPPER := "0123456789ABCDEF"

  ghost predicate IsHexDigit(c: char, v: int) {
    0 <= v < 16 && (c == HEX_LOWER[v] || c == HEX_UPPER[v])
  }

  predicate IsHex(c: char) {
    '0' <= c <= '9' || 'a' <= c <= 'f' || 'A' <= c <= 'F'
  }

  predicate AllHex(hex: string) {
    forall i | 0 <= i < |hex| :: IsHex(hex[i])
  }

  predicate UnitsWellFormed(us: seq<string>) {
    us != [] ==> |us[0]| == 4 && AllHex(us[0]) && UnitsWellFormed(us[1..])
  }

  predicate CharWellFormed(c: Char) {
    match c
    case Raw(r) => r != '\"' && r != '\\'
    case Escaped(letter) => letter in ESCAPES
    case Run(units) => units != [] && UnitsWellFormed(units)
  }

  predicate CharsWellFormed(cs: seq<Char>) {
    cs != [] ==>
      && CharWellFormed(cs[0])
      && (|cs| > 1 ==> !(cs[0].Run? && cs[1].Run?))
      && CharsWellFormed(cs[1..])
  }

  predicate AllDigits(ds: string) {
    forall i | 0 <= i < |ds| :: '0' <= ds[i] <= '9'
  }

  predicate WellFormed(s: Syntax) {
    match s
    case Number(neg, ds) => ds != [] && AllDigits(ds) && IsInt32(Signed(neg, ds))
    case Text(cs) => CharsWellFormed(cs)
    case Array(pad, es) => AllSpace(pad) && ElementsWellFormed(es)
    case Object(pad, ms) => AllSpace(pad) && MembersWellFormed(ms)
    case _ => true
  }

  predicate ElementsWellFormed(es: seq<Element>) {
    es != [] ==>
      && AllSpace(es[0].before) && WellFormed(es[0].value) && AllSpace(es[0].after)
      && ElementsWellFormed(es[1..])
  }

  predicate MembersWellFormed(ms: seq<Member>) {
    ms != [] ==>
      && AllSpace(ms[0].before) && CharsWellFormed(ms[0].key) && AllSpace(ms[0].beforeColon)
      && AllSpace(ms[0].afterColon) && WellFormed(ms[0].value) && AllSpace(ms[0].after)
      && MembersWellFormed(ms[1..])
  }

  // ---------------------------------------------------------------- text

  function RenderUnits(us: seq<string>): string {
    if us == [] then "" else "\\u" + us[0] + RenderUnits(us[1..])
  }

  function RenderChar(c: Char): string {
    match c
    case Raw(r) => [r]
    case Escaped(letter) => ['\\', letter]
    case Run(units) => RenderUnits(units)
  }

  function RenderChars(cs: seq<Char>): string {
    if cs == [] then "" else RenderChar(cs[0]) + RenderChars(cs[1..])
  }

  function Quoted(cs: seq<Char>): string {
    "\"" + (RenderChars(cs) + "\"")
  }

  function Render(s: Syntax): string {
    match s
    case NullLit => "null"
    case TrueLit => "true"
    case FalseLit => "false"
    case Number(neg, ds) => (if neg then "-" else "") + ds
    case Text(cs) => Quoted(cs)
    case Array(pad, es) => "[" + (if es == [] then pad else RenderElements(es)) + "]"
    case Object(pad, ms) => "{" + (if ms == [] then pad else RenderMembers(ms)) + "}"
  }

  function RenderElement(e: Element): string {
    e.before + Render(e.value) + e.after
  }

  function RenderElements(es: seq<Element>): string {
    if es == [] then "" else RenderElement(es[0]) + RenderMoreElements(es[1..])
  }

  function RenderMoreElements(es: seq<Element>): string {
    if es == [] then "" else "," + RenderElement(es[0]) + RenderMoreElements(es[1..])
  }

  function RenderKey(m: Member): string {
    m.before + Quoted(m.key) + (m.beforeColon + ":" + m.afterColon)
  }

  function RenderMember(m: Member): string {
    RenderKey(m) + Render(m.value) + m.after
  }

  function RenderMembers(ms: seq<Member>): string {
    if ms == [] then "" else RenderMember(ms[0]) + RenderMoreMembers(ms[1..])
  }

  function RenderMoreMembers(ms: seq<Member>): string {
    if ms == [] then "" else "," + RenderMember(ms[0]) + RenderMoreMembers(ms[1..])
  }

  // ---------------------------------------------------------------- meaning

  function Decimal(ds: string): nat
    requires AllDigits(ds)
  {
    if ds == [] then 0
    else 10 * Decimal(ds[..|ds| - 1]) + (ds[|ds| - 1] as int - '0' as int)
  }

  function Signed(negative: bool, ds: string): int
    requires AllDigits(ds)
  {
    if negative then 0 - Decimal(ds) else Decimal(ds)
  }

  /** The value of a hexadecimal digit of either case. */
  function HexDigit(c: char): (v: nat)
    requires IsHex(c)
    ensures IsHexDigit(c, v)
  {
    if c <= '9' then c as int - 48 else if c <= 'F' then c as int - 55 else c as int - 87
  }

  function Hexadecimal(hex: string): nat
    requires AllHex(hex)
  {
    if hex == [] then 0
    else 16 * Hexadecimal(hex[..|hex| - 1]) + HexDigit(hex[|hex| - 1])
  }

  function UnitValues(us: seq<string>): seq<int>
    requires UnitsWellFormed(us)
  {
    if us == [] then [] else [Hexadecimal(us[0])] + UnitValues(us[1..])
  }

  /** A run of code units is converted as a whole. */
  function DenoteChar(c: Char, conv: seq<int> -> string): string
    requires CharWellFormed(c)
  {
    match c
    case Raw(r) => [r]
    case Escaped(letter) => [ESCAPES[letter]]
    case Run(units) => conv(UnitValues(units))
  }

  function DenoteChars(cs: seq<Char>, conv: seq<int> -> string): string
    requires CharsWellFormed(cs)
  {
    if cs == [] then "" else DenoteChar(cs[0], conv) + DenoteChars(cs[1..], conv)
  }

  function Denote(s: Syntax, conv: seq<int> -> string): Value
    requires WellFormed(s)
  {
    match s
    case NullLit => Null
    case TrueLit => Bool(true)
    case FalseLit => Bool(false)
    case Number(neg, ds) => Int(Signed(neg, ds))
    case Text(cs) => Str(DenoteChars(cs, conv))
    case Array(_, es) => Arr(DenoteElements(es, conv))
    case Object(_, ms) => Obj(DenoteMembers(ms, map[], conv))
  }

  function DenoteElements(es: seq<Element>, conv: seq<int> -> string): seq<Value>
    requires ElementsWellFormed(es)
  {
    if es == [] then []
    else [Denote(es[0].value, conv)] + DenoteElements(es[1..], conv)
  }

  /** The last of several members with the same key wins. */
  function DenoteMembers(ms: seq<Member>, acc: map<string, Value>, conv: seq<int> -> string): map<string, Value>
    requires MembersWellFormed(ms)
    decreases ms
  {
    if ms == [] then acc
    else
      DenoteMembers(ms[1..], acc[DenoteChars(ms[0].key, conv) := Denote(ms[0].value, conv)], conv)
  }
}
