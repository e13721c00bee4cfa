/** The parser of stream-api. Functions say what one pass over the text yields; methods with the
    loops of the source are proved to compute them. `Undefined` marks the texts the source gives no
    meaning to: it runs past the terminating null, shifts a non-hexadecimal digit, leaves the range
    of `atoi`, or reads a real (reals are not part of this model). */
module JsonParser {
  import opened JsonValue
  import opened JsonPrinter

  datatype Read<+T> = At(it: nat, value: T) | Undefined

  datatype State = ParseName | ParseValue

  /** The conversion of UTF-16 code units to a narrow string, which is a library call. */
  type Converter = seq<int> -> string

  // ---------------------------------------------------------------- characters

  /** Dereferencing the iterator: the text is followed by a null character. */
  function Peek(text: string, it: nat): char
    requires it <= |text|
  {
    if it < |text| then text[it] else '\0'
  }

  /** `escaped` */
  function Unescaped(c: char): char {
    match c
    case 'b' => BACKSPACE
    case 'f' => FORM_FEED
    case 'n' => '\n'
    case 'r' => '\r'
    case 't' => '\t'
    case _ => c
  }

  /** `hex_to_num` */
  function HexToNum(c: char): int {
    if '0' <= c <= '9' then c as int - '0' as int
    else if 'a' <= c <= 'f' then c as int - 'a' as int + 10
    else if 'A' <= c <= 'F' then c as int - 'A' as int + 10
    else -1
  }

  predicate IsDigit(c: char) {
    '0' <= c <= '9'
  }

  // ---------------------------------------------------------------- strings

  predicate AtUnit(text: string, it: nat)
    requires it <= |text|
  {
    it + 1 < |text| && text[it] == '\\' && text[it + 1] == 'u'
  }

  predicate HasHexQuad(text: string, it: nat) {
    it + 4 <= |text| && forall k | it <= k < it + 4 :: HexToNum(text[k]) >= 0
  }

  function HexQuad(text: string, it: nat): int
    requires HasHexQuad(text, it)
  {
    HexToNum(text[it]) * 0x1000 + HexToNum(text[it + 1]) * 0x100
    + HexToNum(text[it + 2]) * 0x10 + HexToNum(text[it + 3])
  }

  /** The code units of the run of escapes at `it`, and the position behind the run. */
  function GatherUnits(text: string, it: nat): (r: Read<seq<int>>)
    requires it <= |text|
    ensures r.At? ==> it <= r.it <= |text| && (AtUnit(text, it) ==> it < r.it)
    decreases |text| - it
  {
    if !AtUnit(text, it) then At(it, [])
    else if !HasHexQuad(text, it + 2) then Undefined
    else
      match GatherUnits(text, it + 6)
      case Undefined => Undefined
      case At(e, units) => At(e, [HexQuad(text, it + 2)] + units)
  }

  function Prepend(s: string, r: Read<string>): Read<string> {
    match r
    case Undefined => Undefined
    case At(it, value) => At(it, s + value)
  }

  /** The decoded string whose first character is at `it`, and the position of its closing quote. */
  function ReadString(text: string, it: nat, conv: Converter): (r: Read<string>)
    requires it <= |text|
    ensures r.At? ==> it <= r.it < |text|
    decreases |text| - it
  {
    if it == |text| then Undefined
    else if text[it] == '\"' then At(it, "")
    else if text[it] != '\\' then Prepend([text[it]], ReadString(text, it + 1, conv))
    else if it + 1 == |text| then Undefined
    else if text[it + 1] != 'u' then Prepend([Unescaped(text[it + 1])], ReadString(text, it + 2, conv))
    else
      match GatherUnits(text, it)
      case Undefined => Undefined
      case At(e, units) => Prepend(conv(units), ReadString(text, e, conv))
  }

  // ---------------------------------------------------------------- numbers and literals

  function SkipInt(text: string, it: nat): (e: nat)
    requires it <= |text|
    ensures it <= e <= |text|
    decreases |text| - it
  {
    if it < |text| && (text[it] == '-' || IsDigit(text[it])) then SkipInt(text, it + 1) else it
  }

  function SkipNumber(text: string, it: nat): (e: nat)
    requires it <= |text|
    ensures it <= e <= |text|
    decreases |text| - it
  {
    if it < |text| && (text[it] == '-' || text[it] == '.' || IsDigit(text[it])) then SkipNumber(text, it + 1)
    else it
  }

  /** The decimal value of the digits at `it`, read after the value `acc`. */
  function ReadDigits(text: string, it: nat, acc: nat): nat
    requires it <= |text|
    decreases |text| - it
  {
    if it < |text| && IsDigit(text[it]) then
      ReadDigits(text, it + 1, 10 * acc + (text[it] as int - '0' as int))
    else acc
  }

  /** `atoi` on a text that starts with a sign or a digit. */
  function Atoi(text: string, it: nat): int
    requires it <= |text|
  {
    if Peek(text, it) == '-' then 0 - ReadDigits(text, it + 1, 0) else ReadDigits(text, it, 0)
  }

  function ReadNumber(text: string, it: nat): (r: Read<Value>)
    requires it < |text|
    requires text[it] == '-' || IsDigit(text[it])
    ensures r.At? ==> it < r.it <= |text| && InFragment(r.value)
  {
    var stop := Peek(text, SkipInt(text, it));
    if stop == '.' || stop == 'e' || stop == 'E' || !IsInt32(Atoi(text, it)) then Undefined
    else At(SkipNumber(text, it), Int(Atoi(text, it)))
  }

  predicate HasPrefix(text: string, it: nat, p: string) {
    it + |p| <= |text| && forall k {:trigger p[k]} | 0 <= k < |p| :: text[it + k] == p[k]
  }

  function LiteralAt(text: string, it: nat): Value {
    if HasPrefix(text, it, "nul") then Null
    else if HasPrefix(text, it, "tru") then Bool(true)
    else Bool(false)
  }

  predicate IsDelimiter(c: char) {
    c == ',' || c == '}' || c == ']'
  }

  function SkipLiteral(text: string, it: nat): (r: Read<()>)
    requires it <= |text|
    ensures r.At? ==> it <= r.it < |text| && IsDelimiter(text[r.it])
    decreases |text| - it
  {
    if it == |text| then Undefined
    else if IsDelimiter(text[it]) then At(it, ())
    else SkipLiteral(text, it + 1)
  }

  function ReadLiteral(text: string, it: nat): (r: Read<Value>)
    requires it <= |text|
    ensures r.At? ==> it <= r.it < |text| && IsDelimiter(text[r.it]) && InFragment(r.value)
  {
    match SkipLiteral(text, it)
    case Undefined => Undefined
    case At(e, _) => At(e, LiteralAt(text, it))
  }

  predicate IsNumberStart(c: char) {
    c == '-' || IsDigit(c)
  }

  predicate IsLiteralStart(c: char) {
    c == 'n' || c == 't' || c == 'f'
  }

  // ---------------------------------------------------------------- containers

  /** `push_back`: insert or replace in a map, append to an array. */
  function PushBack(container: Value, name: string, v: Value): (r: Value)
    requires IsContainer(container)
    ensures IsContainer(r) && (r.Obj? <==> container.Obj?)
    ensures InFragment(container) && InFragment(v) ==> InFragment(r)
  {
    if container.Obj? then Obj(container.fields[name := v]) else Arr(container.items + [v])
  }

  /** Maps wait for a key after each value, arrays for the next value. */
  function NextState(container: Value): State {
    if container.Obj? then ParseName else ParseValue
  }

  function EmptyContainer(open: char): (r: Value)
    ensures IsContainer(r) && InFragment(r)
  {
    if open == '{' then Obj(map[]) else Arr([])
  }

  /** The loop over one container, entered behind its opening bracket. */
  function ParseLoop(text: string, it: nat, state: State, name: string, container: Value, conv: Converter)
    : (r: Read<Value>)
    requires it <= |text| && IsContainer(container)
    ensures r.At? ==> it <= r.it <= |text| && (r.value.Obj? <==> container.Obj?) && IsContainer(r.value)
    ensures r.At? && InFragment(container) ==> InFragment(r.value)
    decreases |text| - it
  {
    var c := Peek(text, it);
    if c == '\0' then At(it, container)
    else if c == '{' || c == '[' then
      var empty := EmptyContainer(c);
      match ParseLoop(text, it + 1, NextState(empty), "", empty, conv)
      case Undefined => Undefined
      case At(e, nested) =>
        ParseLoop(text, e, NextState(container), name, PushBack(container, name, nested), conv)
    else if c == '}' || c == ']' then At(it + 1, container)
    else if c == '\"' then
      match ReadString(text, it + 1, conv)
      case Undefined => Undefined
      case At(e, s) =>
        if state == ParseValue then
          ParseLoop(text, e + 1, NextState(container), name, PushBack(container, name, Str(s)), conv)
        else ParseLoop(text, e + 1, ParseValue, s, container, conv)
    else if IsNumberStart(c) then
      match ReadNumber(text, it)
      case Undefined => Undefined
      case At(e, v) => ParseLoop(text, e, NextState(container), name, PushBack(container, name, v), conv)
    else if IsLiteralStart(c) then
      match ReadLiteral(text, it)
      case Undefined => Undefined
      case At(e, v) =>
        ParseLoop(text, e, NextState(container), name, PushBack(container, name, v), conv)
    else ParseLoop(text, it + 1, state, name, container, conv)
  }

  /** `parse` of a whole text into a map (`open` is a brace) or an array (`open` is a bracket). */
  function ParseDocument(text: string, it: nat, open: char, conv: Converter): (r: Read<Value>)
    requires it <= |text|
    ensures r.At? ==> r.it <= |text| && IsContainer(r.value) && InFragment(r.value)
    decreases |text| - it
  {
    var c := Peek(text, it);
    if c == '\0' then At(it, EmptyContainer(open))
    else if c == open then ParseLoop(text, it + 1, NextState(EmptyContainer(open)), "", EmptyContainer(open), conv)
    else ParseDocument(text, it + 1, open, conv)
  }
}
