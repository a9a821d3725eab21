/** JSON as it is written (sections 2 to 7 of RFC 8259, and the literals NaN, Infinity and -Infinity that
    `json.loads` takes as well): values with every way of writing them, blanks included. */
module JsonText {

  /** One character of a string, as it is, escaped by a letter, or by four hexadecimal digits. */
  datatype Unit = Plain(c: char) | Short(c: char) | Hex(a: char, b: char, c: char, d: char)

  datatype Exponent = NoExponent | Exponent(mark: char, sign: string, digits: string)

  /** `fraction` is "" when there is none. */
  datatype Numeral = Numeral(minus: bool, whole: string, fraction: string, exponent: Exponent)

  datatype Value =
    | Null | True | False | NaN | Infinity | NegativeInfinity
    | Number(numeral: Numeral)
    | String(units: seq<Unit>)
    | EmptyArray(blank: string)
    | Array(items: Items)
    | EmptyObject(blank: string)
    | Object(members: Members)

  /** The elements of an array, each between blanks. */
  datatype Items =
    | LastItem(before: string, value: Value, after: string)
    | Item(before: string, value: Value, after: string, rest: Items)

  /** The members of an object, with blanks around key, colon and value. */
  datatype Members =
    | LastMember(before: string, key: seq<Unit>, gap: string, middle: string, value: Value, after: string)
    | Member(before: string, key: seq<Unit>, gap: string, middle: string, value: Value, after: string, rest: Members)

  // ---- What may be written ---------------------------------------------------------------------------------

  predicate BlankChar(c: char) {
    c == ' ' || c == '\t' || c == '\n' || c == '\r'
  }

  predicate DigitChar(c: char) {
    '0' <= c <= '9'
  }

  predicate HexChar(c: char) {
    '0' <= c <= '9' || 'a' <= c <= 'f' || 'A' <= c <= 'F'
  }

  predicate Blank(text: string) {
    forall k :: 0 <= k < |text| ==> BlankChar(text[k])
  }

  predicate AllDigits(text: string) {
    forall k :: 0 <= k < |text| ==> DigitChar(text[k])
  }

  /** The letters of the short escapes. */
  predicate EscapeChar(c: char) {
    c == '"' || c == '\\' || c == '/' || c == 'b' || c == 'f' || c == 'n' || c == 'r' || c == 't'
  }

  predicate UnitOk(u: Unit) {
    match u
    case Plain(c) => c >= ' ' && c != '"' && c != '\\'
    case Short(c) => EscapeChar(c)
    case Hex(a, b, c, d) => HexChar(a) && HexChar(b) && HexChar(c) && HexChar(d)
  }

  predicate UnitsOk(units: seq<Unit>) {
    forall k :: 0 <= k < |units| ==> UnitOk(units[k])
  }

  predicate ExponentOk(e: Exponent) {
    e.Exponent? ==>
      && (e.mark == 'e' || e.mark == 'E') && (e.sign == "" || e.sign == "+" || e.sign == "-")
      && e.digits != "" && AllDigits(e.digits)
  }

  /** No leading zero. */
  predicate NumeralOk(n: Numeral) {
    && n.whole != "" && AllDigits(n.whole) && (n.whole[0] == '0' ==> |n.whole| == 1)
    && AllDigits(n.fraction) && ExponentOk(n.exponent)
  }

  predicate ValueOk(v: Value) {
    match v
    case Number(numeral) => NumeralOk(numeral)
    case String(units) => UnitsOk(units)
    case EmptyArray(blank) => Blank(blank)
    case Array(items) => ItemsOk(items)
    case EmptyObject(blank) => Blank(blank)
    case Object(members) => MembersOk(members)
    case _ => true
  }

  predicate ItemsOk(items: Items) {
    && Blank(items.before) && ValueOk(items.value) && Blank(items.after)
    && (items.Item? ==> ItemsOk(items.rest))
  }

  predicate MembersOk(members: Members) {
    && Blank(members.before) && UnitsOk(members.key) && Blank(members.gap) && Blank(members.middle)
    && ValueOk(members.value) && Blank(members.after)
    && (members.Member? ==> MembersOk(members.rest))
  }

  // ---- How it is written -------------------------------------------------------------------------------------

  function UnitText(u: Unit): string {
    match u
    case Plain(c) => [c]
    case Short(c) => ['\\', c]
    case Hex(a, b, c, d) => ['\\', 'u', a, b, c, d]
  }

  function UnitsText(units: seq<Unit>): string {
    if units == [] then "" else UnitText(units[0]) + UnitsText(units[1..])
  }

  function ExponentText(e: Exponent): string {
    match e
    case NoExponent => ""
    case Exponent(mark, sign, digits) => [mark] + sign + digits
  }

  function NumeralText(n: Numeral): string {
    (if n.minus then "-" else "") + n.whole + (if n.fraction == "" then "" else "." + n.fraction)
    + ExponentText(n.exponent)
  }

  function ValueText(v: Value): string {
    match v
    case Null => "null"
    case True => "true"
    case False => "false"
    case NaN => "NaN"
    case Infinity => "Infinity"
    case NegativeInfinity => "-Infinity"
    case Number(numeral) => NumeralText(numeral)
    case String(units) => ['"'] + (UnitsText(units) + (['"'] + ""))
    case EmptyArray(blank) => ['['] + (blank + ([']'] + ""))
    case Array(items) => ['['] + ItemsText(items)
    case EmptyObject(blank) => ['{'] + (blank + (['}'] + ""))
    case Object(members) => ['{'] + MembersText(members)
  }

  /** The elements and the closing bracket. */
  function ItemsText(items: Items): string
    decreases items, 1
  {
    items.before + (ValueText(items.value) + ItemTail(items))
  }

  function ItemTail(items: Items): string
    decreases items, 0
  {
    items.after + (if items.LastItem? then [']'] + "" else [','] + ItemsText(items.rest))
  }

  /** The members and the closing brace. */
  function MembersText(members: Members): string
    decreases members, 4
  {
    members.before + (['"'] + KeyTail(members))
  }

  function KeyTail(members: Members): string
    decreases members, 3
  {
    UnitsText(members.key) + (['"'] + ColonTail(members))
  }

  function ColonTail(members: Members): string
    decreases members, 2
  {
    members.gap + ([':'] + ValueTail(members))
  }

  function ValueTail(members: Members): string
    decreases members, 1
  {
    members.middle + (ValueText(members.value) + MemberTail(members))
  }

  function MemberTail(members: Members): string
    decreases members, 0
  {
    members.after + (if members.LastMember? then ['}'] + "" else [','] + MembersText(members.rest))
  }

  /** The text is this value between blanks. */
  predicate Writes(text: string, before: string, v: Value, after: string) {
    Blank(before) && ValueOk(v) && Blank(after) && text == before + ValueText(v) + after
  }
}
