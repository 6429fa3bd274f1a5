/**
 JSON values and their texts (sections 2 to 7 of RFC 8259).  A character stands
 for one code unit of the text.  Numbers are the signed and unsigned 64-bit
 integers.
 */
module Json {

  type Int64 = n: int | -0x8000_0000_0000_0000 <= n < 0x8000_0000_0000_0000

  type Uint64 = n: int | 0 <= n < 0x1_0000_0000_0000_0000

  datatype Value =
    | Null
    | Bool(b: bool)
    | Int(n: Int64)
    | Uint(u: Uint64)
    | Str(s: string)
    | Arr(items: seq<Value>)
    | Obj(members: seq<Member>)

  datatype Member = Member(key: string, value: Value)

  /** The two layouts in use: indented for people, and without whitespace for the wire. */
  datatype Style = Pretty | Compact

  function Spaces(n: nat): string {
    if n == 0 then "" else " " + Spaces(n - 1)
  }

  /** The whitespace at the start of a line at the given nesting depth. */
  function Margin(style: Style, depth: nat): string {
    if style == Pretty then Spaces(4 * depth) else ""
  }

  function NewLine(style: Style): string { if style == Pretty then "\n" else "" }

  function Gap(style: Style): string { if style == Pretty then " " else "" }

  function Digit(d: nat): char
    requires d < 10
  {
    ('0' as int + d) as char
  }

  function Hex(d: nat): char
    requires d < 16
  {
    if d < 10 then Digit(d) else ('a' as int + d - 10) as char
  }

  /** A code unit inside a string: quotes, backslashes and control characters are escaped. */
  function Escape(c: char): string {
    if c == '\"' then "\\\""
    else if c == '\\' then "\\\\"
    else if c == 8 as char then "\\b"
    else if c == 12 as char then "\\f"
    else if c == '\n' then "\\n"
    else if c == '\r' then "\\r"
    else if c == '\t' then "\\t"
    else if c < ' ' then "\\u00" + [Hex(c as int / 16), Hex(c as int % 16)]
    else [c]
  }

  function EscapeAll(s: string): string {
    if s == "" then "" else Escape(s[0]) + EscapeAll(s[1..])
  }

  function Quote(s: string): string { "\"" + EscapeAll(s) + "\"" }

  function Decimal(n: nat): (r: string)
    ensures r != ""
  {
    if n < 10 then [Digit(n)] else Decimal(n / 10) + [Digit(n % 10)]
  }

  function Number(n: int): string {
    if n < 0 then "-" + Decimal(-n) else Decimal(n)
  }

  function Text(style: Style, v: Value, depth: nat): string
    decreases v, 0
  {
    match v
    case Null => "null"
    case Bool(b) => if b then "true" else "false"
    case Int(n) => Number(n)
    case Uint(u) => Number(u)
    case Str(s) => Quote(s)
    case Arr(items) =>
      "[" + NewLine(style) + ItemsText(style, items, depth + 1) + NewLine(style) + Margin(style, depth) + "]"
    case Obj(members) =>
      "{" + NewLine(style) + MembersText(style, members, depth + 1) + NewLine(style) + Margin(style, depth) + "}"
  }

  function ItemText(style: Style, v: Value, depth: nat): string
    decreases v, 1
  {
    Margin(style, depth) + Text(style, v, depth)
  }

  function ItemsText(style: Style, items: seq<Value>, depth: nat): string
    decreases items, 2
  {
    if items == [] then ""
    else ItemText(style, items[0], depth) +
         if |items| == 1 then "" else "," + NewLine(style) + ItemsText(style, items[1..], depth)
  }

  function MemberText(style: Style, m: Member, depth: nat): string
    decreases m, 1
  {
    Margin(style, depth) + Quote(m.key) + Gap(style) + ":" + Gap(style) + Text(style, m.value, depth)
  }

  function MembersText(style: Style, members: seq<Member>, depth: nat): string
    decreases members, 2
  {
    if members == [] then ""
    else MemberText(style, members[0], depth) +
         if |members| == 1 then "" else "," + NewLine(style) + MembersText(style, members[1..], depth)
  }
}
