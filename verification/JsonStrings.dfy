/** How Python writes a text as a JSON string, and how JSON (RFC 8259, section 7) reads it back. */
module JsonStrings {
  import opened Wrappers

  function HexDigit(n: nat): char
    requires n < 16
  {
    "0123456789abcdef"[n]
  }

  /** `json.dumps` with `ensure_ascii=False` on one character. */
  function EscapeChar(c: char): (r: string)
    ensures r != ""
  {
    match c
    case '"' => "\\\""
    case '\\' => "\\\\"
    case '\n' => "\\n"
    case '\r' => "\\r"
    case '\t' => "\\t"
    case '\U{0008}' => "\\b"
    case '\U{000C}' => "\\f"
    case _ => if c < ' ' then "\\u00" + [HexDigit(c as int / 16), HexDigit(c as int % 16)] else [c]
  }

  function Escaped(s: string): string {
    if s == "" then "" else EscapeChar(s[0]) + Escaped(s[1..])
  }

  function HexValue(c: char): Option<nat> {
    if '0' <= c <= '9' then Some(c as int - '0' as int)
    else if 'a' <= c <= 'f' then Some(c as int - 'a' as int + 10)
    else if 'A' <= c <= 'F' then Some(c as int - 'A' as int + 10)
    else None
  }

  /** The character that a text between quotation marks begins with, and how long it is written.
      Of the escapes by number only those of the first 256 characters are read. */
  function FirstChar(t: string): Option<(char, nat)>
    requires t != ""
  {
    if t[0] == '"' || t[0] < ' ' then None
    else if t[0] != '\\' then Some((t[0], 1))
    else if |t| == 1 then None
    else match t[1]
      case '"' => Some(('"', 2))
      case '\\' => Some(('\\', 2))
      case '/' => Some(('/', 2))
      case 'b' => Some(('\U{0008}', 2))
      case 'f' => Some(('\U{000C}', 2))
      case 'n' => Some(('\n', 2))
      case 'r' => Some(('\r', 2))
      case 't' => Some(('\t', 2))
      case 'u' =>
        if |t| < 6 || t[2] != '0' || t[3] != '0' then None
        else (
          var high, low := HexValue(t[4]), HexValue(t[5]);
          if high.None? || low.None? then None else Some(((16 * high.value + low.value) as char, 6)))
      case _ => None
  }

  function Unescaped(t: string): Option<string>
    decreases |t|
  {
    if t == "" then Some("")
    else
      match FirstChar(t)
      case None => None
      case Some((c, n)) =>
        if n == 0 || n > |t| then None
        else
          match Unescaped(t[n..])
          case None => None
          case Some(rest) => Some([c] + rest)
  }

  lemma HexBack(n: nat)
    requires n < 16
    ensures HexValue(HexDigit(n)) == Some(n)
  {
  }

  lemma FirstBack(c: char, rest: string)
    ensures FirstChar(EscapeChar(c) + rest) == Some((c, |EscapeChar(c)|))
    ensures (EscapeChar(c) + rest)[|EscapeChar(c)|..] == rest
  {
    HexBack(c as int / 16 % 16);
    HexBack(c as int % 16);
  }

  /** Any text is read back as it was, so what stands between the quotation marks ends where they do. */
  lemma {:induction false} EscapedReadsBack(s: string)
    ensures Unescaped(Escaped(s)) == Some(s)
  {
    if s != "" {
      EscapedReadsBack(s[1..]);
      FirstBack(s[0], Escaped(s[1..]));
      hide FirstChar, EscapeChar;
      assert s == [s[0]] + s[1..];
    }
  }
}
