/** The JSON values the session reads from parsed server messages, the
    JavaScript rules it applies to them (truthiness, property reads), and the
    string quoting of `JSON.stringify` used to build the auth frame. */
module Json {
  import opened Wrappers
  import opened Decimal

  /** A parsed JSON value. Numbers are integers here (see README). */
  datatype Json =
    | JNull
    | JBool(b: bool)
    | JNum(n: int)
    | JStr(s: string)
    | JArr(items: seq<Json>)
    | JObj(fields: map<string, Json>)

  /** JavaScript truthiness of a property read: a missing property is
      `undefined`, which is falsy, as are null, false, 0 and "". */
  predicate Truthy(v: Option<Json>)
  {
    match v
    case None => false
    case Some(JNull) => false
    case Some(JBool(b)) => b
    case Some(JNum(n)) => n != 0
    case Some(JStr(s)) => s != ""
    case Some(_) => true
  }

  /** `obj[key]` on a parsed object. */
  function Get(obj: map<string, Json>, key: string): (r: Option<Json>)
    ensures r.Some? <==> key in obj
    ensures r.Some? ==> r.value == obj[key]
  {
    if key in obj then Some(obj[key]) else None
  }

  /** `v.key` on an arbitrary value: only objects have named properties here. */
  function Prop(v: Option<Json>, key: string): (r: Option<Json>)
    ensures r.Some? ==> v.Some? && v.value.JObj? && key in v.value.fields
  {
    match v
    case Some(JObj(fields)) => Get(fields, key)
    case _ => None
  }

  /** Destructuring `const { x } = v` throws a TypeError exactly when `v` is
      undefined or null. */
  predicate DestructureThrows(v: Option<Json>)
  {
    v.None? || v == Some(JNull)
  }

  /** Converting a parsed value to a primitive (a template literal,
      `Math.floor`, `+`, `/`) throws a TypeError. `JSON.parse` never yields a
      callable, so an object with an own `toString` property has no working
      conversion: that property shadows `Object.prototype.toString`, and
      `valueOf` of a plain object returns the object itself. An array converts
      through `join`, which converts every element. */
  predicate ConversionThrows(v: Json)
  {
    match v
    case JObj(fields) => "toString" in fields
    case JArr(items) => exists i :: 0 <= i < |items| && ConversionThrows(items[i])
    case _ => false
  }

  /** The same for a property read; `undefined` converts without error. */
  predicate ReadThrows(v: Option<Json>)
  {
    v.Some? && ConversionThrows(v.value)
  }

  // ---- string quoting as done by JSON.stringify ----

  function HexDigit(d: nat): (c: char)
    requires d < 16
  {
    if d < 10 then DigitChar(d) else ('a' as int + (d - 10)) as char
  }

  predicate IsHex(c: char) { '0' <= c <= '9' || 'a' <= c <= 'f' || 'A' <= c <= 'F' }

  function HexValue(c: char): (d: nat)
    requires IsHex(c)
    ensures d < 16
  {
    if '0' <= c <= '9' then c as int - '0' as int
    else if 'a' <= c <= 'f' then c as int - 'a' as int + 10
    else c as int - 'A' as int + 10
  }

  lemma HexRoundTrip(d: nat)
    requires d < 16
    ensures IsHex(HexDigit(d)) && HexValue(HexDigit(d)) == d
  {
  }

  /** The escape JSON.stringify writes for one character of a string. */
  function EscapeChar(c: char): (r: string)
    ensures |r| >= 1 && forall i :: 0 <= i < |r| ==> !IsControl(r[i])
  {
    if c == '"' then "\\\""
    else if c == '\\' then "\\\\"
    else if c == '\U{8}' then "\\b"
    else if c == '\t' then "\\t"
    else if c == '\n' then "\\n"
    else if c == '\U{C}' then "\\f"
    else if c == '\r' then "\\r"
    else if (c as int) < 0x20 then "\\u00" + [HexDigit(c as int / 16), HexDigit(c as int % 16)]
    else [c]
  }

  /** The characters JSON forbids raw inside a string literal. */
  predicate IsControl(c: char) { (c as int) < 0x20 }

  /** No control character survives the escaping, and the text is at least
      as long as the string. */
  function Escape(s: string): (r: string)
    ensures |r| >= |s|
    ensures forall i :: 0 <= i < |r| ==> !IsControl(r[i])
  {
    if s == [] then [] else EscapeChar(s[0]) + Escape(s[1..])
  }

  /** `JSON.stringify(s)` for a string `s`: a literal between double quotes
      whose inside reads back as `s`. */
  function Quote(s: string): (r: string)
    ensures |r| >= 2 && r[0] == '"' && r[|r| - 1] == '"'
    ensures Unescape(r[1..|r| - 1]) == Some(s)
  {
    UnescapeEscape(s);
    var r := "\"" + Escape(s) + "\"";
    assert r[1..|r| - 1] == Escape(s);
    r
  }

  /** The text inside a JSON string literal read back to the string it
      denotes; `None` for an unescaped quote, a raw control character, or an
      escape that JSON does not define. Surrogate code units are not
      characters here and are refused. */
  function Unescape(t: string): (r: Option<string>)
    decreases |t|
  {
    if t == [] then Some([])
    else if t[0] == '"' || (t[0] as int) < 0x20 then None
    else if t[0] != '\\' then
      match Unescape(t[1..])
      case None => None
      case Some(rest) => Some([t[0]] + rest)
    else if |t| < 2 then None
    else
      var e := t[1];
      if e == 'u' then
        if |t| < 6 || !IsHex(t[2]) || !IsHex(t[3]) || !IsHex(t[4]) || !IsHex(t[5]) then None
        else
          var code := HexValue(t[2]) * 4096 + HexValue(t[3]) * 256 + HexValue(t[4]) * 16 + HexValue(t[5]);
          if 0xD800 <= code < 0xE000 then None
          else
            match Unescape(t[6..])
            case None => None
            case Some(rest) => Some([code as char] + rest)
      else
        var c :=
          if e == '"' then Some('"')
          else if e == '\\' then Some('\\')
          else if e == '/' then Some('/')
          else if e == 'b' then Some('\U{8}')
          else if e == 'f' then Some('\U{C}')
          else if e == 'n' then Some('\n')
          else if e == 'r' then Some('\r')
          else if e == 't' then Some('\t')
          else None;
        if c.None? then None
        else
          match Unescape(t[2..])
          case None => None
          case Some(rest) => Some([c.value] + rest)
  }

  lemma UnescapeChar(c: char, t: string)
    ensures Unescape(EscapeChar(c) + t) ==
      match Unescape(t)
      case None => None
      case Some(rest) => Some([c] + rest)
  {
    var e := EscapeChar(c);
    if e == [c] {
      assert (e + t)[1..] == t;
    } else if (c as int) < 0x20 && |e| == 6 {
      var hi, lo := c as int / 16, c as int % 16;
      HexRoundTrip(hi);
      HexRoundTrip(lo);
      assert (e + t)[6..] == t;
      assert (e + t)[2] == '0' && (e + t)[3] == '0';
      assert (e + t)[4] == HexDigit(hi) && (e + t)[5] == HexDigit(lo);
      var code := HexValue('0') * 4096 + HexValue('0') * 256 + HexValue(HexDigit(hi)) * 16 + HexValue(HexDigit(lo));
      assert code == c as int;
      assert code as char == c;
    } else {
      assert (e + t)[2..] == t;
    }
  }

  /** Reading back what JSON.stringify wrote gives the original string. */
  lemma {:induction false} UnescapeEscape(s: string)
    ensures Unescape(Escape(s)) == Some(s)
  {
    if s != [] {
      UnescapeEscape(s[1..]);
      UnescapeChar(s[0], Escape(s[1..]));
      assert s == [s[0]] + s[1..];
    }
  }
}
