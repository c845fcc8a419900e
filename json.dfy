/**
 * JSON values as the system passes them around, and the two serialisers it
 * uses: JavaScript's `JSON.stringify(v)` (compact, non-ASCII kept) and
 * Python's `json.dumps(v)` with default arguments (", " and ": " separators,
 * every character outside printable ASCII escaped). Python dictionaries keep
 * insertion order, so an object is a sequence of (key, value) pairs.
 */
module Json {
  import opened Wrappers
  import opened Text

  datatype Json =
    | JNull
    | JBool(b: bool)
    | JInt(i: int)
    | JFloat(f: real)
    | JStr(s: string)
    | JArr(items: seq<Json>)
    | JObj(fields: seq<(string, Json)>)

  /** A list of strings. */
  function Strings(ss: seq<string>): Json {
    JArr(seq(|ss|, k requires 0 <= k < |ss| => JStr(ss[k])))
  }

  /** Which serialiser: `JSON.stringify` or Python's `json.dumps`. */
  datatype Style = JsCompact | PyDefault

  /** Largest integer a JavaScript number holds exactly. */
  const MaxSafeInteger: int := 0x1F_FFFF_FFFF_FFFF

  /**
   * Values whose serialisation the model spells out: no floats (their
   * shortest-round-trip decimal rendering is not modelled), and for
   * JavaScript only integers a double holds exactly.
   */
  predicate Serializable(st: Style, j: Json) {
    match j
    case JFloat(_) => false
    case JInt(i) => st == PyDefault || -MaxSafeInteger <= i <= MaxSafeInteger
    case JArr(items) => forall k :: 0 <= k < |items| ==> Serializable(st, items[k])
    case JObj(fields) => forall k :: 0 <= k < |fields| ==> Serializable(st, fields[k].1)
    case _ => true
  }

  /** The two-character escapes both serialisers use. */
  function ShortEscape(c: char): Option<string> {
    var n := c as int;
    if c == '"' then Some("\\\"")
    else if c == '\\' then Some("\\\\")
    else if n == 8 then Some("\\b")
    else if n == 12 then Some("\\f")
    else if n == 10 then Some("\\n")
    else if n == 13 then Some("\\r")
    else if n == 9 then Some("\\t")
    else None
  }

  /**
   * How one character of a string is written. Control characters become
   * `\uXXXX` in both styles; Python additionally escapes every character
   * outside the printable ASCII range ' '..'~' (DEL included), astral
   * characters as a UTF-16 surrogate pair.
   */
  function EscapeChar(st: Style, c: char): string {
    match ShortEscape(c)
    case Some(e) => e
    case None =>
      var n := c as int;
      if n < 0x20 then "\\u" + Hex4(n)
      else if st == PyDefault && n > 0x7e then
        if n < 0x10000 then "\\u" + Hex4(n)
        else
          var m := n - 0x10000;
          "\\u" + Hex4(0xd800 + m / 0x400) + "\\u" + Hex4(0xdc00 + m % 0x400)
      else [c]
  }

  function EscapeString(st: Style, s: string): string {
    if s == [] then "" else EscapeChar(st, s[0]) + EscapeString(st, s[1..])
  }

  /** A JSON string literal. */
  function Quote(st: Style, s: string): string {
    "\"" + EscapeString(st, s) + "\""
  }

  function ItemSeparator(st: Style): string {
    if st == JsCompact then "," else ", "
  }

  function KeySeparator(st: Style): string {
    if st == JsCompact then ":" else ": "
  }

  /** `JSON.stringify(j)` or `json.dumps(j)`. */
  function Serialize(st: Style, j: Json): string
    requires Serializable(st, j)
  {
    match j
    case JNull => "null"
    case JBool(b) => if b then "true" else "false"
    case JInt(i) => IntToDecimal(i)
    case JFloat(_) => ""
    case JStr(s) => Quote(st, s)
    case JArr(items) =>
      "[" + Join(ItemSeparator(st), seq(|items|, k requires 0 <= k < |items| => Serialize(st, items[k]))) + "]"
    case JObj(fields) =>
      "{" + Join(ItemSeparator(st),
                 seq(|fields|, k requires 0 <= k < |fields| =>
                       Quote(st, fields[k].0) + KeySeparator(st) + Serialize(st, fields[k].1))) + "}"
  }

  // ---------------------------------------------------------------------------
  // Serialised JSON never holds a raw line feed, which is what lets it sit on
  // one `data:` line of an event-stream frame.
  // ---------------------------------------------------------------------------

  lemma HexEscapeNoNewline(n: nat)
    requires n < 0x10000
    ensures '\n' !in "\\u" + Hex4(n)
  {
    var h := Hex4(n);
    assert ("\\u" + h)[0] == '\\' && ("\\u" + h)[1] == 'u';
    assert forall k :: 2 <= k < 6 ==> ("\\u" + h)[k] == h[k - 2];
  }

  lemma EscapeCharNoNewline(st: Style, c: char)
    ensures '\n' !in EscapeChar(st, c)
  {
    var n := c as int;
    if ShortEscape(c).None? && n < 0x20 {
      HexEscapeNoNewline(n);
    } else if ShortEscape(c).None? && st == PyDefault && n > 0x7e {
      if n < 0x10000 {
        HexEscapeNoNewline(n);
      } else {
        var m := n - 0x10000;
        HexEscapeNoNewline(0xd800 + m / 0x400);
        HexEscapeNoNewline(0xdc00 + m % 0x400);
      }
    }
  }

  lemma {:induction false} EscapeStringNoNewline(st: Style, s: string)
    ensures '\n' !in EscapeString(st, s)
  {
    if s != [] {
      EscapeCharNoNewline(st, s[0]);
      EscapeStringNoNewline(st, s[1..]);
    }
  }

  lemma QuoteNoNewline(st: Style, s: string)
    ensures '\n' !in Quote(st, s)
  {
    EscapeStringNoNewline(st, s);
  }

  lemma {:induction false} JoinNoNewline(sep: string, parts: seq<string>)
    requires '\n' !in sep
    requires forall k :: 0 <= k < |parts| ==> '\n' !in parts[k]
    ensures '\n' !in Join(sep, parts)
  {
    if |parts| > 1 {
      JoinNoNewline(sep, parts[1..]);
    }
  }

  lemma DecimalNoNewline(i: int)
    ensures '\n' !in IntToDecimal(i)
  {
    var d := NatToDecimal(if i < 0 then -i else i);
    assert forall k :: 0 <= k < |d| ==> d[k] != '\n';
  }

  /** No serialised value contains a line feed. */
  lemma {:induction false} SerializeNoNewline(st: Style, j: Json)
    requires Serializable(st, j)
    ensures '\n' !in Serialize(st, j)
  {
    match j
    case JNull =>
    case JBool(_) =>
    case JInt(i) => DecimalNoNewline(i);
    case JFloat(_) =>
    case JStr(s) => QuoteNoNewline(st, s);
    case JArr(items) =>
      var parts := seq(|items|, k requires 0 <= k < |items| => Serialize(st, items[k]));
      forall k | 0 <= k < |items|
        ensures '\n' !in parts[k]
      {
        SerializeNoNewline(st, items[k]);
      }
      JoinNoNewline(ItemSeparator(st), parts);
    case JObj(fields) =>
      var parts := seq(|fields|, k requires 0 <= k < |fields| =>
                         Quote(st, fields[k].0) + KeySeparator(st) + Serialize(st, fields[k].1));
      forall k | 0 <= k < |fields|
        ensures '\n' !in parts[k]
      {
        QuoteNoNewline(st, fields[k].0);
        SerializeNoNewline(st, fields[k].1);
      }
      JoinNoNewline(ItemSeparator(st), parts);
  }

  /** Python can hash the value, so it can be a dictionary key: lists and dictionaries cannot. */
  predicate Hashable(j: Json) {
    !(j.JArr? || j.JObj?)
  }

  // ---------------------------------------------------------------------------
  // Truthiness: the two languages disagree on empty lists and objects.
  // ---------------------------------------------------------------------------

  /** Python `bool(v)`. */
  predicate PyTruthy(j: Json) {
    match j
    case JNull => false
    case JBool(b) => b
    case JInt(i) => i != 0
    case JFloat(f) => f != 0.0
    case JStr(s) => s != ""
    case JArr(items) => items != []
    case JObj(fields) => fields != []
  }

  /** JavaScript `!!v` (an empty array or object is truthy). */
  predicate JsTruthy(j: Json) {
    match j
    case JNull => false
    case JBool(b) => b
    case JInt(i) => i != 0
    case JFloat(f) => f != 0.0
    case JStr(s) => s != ""
    case JArr(_) => true
    case JObj(_) => true
  }
}
