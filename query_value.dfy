/**
 * Values of a parsed query string (strings, arrays and nested objects, as
 * Express's extended query parser produces them), their conversion to a
 * string (String(v)) and their JSON text (JSON.stringify).
 *
 * An object is a sequence of entries in property enumeration order, so that
 * its JSON text is determined.
 */
module QueryValue {
  import opened Wrappers

  datatype QVal = Str(s: string) | Arr(items: seq<QVal>) | Obj(entries: seq<Entry>)
  datatype Entry = Entry(key: string, value: QVal)

  /** `obj[key]`: the value of the first entry with that key. */
  function Lookup(es: seq<Entry>, key: string): Option<QVal> {
    if es == [] then None
    else if es[0].key == key then Some(es[0].value)
    else Lookup(es[1..], key)
  }

  /** A key reads as the value of its first entry, and as `undefined` when no entry has it. */
  lemma {:induction false} LookupFirst(es: seq<Entry>, key: string)
    ensures Lookup(es, key).None? <==> forall i :: 0 <= i < |es| ==> es[i].key != key
    ensures Lookup(es, key).Some? ==>
      exists i :: 0 <= i < |es| && es[i] == Entry(key, Lookup(es, key).value)
                  && forall j :: 0 <= j < i ==> es[j].key != key
  {
    if es != [] && es[0].key != key {
      LookupFirst(es[1..], key);
      if Lookup(es, key).Some? {
        var i :| 0 <= i < |es[1..]| && es[1..][i] == Entry(key, Lookup(es, key).value)
                 && forall j :: 0 <= j < i ==> es[1..][j].key != key;
        assert es[i + 1] == Entry(key, Lookup(es, key).value);
        assert forall j :: 0 <= j < i + 1 ==> es[j].key != key by {
          forall j | 0 <= j < i + 1 ensures es[j].key != key {
            if j > 0 { assert es[j] == es[1..][j - 1]; }
          }
        }
      } else {
        assert forall i :: 0 <= i < |es| ==> es[i].key != key by {
          forall i | 0 <= i < |es| ensures es[i].key != key {
            if i > 0 { assert es[i] == es[1..][i - 1]; }
          }
        }
      }
    } else if es != [] {
      assert es[0] == Entry(key, Lookup(es, key).value);
    }
  }

  /** JavaScript truthiness: `undefined` and the empty string are falsy, arrays and objects truthy. */
  predicate Truthy(v: Option<QVal>) {
    v.Some? && v.value != Str("")
  }

  // ---------------------------------------------------------------------------
  // String(v)

  /** String(v): `undefined`, a string itself, an array's elements joined by commas. */
  function ToJsString(v: Option<QVal>): string {
    match v
    case None => "undefined"
    case Some(x) => ValueString(x)
  }

  function ValueString(v: QVal): string
    decreases v, 1
  {
    match v
    case Str(s) => s
    case Arr(xs) => ItemsString(xs)
    case Obj(_) => "[object Object]"
  }

  function ItemsString(xs: seq<QVal>): string
    decreases xs, 0
  {
    if xs == [] then ""
    else if |xs| == 1 then ValueString(xs[0])
    else ValueString(xs[0]) + "," + ItemsString(xs[1..])
  }

  // ---------------------------------------------------------------------------
  // JSON.stringify (section 25.5.2 of ECMA-262), without white space

  predicate IsControl(c: char) {
    c as int < 0x20
  }

  function HexDigit(n: nat): char
    requires n < 16
  {
    if n < 10 then '0' + n as char else 'a' + (n - 10) as char
  }

  /** The last two hex digits of `\u00XX` for a control character, in lower case. */
  function ControlHex(c: char): string
    requires IsControl(c)
  {
    var n := c as int;
    if n < 16 then ['0', HexDigit(n)] else ['1', HexDigit(n - 16)]
  }

  /** QuoteJSONString's table for one code point. */
  function EscapeChar(c: char): (r: string)
    ensures r != []
    ensures !IsControl(c) && c != '"' && c != '\\' ==> r == [c]
    ensures IsControl(c) || c == '"' || c == '\\' ==> r[0] == '\\'
  {
    if c == '"' then "\\\""
    else if c == '\\' then "\\\\"
    else if c == '\U{0008}' then "\\b"
    else if c == '\t' then "\\t"
    else if c == '\n' then "\\n"
    else if c == '\U{000C}' then "\\f"
    else if c == '\r' then "\\r"
    else if IsControl(c) then "\\u00" + ControlHex(c)
    else [c]
  }

  function Escape(s: string): string {
    if s == [] then [] else EscapeChar(s[0]) + Escape(s[1..])
  }

  function Quote(s: string): string {
    "\"" + Escape(s) + "\""
  }

  function Stringify(v: QVal): (r: string)
    ensures |r| >= 2
    decreases v, 1
  {
    match v
    case Str(s) => Quote(s)
    case Arr(xs) => "[" + Items(xs) + "]"
    case Obj(es) => "{" + Members(es) + "}"
  }

  function Items(xs: seq<QVal>): string
    decreases xs, 0
  {
    if xs == [] then ""
    else if |xs| == 1 then Stringify(xs[0])
    else Stringify(xs[0]) + "," + Items(xs[1..])
  }

  function Member(e: Entry): string
    decreases e, 2
  {
    Quote(e.key) + ":" + Stringify(e.value)
  }

  function Members(es: seq<Entry>): string
    decreases es, 0
  {
    if es == [] then ""
    else if |es| == 1 then Member(es[0])
    else Member(es[0]) + "," + Members(es[1..])
  }

  /** `s` holds no control character, so JSON.stringify escapes nothing but `"` and `\`. */
  predicate NoControlText(s: string) {
    forall i :: 0 <= i < |s| ==> !IsControl(s[i])
  }

  /** No string inside `v` (key or value) holds a control character. */
  predicate NoControl(v: QVal)
    decreases v, 1
  {
    match v
    case Str(s) => NoControlText(s)
    case Arr(xs) => forall i :: 0 <= i < |xs| ==> NoControl(xs[i])
    case Obj(es) => forall i :: 0 <= i < |es| ==> NoControlEntry(es[i])
  }

  predicate NoControlEntry(e: Entry)
    decreases e, 2
  {
    NoControlText(e.key) && NoControl(e.value)
  }
}
