/** Helpers shared by the storefront model: optional values, the JavaScript
    truthiness test the handlers apply to optional strings, the case mapping of
    `String.prototype.toLowerCase`, and the variable objects sent with GraphQL
    requests. */
module Common {

  /** A value that may be `undefined` (or `null`) on the JavaScript side. */
  datatype Option<+T> = None | Some(value: T) {

    /** The `x ?? fallback` operator. */
    function GetOr(fallback: T): (r: T)
      ensures Some? ==> r == value
      ensures None? ==> r == fallback
    {
      match this
      case Some(v) => v
      case None => fallback
    }
  }

  /** `if (s)` on a `string | undefined`: false for `undefined` and for the empty string. */
  predicate Truthy(s: Option<string>) {
    s.Some? && s.value != ""
  }

  /** `String.prototype.toLowerCase` on one character, for the scripts the
      storefront's option labels use: Basic Latin capitals and the Cyrillic
      capitals U+0400..U+042F. Every other character is left as it is. */
  function LowerChar(c: char): (d: char)
    ensures 'A' <= c <= 'Z' ==> 'a' <= d <= 'z'
    ensures !('A' <= c <= 'Z') && !('Ѐ' <= c <= 'Я') ==> d == c
    ensures !('A' <= d <= 'Z') && !('Ѐ' <= d <= 'Я')
  {
    if 'A' <= c <= 'Z' then (c as int + 32) as char
    else if 'А' <= c <= 'Я' then (c as int + 32) as char
    else if 'Ѐ' <= c <= 'Џ' then (c as int + 80) as char
    else c
  }

  /** `String.prototype.toLowerCase`, character by character. */
  function Lower(s: string): (r: string)
    ensures |r| == |s|
    ensures forall i :: 0 <= i < |s| ==> r[i] == LowerChar(s[i])
  {
    if s == [] then [] else [LowerChar(s[0])] + Lower(s[1..])
  }

  /** A JSON-like value of a GraphQL variables object. `Undefined` is a key
      that is present with the value `undefined` (it is dropped on the wire). */
  datatype Value = Undefined | Num(n: int) | Str(s: string) | List(items: seq<Value>)

  /** A GraphQL variables object. */
  type Vars = map<string, Value>
}
