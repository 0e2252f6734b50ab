/**
 * The JavaScript values the route handlers receive and the runtime functions they call.
 * A request body is a JSON value; strings are measured the way `String.prototype.length`
 * measures them; what the runtime or a library computes and this model does not define
 * (the email pattern, the `Date` constructor, ObjectId casting) is a field of `Platform`.
 */
module JsValues {
  import opened Wrappers

  /** Milliseconds since the epoch, what a JavaScript `Date` holds. */
  type Time = int

  /** A store identifier (a MongoDB ObjectId in its string form). */
  type Id = string

  datatype Json =
    | JNull
    | JBool(b: bool)
    | JNum(n: real)
    | JStr(s: string)
    | JArr(items: seq<Json>)
    | JObj(fields: map<string, Json>)

  /** UTF-16 code units of one character: two for a character outside the Basic Multilingual Plane. */
  function CodeUnits(c: char): nat {
    if c as int >= 0x1_0000 then 2 else 1
  }

  /** `s.length` in JavaScript. */
  function JsLength(s: string): (n: nat)
    ensures |s| <= n <= 2 * |s|
  {
    if s == [] then 0 else JsLength(s[..|s| - 1]) + CodeUnits(s[|s| - 1])
  }

  function LowerChar(c: char): char {
    if 'A' <= c <= 'Z' then (c as int + 32) as char else c
  }

  /** `s.toLowerCase()` on the ASCII letters; every other character is kept. */
  function Lower(s: string): (r: string)
    ensures |r| == |s|
    ensures forall i :: 0 <= i < |s| ==> r[i] == LowerChar(s[i])
  {
    seq(|s|, i requires 0 <= i < |s| => LowerChar(s[i]))
  }

  /** Lower-casing twice is lower-casing once, so comparing lower-cased emails is case-insensitive. */
  lemma LowerIdempotent(s: string)
    ensures Lower(Lower(s)) == Lower(s)
  {
    assert forall i :: 0 <= i < |s| ==> Lower(Lower(s))[i] == Lower(s)[i];
  }

  /** What the runtime and the libraries compute outside this model. */
  datatype Platform = Platform(
    isEmail: string -> bool,        // the validator library's email pattern
    toDate: Json -> Option<Time>,   // `new Date(v)`; None for an Invalid Date
    isObjectId: string -> bool)     // whether the store driver can cast the string to an ObjectId
}
