/** Values and failures shared by every service of the backend. */
module Common {

  datatype Option<+T> = None | Some(value: T)

  /** Row identities; the store draws them from one counter. */
  type Id = nat

  /** The HTTP statuses the services attach to the errors they raise. */
  datatype Status = BadRequest | Unauthorized | Forbidden | NotFound | Conflict | TemporaryRedirect

  function Code(s: Status): nat
  {
    match s
    case BadRequest => 400
    case Unauthorized => 401
    case Forbidden => 403
    case NotFound => 404
    case Conflict => 409
    case TemporaryRedirect => 307
  }

  /** What a failed request carries to the error handler. */
  datatype Error =
    | ApiError(status: Status, message: string)  // an ApiError thrown by a service
    | PlainError(message: string)                // a bare `new Error(message)`
    | TokenError                                 // the token library rejected the token
    | UniqueViolation(field: string)             // the store refused a duplicate unique key
    | ForeignKeyViolation(field: string)         // the store refused a dangling reference
    | ValidationError(field: string)             // the store refused a value of the wrong type

  datatype Result<+T> = Ok(value: T) | Fail(error: Error)

  /** A JSON-like value: request payloads, role-profile columns and query rows. */
  datatype Value =
    | Undefined
    | Null
    | Bool(b: bool)
    | Num(n: int)
    | Str(s: string)
    | Obj(fields: map<string, Value>)

  /** A parsed request body, or an object literal built by a service. */
  type Payload = map<string, Value>

  /** `payload.key`: a missing key reads as undefined. */
  function Get(p: Payload, key: string): (v: Value)
    ensures key !in p ==> v == Undefined
    ensures key in p ==> v == p[key]
  {
    if key in p then p[key] else Undefined
  }

  /** JavaScript truthiness. */
  predicate Truthy(v: Value)
  {
    match v
    case Undefined => false
    case Null => false
    case Bool(b) => b
    case Num(n) => n != 0
    case Str(s) => s != ""
    case Obj(_) => true
  }

  /** Truthiness of an optional string (`undefined` or a string). */
  predicate Present(s: Option<string>)
  {
    s.Some? && s.value != ""
  }

  /** ASCII case folding, the part of the store's case-insensitive match this model keeps. */
  function Fold(c: char): char
  {
    if 'A' <= c <= 'Z' then (c as int + 32) as char else c
  }

  function FoldAll(s: string): (r: string)
    ensures |r| == |s|
    ensures forall i :: 0 <= i < |s| ==> r[i] == Fold(s[i])
  {
    if s == [] then [] else [Fold(s[0])] + FoldAll(s[1..])
  }

  /** `needle` occurs in `haystack` at position `i`, ignoring ASCII case. */
  predicate OccursAt(haystack: string, needle: string, i: int)
  {
    0 <= i <= |haystack| - |needle| && FoldAll(haystack[i..i + |needle|]) == FoldAll(needle)
  }

  /** `contains` with `mode: 'insensitive'`. */
  predicate ContainsInsensitive(haystack: string, needle: string)
  {
    exists i :: 0 <= i <= |haystack| - |needle| && OccursAt(haystack, needle, i)
  }
}
