/** Failure-carrying wrappers used throughout the model. */
module Wrappers {

  datatype Option<+T> = None | Some(value: T) {
    function GetOr(default: T): T {
      match this
      case Some(v) => v
      case None => default
    }
  }

  /** A value or the exception that a call threw instead. */
  datatype Result<+R, +E> = Success(value: R) | Failure(error: E)

  /** A call that returns nothing, or the exception it threw. */
  datatype Outcome<+E> = Pass | Fail(error: E)
}

/**
 * The few pieces of the .NET runtime the server code relies on: exceptions
 * with their class hierarchy, the string predicates, and 32-bit integers.
 */
module Clr {
  import opened Wrappers

  /**
   * A thrown exception: its runtime type name, the names of its base
   * classes (most derived first), and its Message.
   */
  datatype Exception = Exception(typeName: string, baseTypes: seq<string>, message: string)

  /** The C# type pattern `e is T`. */
  predicate IsA(e: Exception, t: string) {
    e.typeName == t || t in e.baseTypes
  }

  /** A .NET exception of type `typeName` that derives from `SystemException`. */
  function SystemError(typeName: string, message: string): (e: Exception)
    ensures IsA(e, typeName) && IsA(e, "SystemException") && IsA(e, "Exception") && e.message == message
  {
    Exception(typeName, ["SystemException", "Exception"], message)
  }

  /** `string.IsNullOrEmpty`, with null as `None`. */
  predicate IsNullOrEmpty(s: Option<string>) {
    s.None? || s.value == ""
  }

  /** The Unicode white-space characters, as `char.IsWhiteSpace` accepts them. */
  predicate IsWhiteSpaceChar(c: char) {
    ('\U{0009}' <= c <= '\U{000D}') || c == ' ' || c == '\U{0085}' || c == '\U{00A0}'
    || c == '\U{1680}' || ('\U{2000}' <= c <= '\U{200A}') || c == '\U{2028}' || c == '\U{2029}'
    || c == '\U{202F}' || c == '\U{205F}' || c == '\U{3000}'
  }

  /** `string.IsNullOrWhiteSpace`, with null as `None`. */
  predicate IsNullOrWhiteSpace(s: Option<string>) {
    s.None? || forall i :: 0 <= i < |s.value| ==> IsWhiteSpaceChar(s.value[i])
  }

  /** An octet of a binary frame or an audio chunk. */
  type byte = b: int | 0 <= b < 256

  const Int32Min: int := -0x8000_0000
  const Int32Max: int := 0x7FFF_FFFF

  /** C#'s `int`. */
  type int32 = x: int | Int32Min <= x <= Int32Max

  /** Two's-complement wrap-around of C#'s unchecked `int` arithmetic. */
  function Wrap32(x: int): (r: int)
    ensures Int32Min <= r <= Int32Max
    ensures (x - r) % 0x1_0000_0000 == 0
    ensures Int32Min <= x <= Int32Max ==> r == x
  {
    var m := (x - Int32Min) % 0x1_0000_0000;
    m + Int32Min
  }
}

/** JSON documents as both ends of the connection see them once parsed. */
module Json {

  datatype JsonValue =
    | JNull
    | JBool(b: bool)
    | JNumber(n: real)
    | JString(s: string)
    | JArray(items: seq<JsonValue>)
    | JObject(fields: map<string, JsonValue>)

  /** The payload of a text frame after parsing: either JSON or not parseable at all. */
  datatype TextPayload = Malformed | Parsed(value: JsonValue)
}
