/** The JavaScript values the work reducer stores, and the one kind of heap
    object it updates in place: an array that grows by `push`. */
module JsValues {

  datatype Option<+T> = None | Some(value: T)

  datatype Result<+T, +E> = Success(value: T) | Failure(error: E)

  /** A JavaScript value that the reducer stores or passes along but never
      updates in place (tags, users, stacks, repository and capability
      records). Numbers are taken to be integers. */
  datatype Json =
    | Null
    | Bool(b: bool)
    | Num(n: int)
    | Str(s: string)
    | List(items: seq<Json>)
    | Obj(fields: map<string, Json>)

  /** A JavaScript array object. Every holder of a reference to the same
      JsArray sees the elements that `Push` appends through any of them. */
  class JsArray {
    var elems: seq<Json>

    /** The literal `[]`. */
    constructor Empty()
      ensures elems == []
    {
      elems := [];
    }

    /** `Object.assign([], src)`: a new array with the elements of `src`. */
    constructor Copy(src: JsArray)
      ensures elems == src.elems
    {
      elems := src.elems;
    }

    /** `push`: appends `x` in place and returns the new length. */
    method Push(x: Json) returns (length: nat)
      modifies this
      ensures elems == old(elems) + [x]
      ensures length == |elems|
    {
      elems := elems + [x];
      length := |elems|;
    }
  }
}
