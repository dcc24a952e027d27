/**
 The object list of `createARSession` (Omnify.js, lines 51-61).
 */
module ARSession {

  class Session<T> {
    /** The `objects` array. */
    var objects: seq<T>

    /** `createARSession()`: no objects. */
    constructor ()
      ensures objects == []
    {
      objects := [];
    }

    /** `addObject(obj)`, that is `objects.push(obj)`: appends and returns the new length. */
    method AddObject(obj: T) returns (length: nat)
      modifies this
      ensures objects == old(objects) + [obj]
      ensures length == |objects| == |old(objects)| + 1
      ensures objects[length - 1] == obj
    {
      objects := objects + [obj];
      length := |objects|;
    }
  }
}
