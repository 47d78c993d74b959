/** Vertex.java: a vertex is its id and the ordered list of ids it links to. */
module Vertices {
  import opened Results
  import GraphSpec

  class Vertex<T(==)> {
    /** The identifier. It is set once by the constructor and never changes,
        so `getId` always returns the constructor's argument. */
    const id: T

    /** The ids this vertex links to, in insertion order (what
        `getConnectedTo` hands out). */
    var connectedTo: seq<T>

    /** Stores the id; a new vertex has no neighbours. */
    constructor (id: T)
      ensures this.id == id && connectedTo == []
    {
      this.id := id;
      connectedTo := [];
    }

    /** The Java constructor with its null check: a null id is rejected. */
    static method Create(id: Option<T>) returns (r: Result<Vertex<T>>)
      ensures r.Failure? <==> id.None?
      ensures r.Failure? ==> r.error == NullId
      ensures r.Success? ==> fresh(r.value) && r.value.id == id.value && r.value.connectedTo == []
    {
      if id.None? {
        return Failure(NullId);
      }
      var v := new Vertex(id.value);
      return Success(v);
    }

    /** Appends `toId` to the neighbour list, unless it is already there, in
        which case nothing changes and the call fails: `GraphSpec.Connect`
        applied to the list in place. */
    method ConnectTo(toId: T) returns (r: Outcome)
      modifies this
      ensures match GraphSpec.Connect(old(connectedTo), toId)
        case Success(list) => r == Ok && connectedTo == list
        case Failure(e) => r == Fail(e) && connectedTo == old(connectedTo)
      ensures GraphSpec.NoDuplicates(old(connectedTo)) ==> GraphSpec.NoDuplicates(connectedTo)
    {
      if toId in connectedTo {
        return Fail(DuplicateEdge);
      }
      connectedTo := connectedTo + [toId];
      return Ok;
    }

    /** Vertex.equals: the identity shortcut never changes the answer, so two
        vertices are equal exactly when their ids are; null is equal to none. */
    function Equals(o: Vertex?<T>): (r: bool)
      ensures r <==> o != null && o.id == id
    {
      this == o || (o != null && id == o.id)
    }
  }
}
