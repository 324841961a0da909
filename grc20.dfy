/**
 * The knowledge-graph client library as the publish action sees it:
 * `Graph.createProperty`, `Graph.createType` and `Graph.createEntity`
 * each mint a fresh id and return a list of operations. The library's
 * ids are random; here a client mints an id longer than every id it has
 * issued, which is all the action relies on: ids never repeat. Each
 * call's op list is one op that records the call's id and arguments.
 */
module Grc20 {
  import opened Hypergraph

  datatype DataType = Text

  datatype Op =
    | CreatePropertyOp(id: string, name: string, dataType: DataType)
    | CreateTypeOp(id: string, name: string, properties: seq<string>)
    | CreateEntityOp(id: string, name: string, description: string, types: seq<string>, values: seq<PropertyValue>)

  /** The length of the longest id issued so far. */
  function Longest(ids: seq<string>): (n: nat)
    ensures forall i :: 0 <= i < |ids| ==> |ids[i]| <= n
  {
    if ids == [] then 0
    else
      var rest := Longest(ids[1..]);
      assert forall i :: 1 <= i < |ids| ==> ids[i] == ids[1..][i - 1];
      if |ids[0]| > rest then |ids[0]| else rest
  }

  /** The id a client mints after issuing `issued`: never one of them. */
  function NextId(issued: seq<string>): (id: string)
    ensures id !in issued
  {
    "id:" + seq(Longest(issued), _ => '0')
  }

  /** The ids of `n` successive calls starting from `issued`. */
  function Mint(issued: seq<string>, n: nat): (ids: seq<string>)
    ensures |ids| == n
    decreases n
  {
    if n == 0 then [] else var id := NextId(issued); [id] + Mint(issued + [id], n - 1)
  }

  /** Successive calls never reuse an id: the minted ids are new and pairwise distinct. */
  lemma {:induction false} MintFresh(issued: seq<string>, n: nat)
    ensures forall i :: 0 <= i < n ==> Mint(issued, n)[i] !in issued
    ensures forall i, j :: 0 <= i < j < n ==> Mint(issued, n)[i] != Mint(issued, n)[j]
    decreases n
  {
    if n > 0 {
      var id := NextId(issued);
      var rest := Mint(issued + [id], n - 1);
      MintFresh(issued + [id], n - 1);
      assert Mint(issued, n) == [id] + rest;
      assert forall i :: 0 <= i < n - 1 ==> rest[i] !in issued && rest[i] != id;
    }
  }

  /** A client of the library; `issued` lists every id it has minted, oldest first. */
  class GraphClient {
    var issued: seq<string>

    constructor ()
      ensures issued == []
    {
      issued := [];
    }

    method CreateProperty(name: string, dataType: DataType) returns (id: string, ops: seq<Op>)
      modifies this
      ensures id == NextId(old(issued)) && issued == old(issued) + [id]
      ensures ops == [CreatePropertyOp(id, name, dataType)]
    {
      id := NextId(issued);
      issued := issued + [id];
      ops := [CreatePropertyOp(id, name, dataType)];
    }

    method CreateType(name: string, properties: seq<string>) returns (id: string, ops: seq<Op>)
      modifies this
      ensures id == NextId(old(issued)) && issued == old(issued) + [id]
      ensures ops == [CreateTypeOp(id, name, properties)]
    {
      id := NextId(issued);
      issued := issued + [id];
      ops := [CreateTypeOp(id, name, properties)];
    }

    method CreateEntity(name: string, description: string, types: seq<string>, values: seq<PropertyValue>)
      returns (id: string, ops: seq<Op>)
      modifies this
      ensures id == NextId(old(issued)) && issued == old(issued) + [id]
      ensures ops == [CreateEntityOp(id, name, description, types, values)]
    {
      id := NextId(issued);
      issued := issued + [id];
      ops := [CreateEntityOp(id, name, description, types, values)];
    }
  }
}
