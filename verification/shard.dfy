/**
 * The "shard" balancer of pkg/lb/shard.go: a picker builder that indexes the ready
 * SubConns by address and feeds them to a hash ring, and a picker that routes a call by
 * the ring when the call's outgoing metadata carries a value for the picker's key, and
 * uniformly at random otherwise.
 */
module Lb {
  import opened Wrappers

  type Address = string

  /** gRPC metadata: every key maps to a list of values. */
  type Metadata = map<string, seq<string>>

  /** A balancer SubConn handle; only its identity matters here. */
  datatype SubConn = SubConn(id: nat)

  /**
   * The consistent-hash ring of x-go/xhash/ring, whose code is not part of this model.
   * `nodes` lists the addresses added, in order of addition, and `locate` stands for the
   * ring's hashing of a key and its search for the owning token, both invisible here.
   * Get answers `nodes[locate(key) % |nodes|]`: every function from keys to added
   * addresses has this form for some `locate`, so the one thing assumed of the library is
   * that, on a non-empty ring, Get returns an address that was added.
   */
  datatype Ring = Ring(replicas: nat, nodes: seq<Address>, locate: string -> nat)

  /** `ring.New(replicas, nil)`: an empty ring. */
  function NewRing(replicas: nat, locate: string -> nat): (r: Ring)
    ensures r.replicas == replicas && r.nodes == []
  {
    Ring(replicas, [], locate)
  }

  /** `ring.Add(addr)`: the address joins the ring; nothing else about the ring changes. */
  function Add(r: Ring, addr: Address): (r': Ring)
    ensures r'.nodes == r.nodes + [addr]
    ensures r'.replicas == r.replicas && r'.locate == r.locate
  {
    r.(nodes := r.nodes + [addr])
  }

  /**
   * `ring.Get(key)`: on a non-empty ring, an added address, the same one for the same key.
   * What the library answers on an empty ring is not visible; the empty string stands for
   * it, and it does not matter to Pick, whose address map is then empty as well.
   */
  function Get(r: Ring, key: string): (a: Address)
    ensures |r.nodes| > 0 ==> a in r.nodes
  {
    if |r.nodes| == 0 then "" else r.nodes[r.locate(key) % |r.nodes|]
  }

  datatype ShardPicker = ShardPicker(key: string, subConns: map<Address, SubConn>, remotes: seq<Address>, ring: Ring)

  /** Go's map index: the SubConn stored under `a`, nil when there is none. */
  function Lookup(m: map<Address, SubConn>, a: Address): (r: Option<SubConn>)
    ensures r.Some? <==> a in m
    ensures r.Some? ==> r.value == m[a]
  {
    if a in m then Some(m[a]) else None
  }

  /** `md.Get(key)`: the values stored under `key`, none when the key is absent. */
  function MdGet(md: Metadata, key: string): (values: seq<string>)
    ensures key !in md ==> values == []
    ensures key in md ==> values == md[key]
  {
    if key in md then md[key] else []
  }

  /** `order` is a visit of every ready SubConn exactly once, as `range` over the map makes. */
  ghost predicate IsIterationOrder(ready: map<SubConn, Address>, order: seq<SubConn>) {
    && (forall i, j :: 0 <= i < j < |order| ==> order[i] != order[j])
    && (forall sc :: sc in ready <==> sc in order)
  }

  /**
   * The picker invariant Build establishes: every fallback address is indexed, and the
   * ring holds exactly the fallback addresses, so a ring answer is indexed too.
   */
  predicate Consistent(p: ShardPicker) {
    && (forall a :: a in p.remotes ==> a in p.subConns)
    && p.ring.nodes == p.remotes
  }

  /** A duplicate-free sequence has as many distinct elements as it has positions. */
  lemma {:induction false} DistinctCardinality<T>(s: seq<T>)
    requires forall i, j :: 0 <= i < j < |s| ==> s[i] != s[j]
    ensures |set x | x in s| == |s|
    decreases |s|
  {
    if |s| > 0 {
      var init := s[..|s| - 1];
      DistinctCardinality(init);
      assert (set x | x in s) == (set x | x in init) + {s[|s| - 1]};
      assert s[|s| - 1] !in (set x | x in init);
    }
  }

  /**
   * `shardPickerBuilder.Build`: visits the ready SubConns in `order`, adding each address
   * to a 50-replica ring, indexing the SubConn under its address and appending the address
   * to the fallback list. `locate` is the ring's invisible hashing.
   */
  method Build(ready: map<SubConn, Address>, order: seq<SubConn>, locate: string -> nat)
    returns (p: ShardPicker)
    requires IsIterationOrder(ready, order)
    ensures p.key == ""
    ensures p.ring.replicas == 50 && p.ring.nodes == p.remotes
    ensures p.subConns.Keys == ready.Values
    ensures |p.remotes| == |order| == |ready|
    ensures forall i :: 0 <= i < |p.remotes| ==> p.remotes[i] == ready[order[i]]
    ensures forall a :: a in p.subConns ==> p.subConns[a] in ready && ready[p.subConns[a]] == a
    ensures Consistent(p)
  {
    var subConns: map<Address, SubConn> := map[];
    var remotes: seq<Address> := [];
    var ring := NewRing(50, locate);
    for i := 0 to |order|
      invariant |remotes| == i
      invariant forall k :: 0 <= k < i ==> remotes[k] == ready[order[k]]
      invariant forall a :: a in subConns <==> a in remotes
      invariant forall a :: a in subConns ==> subConns[a] in ready && ready[subConns[a]] == a
      invariant ring.replicas == 50 && ring.nodes == remotes
    {
      var sc := order[i];
      var addr := ready[sc];
      ring := Add(ring, addr);
      subConns := subConns[addr := sc];
      remotes := remotes + [addr];
    }
    forall a | a in ready.Values
      ensures a in subConns
    {
      var sc :| sc in ready && ready[sc] == a;
      var k :| 0 <= k < |order| && order[k] == sc;
      assert remotes[k] == a;
    }
    DistinctCardinality(order);
    assert ready.Keys == set x | x in order;
    p := ShardPicker("", subConns, remotes, ring);
  }

  /** What Pick hands back: a SubConn (nil allowed) with an error, or a panic. */
  datatype PickOutcome = Picked(subConn: Option<SubConn>, err: Option<string>) | Panicked

  /** The fallback `subConns[remotes[rand.Intn(len(remotes))]]`; Intn panics on 0. */
  method RandomFallback(p: ShardPicker) returns (r: PickOutcome)
    ensures r.Panicked? <==> |p.remotes| == 0
    ensures r.Picked? ==> r.err.None?
    ensures r.Picked? ==> exists i :: 0 <= i < |p.remotes| && r.subConn == Lookup(p.subConns, p.remotes[i])
  {
    if |p.remotes| == 0 {
      return Panicked;
    }
    var i :| 0 <= i < |p.remotes|;
    r := Picked(Lookup(p.subConns, p.remotes[i]), None);
  }

  /**
   * `shardPicker.Pick`. Without outgoing metadata, or without a value for the picker's
   * key, it falls back to a random fallback address; otherwise the first value is the
   * ring key, which fixes the answer for a given picker.
   */
  method Pick(p: ShardPicker, outgoing: Option<Metadata>) returns (r: PickOutcome)
    ensures r.Picked? ==> r.err.None?
    ensures outgoing.None? || MdGet(outgoing.value, p.key) == [] ==>
              && (r.Panicked? <==> |p.remotes| == 0)
              && (r.Picked? ==> exists i :: 0 <= i < |p.remotes| && r.subConn == Lookup(p.subConns, p.remotes[i]))
    ensures outgoing.Some? && MdGet(outgoing.value, p.key) != [] ==>
              r == Picked(Lookup(p.subConns, Get(p.ring, MdGet(outgoing.value, p.key)[0])), None)
    ensures Consistent(p) && |p.remotes| > 0 ==> r.Picked? && r.subConn.Some?
  {
    if outgoing.None? {
      r := RandomFallback(p);
      return;
    }
    var values := MdGet(outgoing.value, p.key);
    if |values| == 0 {
      r := RandomFallback(p);
      return;
    }
    var key := Get(p.ring, values[0]);
    r := Picked(Lookup(p.subConns, key), None);
  }

  /** `balancer.ErrNoSubConnAvailable`, the error a picker reports when it has nothing to offer. */
  const ErrNoSubConnAvailable := "no SubConn is available"

  /**
   * With no ready SubConn, Build makes a picker with no fallback address, and a call
   * without outgoing metadata then reaches `rand.Intn(0)`, which panics.
   */
  method AsWrittenPickPanicsWithoutReadySubConns(locate: string -> nat) returns (r: PickOutcome)
    ensures r.Panicked?
  {
    var p := Build(map[], [], locate);
    r := Pick(p, None);
  }

  /**
   * Pick as it is evidently meant to behave: a picker without fallback addresses reports
   * that no SubConn is available instead of panicking; otherwise it picks as written.
   */
  method CorrectedPick(p: ShardPicker, outgoing: Option<Metadata>) returns (r: PickOutcome)
    ensures r.Picked?
    ensures r.err.Some? <==> |p.remotes| == 0
    ensures |p.remotes| == 0 ==> r == Picked(None, Some(ErrNoSubConnAvailable))
    ensures |p.remotes| > 0 && (outgoing.None? || MdGet(outgoing.value, p.key) == []) ==>
              exists i :: 0 <= i < |p.remotes| && r.subConn == Lookup(p.subConns, p.remotes[i])
    ensures |p.remotes| > 0 && outgoing.Some? && MdGet(outgoing.value, p.key) != [] ==>
              r == Picked(Lookup(p.subConns, Get(p.ring, MdGet(outgoing.value, p.key)[0])), None)
    ensures Consistent(p) && |p.remotes| > 0 ==> r.subConn.Some?
  {
    if |p.remotes| == 0 {
      return Picked(None, Some(ErrNoSubConnAvailable));
    }
    r := Pick(p, outgoing);
  }
}
