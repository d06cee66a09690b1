/** The toolkit's BuildingManager: a registry of builders, and the build decision
    stated in its header as the integer program
      minimise  sum_i c_i * y_i   subject to   sum_i phi_i * y_i >= Phi,  y_i integer >= 0
    over the producers of the demanded commodity. */
module BuildingManagement {
  import opened Strings

  /** Opaque identities standing for the Builder*, CommodityProducer* and Agent*
      pointers of the source. */
  type BuilderId = nat
  type ProducerId = nat
  type AgentId = nat


  /** BuildOrder: build `number` producers of type `producer` through `builder`. */
  datatype BuildOrder = BuildOrder(number: int, builder: BuilderId, producer: ProducerId)

  class BuildingManager {
    /** The managing agent given at construction (None stands for NULL). */
    const agent: Option<AgentId>
    var builders: set<BuilderId>

    /** BuildingManager(Agent* agent = NULL): no builders registered yet. */
    constructor (agent: Option<AgentId>)
      ensures this.agent == agent && builders == {}
    {
      this.agent := agent;
      builders := {};
    }

    /** builders_.insert(builder) */
    method Register(builder: BuilderId)
      modifies this
      ensures builders == old(builders) + {builder}
    {
      builders := builders + {builder};
    }

    /** builders_.erase(builder) */
    method Unregister(builder: BuilderId)
      modifies this
      ensures builders == old(builders) - {builder}
    {
      builders := builders - {builder};
    }

    function Builders(): (r: set<BuilderId>)
      reads this
      ensures r == builders
    {
      builders
    }

    function Agent(): (r: Option<AgentId>)
      ensures r == agent
    {
      agent
    }
  }

  /** A default-constructed manager has no agent and no builders. */
  method NewManagerIsEmpty() returns (m: BuildingManager)
    ensures m.Agent() == None && m.Builders() == {}
  {
    m := new BuildingManager(None);
  }

  /** Registering one builder makes it a member; registering it again changes nothing. */
  method RegisterIsIdempotent(m: BuildingManager, b: BuilderId)
    modifies m
    ensures b in m.builders
    ensures m.builders == old(m.builders) + {b}
  {
    m.Register(b);
    ghost var once := m.builders;
    m.Register(b);
    assert m.builders == once;
  }

  /** Unregistering a builder that is absent leaves the set as it was. */
  method UnregisterAbsentIsNoOp(m: BuildingManager, b: BuilderId)
    requires b !in m.builders
    modifies m
    ensures m.builders == old(m.builders)
  {
    m.Unregister(b);
  }

  /** Register of a fresh builder followed by Unregister restores the original set. */
  method RegisterThenUnregisterRestores(m: BuildingManager, b: BuilderId)
    requires b !in m.builders
    modifies m
    ensures m.builders == old(m.builders)
  {
    m.Register(b);
    m.Unregister(b);
  }

  // ---------------------------------------------------------------------------
  // The build decision

  /** One producer type of the demanded commodity, offered by a builder: its
      nameplate capacity phi_i and its build cost c_i. */
  datatype Candidate = Candidate(builder: BuilderId, producer: ProducerId, capacity: nat, cost: nat)

  /** sum_i phi_i * y_i */
  function Capacity(cs: seq<Candidate>, y: seq<nat>): nat
    requires |y| == |cs|
  {
    if cs == [] then 0 else cs[0].capacity * y[0] + Capacity(cs[1..], y[1..])
  }

  /** sum_i c_i * y_i */
  function Cost(cs: seq<Candidate>, y: seq<nat>): nat
    requires |y| == |cs|
  {
    if cs == [] then 0 else cs[0].cost * y[0] + Cost(cs[1..], y[1..])
  }

  /** y is an assignment of non-negative integer counts meeting the demand. */
  predicate Feasible(cs: seq<Candidate>, y: seq<nat>, demand: int)
  {
    |y| == |cs| && Capacity(cs, y) >= demand
  }

  /** y is feasible and no feasible assignment is cheaper. */
  ghost predicate Optimal(cs: seq<Candidate>, y: seq<nat>, demand: int)
  {
    Feasible(cs, y, demand) &&
    forall z: seq<nat> :: Feasible(cs, z, demand) ==> Cost(cs, y) <= Cost(cs, z)
  }

  /** Some producer can contribute capacity at all. */
  predicate Producible(cs: seq<Candidate>)
  {
    exists i :: 0 <= i < |cs| && cs[i].capacity > 0
  }

  function Zeros(n: nat): (y: seq<nat>)
    ensures |y| == n && forall i :: 0 <= i < n ==> y[i] == 0
  {
    seq(n, _ => 0)
  }

  /** One more unit of producer i. */
  function Inc(y: seq<nat>, i: nat): (r: seq<nat>)
    requires i < |y|
    ensures |r| == |y|
  {
    y[i := y[i] + 1]
  }

  /** What remains of a demand once `c` more capacity is built. */
  function Remaining(d: nat, c: nat): nat
  {
    if d <= c then 0 else d - c
  }

  lemma {:induction false} CapacityZeros(cs: seq<Candidate>)
    ensures Capacity(cs, Zeros(|cs|)) == 0 && Cost(cs, Zeros(|cs|)) == 0
  {
    if cs != [] {
      assert Zeros(|cs|)[1..] == Zeros(|cs| - 1);
      CapacityZeros(cs[1..]);
    }
  }

  /** Building one more unit of producer i adds exactly phi_i capacity and c_i cost. */
  lemma {:induction false} IncAdds(cs: seq<Candidate>, y: seq<nat>, i: nat)
    requires |y| == |cs| && i < |cs|
    ensures Capacity(cs, Inc(y, i)) == Capacity(cs, y) + cs[i].capacity
    ensures Cost(cs, Inc(y, i)) == Cost(cs, y) + cs[i].cost
  {
    if i == 0 {
      assert Inc(y, i)[1..] == y[1..];
    } else {
      assert Inc(y, i)[1..] == Inc(y[1..], i - 1);
      IncAdds(cs[1..], y[1..], i - 1);
    }
  }

  /** A positive total capacity comes from some producer with a positive count and
      a positive capacity. */
  lemma {:induction false} PositiveTerm(cs: seq<Candidate>, y: seq<nat>) returns (j: nat)
    requires |y| == |cs| && Capacity(cs, y) > 0
    ensures j < |cs| && y[j] > 0 && cs[j].capacity > 0
  {
    if cs[0].capacity * y[0] > 0 {
      j := 0;
    } else {
      var k := PositiveTerm(cs[1..], y[1..]);
      j := k + 1;
    }
  }

  /** Without a producer of positive capacity, every assignment provides nothing. */
  lemma {:induction false} UnproducibleHasNoCapacity(cs: seq<Candidate>, y: seq<nat>)
    requires |y| == |cs| && !Producible(cs)
    ensures Capacity(cs, y) == 0
  {
    if cs != [] {
      assert cs[0].capacity == 0;
      assert !Producible(cs[1..]) by {
        forall i | 0 <= i < |cs[1..]| ensures cs[1..][i].capacity == 0 {
          assert cs[1..][i] == cs[i + 1];
        }
      }
      UnproducibleHasNoCapacity(cs[1..], y[1..]);
    }
  }

  /** Reference solver for the build program: the cheapest assignment meeting the
      demand `d`, found by branching on the producer that supplies the last unit. */
  function Best(cs: seq<Candidate>, d: nat): (y: seq<nat>)
    requires d == 0 || Producible(cs)
    ensures Feasible(cs, y, d)
    decreases d, 1
  {
    if d == 0 then
      CapacityZeros(cs);
      Zeros(|cs|)
    else
      var r := BestFrom(cs, d, 0);
      r.value
  }

  /** The cheapest of the branches "one more unit of producer j" over j >= i with a
      positive capacity; None when there is no such producer. */
  function BestFrom(cs: seq<Candidate>, d: nat, i: nat): (r: Option<seq<nat>>)
    requires d > 0 && i <= |cs|
    ensures r.Some? <==> exists j :: i <= j < |cs| && cs[j].capacity > 0
    ensures r.Some? ==> Feasible(cs, r.value, d)
    ensures r.Some? ==> forall j :: i <= j < |cs| && cs[j].capacity > 0 ==>
      Cost(cs, r.value) <= cs[j].cost + Cost(cs, Best(cs, Remaining(d, cs[j].capacity)))
    decreases d, 0, |cs| - i
  {
    if i == |cs| then None
    else
      var rest := BestFrom(cs, d, i + 1);
      if cs[i].capacity == 0 then
        assert forall j :: i <= j < |cs| && cs[j].capacity > 0 ==> i + 1 <= j;
        rest
      else
        var sub := Best(cs, Remaining(d, cs[i].capacity));
        var here := Inc(sub, i);
        IncAdds(cs, sub, i);
        match rest
        case None => Some(here)
        case Some(other) => if Cost(cs, here) <= Cost(cs, other) then Some(here) else Some(other)
  }

  /** The reference solver is optimal: no feasible assignment costs less. */
  lemma {:induction false} BestIsOptimal(cs: seq<Candidate>, d: nat)
    requires d == 0 || Producible(cs)
    ensures Optimal(cs, Best(cs, d), d)
  {
    forall z: seq<nat> | Feasible(cs, z, d) ensures Cost(cs, Best(cs, d)) <= Cost(cs, z) {
      BestBelow(cs, d, z);
    }
  }

  lemma {:induction false} BestBelow(cs: seq<Candidate>, d: nat, z: seq<nat>)
    requires d == 0 || Producible(cs)
    requires Feasible(cs, z, d)
    ensures Cost(cs, Best(cs, d)) <= Cost(cs, z)
    decreases d
  {
    if d == 0 {
      CapacityZeros(cs);
    } else {
      var j := PositiveTerm(cs, z);
      var smaller := z[j := z[j] - 1];
      assert z == Inc(smaller, j);
      IncAdds(cs, smaller, j);
      var rem := Remaining(d, cs[j].capacity);
      assert Feasible(cs, smaller, rem);
      BestBelow(cs, rem, smaller);
    }
  }

  /** The build orders for an assignment: one order per producer with a positive count. */
  function OrdersFor(cs: seq<Candidate>, y: seq<nat>): (orders: seq<BuildOrder>)
    requires |y| == |cs|
    ensures |orders| <= |cs|
    ensures forall i :: 0 <= i < |cs| && y[i] > 0 ==> BuildOrder(y[i], cs[i].builder, cs[i].producer) in orders
    ensures forall o :: o in orders ==>
      exists i :: 0 <= i < |cs| && y[i] > 0 && o == BuildOrder(y[i], cs[i].builder, cs[i].producer)
    ensures forall o :: o in orders ==> o.number > 0
  {
    if cs == [] then []
    else
      var tail := OrdersFor(cs[1..], y[1..]);
      if y[0] > 0 then [BuildOrder(y[0], cs[0].builder, cs[0].producer)] + tail else tail
  }

  /** MakeBuildDecision(commodity, demand), given the producers of the commodity that
      the registered builders offer. Returns the orders of an optimal solution of the
      build program; no orders when the demand is not positive or cannot be met. */
  function MakeBuildDecision(cs: seq<Candidate>, demand: int): (orders: seq<BuildOrder>)
    ensures demand <= 0 || !Producible(cs) ==> orders == []
    ensures demand > 0 && Producible(cs) ==>
      exists y :: Optimal(cs, y, demand) && orders == OrdersFor(cs, y)
    ensures forall o :: o in orders ==> o.number > 0
  {
    if demand <= 0 || !Producible(cs) then []
    else
      var y := Best(cs, demand);
      BestIsOptimal(cs, demand);
      OrdersFor(cs, y)
  }

  /** When no producer has capacity, a positive demand cannot be met by any
      assignment, so an empty decision is the only possible outcome. */
  lemma InfeasibleWithoutCapacity(cs: seq<Candidate>, demand: int, y: seq<nat>)
    requires demand > 0 && !Producible(cs)
    ensures !Feasible(cs, y, demand)
  {
    if |y| == |cs| {
      UnproducibleHasNoCapacity(cs, y);
    }
  }

  /** Demand 100, one producer of capacity 30 and cost 5: the decision is to build
      four (120 >= 100), not three (90 < 100). */
  lemma FourUnitsCoverOneHundred(b: BuilderId, p: ProducerId)
    ensures MakeBuildDecision([Candidate(b, p, 30, 5)], 100) == [BuildOrder(4, b, p)]
  {
    var cs := [Candidate(b, p, 30, 5)];
    assert Producible(cs) by { assert cs[0].capacity > 0; }
    var orders := MakeBuildDecision(cs, 100);
    var y :| Optimal(cs, y, 100) && orders == OrdersFor(cs, y);
    assert Capacity(cs, y) == 30 * y[0];
    assert Cost(cs, y) == 5 * y[0];
    assert y[0] >= 4;
    var four: seq<nat> := [4];
    assert Capacity(cs, four) == 120;
    assert Cost(cs, four) == 20;
    assert Feasible(cs, four, 100);
    assert y[0] <= 4;
    assert OrdersFor(cs, y) == [BuildOrder(4, b, p)];
  }
}
