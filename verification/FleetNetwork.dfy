/**
  The private network of a fleet: slots and addresses handed to machines as they join, the one machine
  that is the server, and the peer lists that make it the hub.  Removing a machine waits for the
  directory between its guard and its deletion, and machines may join in between.
 */
module FleetNetwork {
  import opened Common

  type MachineId = nat
  type PublicKey = string

  const FIRST_SLOT := 2
  const LAST_SLOT := 65534

  datatype Node = Node(id: MachineId, slot: nat, server: bool, key: PublicKey)

  /** The nodes in the order they were first stored. */
  type Nodes = seq<Node>

  predicate Has(nodes: Nodes, id: MachineId) {
    exists i :: 0 <= i < |nodes| && nodes[i].id == id
  }

  function Position(nodes: Nodes, id: MachineId): (i: nat)
    requires Has(nodes, id)
    ensures i < |nodes| && nodes[i].id == id
    ensures forall k :: 0 <= k < i ==> nodes[k].id != id
  {
    if nodes[0].id == id then 0
    else
      assert Has(nodes[1..], id) by {
        var i :| 0 <= i < |nodes| && nodes[i].id == id;
        assert nodes[1..][i - 1].id == id;
      }
      var i := Position(nodes[1..], id);
      assert forall k :: 0 < k <= i ==> nodes[k] == nodes[1..][k - 1];
      1 + i
  }

  function MaxSlot(nodes: Nodes): (m: nat)
    ensures m >= 1 && forall i :: 0 <= i < |nodes| ==> nodes[i].slot <= m
    ensures m == 1 || exists i :: 0 <= i < |nodes| && nodes[i].slot == m
  {
    if |nodes| == 0 then 1
    else
      var n := |nodes| - 1;
      var m := MaxSlot(nodes[..n]);
      assert forall i :: 0 <= i < n ==> nodes[..n][i] == nodes[i];
      if nodes[n].slot > m then nodes[n].slot else m
  }

  predicate HasServer(nodes: Nodes) {
    exists i :: 0 <= i < |nodes| && nodes[i].server
  }

  predicate KeyTaken(nodes: Nodes, id: MachineId, key: PublicKey) {
    exists i :: 0 <= i < |nodes| && nodes[i].id != id && nodes[i].key == key
  }

  function NewNode(nodes: Nodes, id: MachineId, key: PublicKey): Node {
    if Has(nodes, id) then nodes[Position(nodes, id)].(key := key)
    else Node(id, MaxSlot(nodes) + 1, !HasServer(nodes), key)
  }

  /** networkNode: a machine asks for its configuration, and joins or refreshes its key by it. */
  function Join(nodes: Nodes, id: MachineId, key: PublicKey): Result<Nodes> {
    var node := NewNode(nodes, id, key);
    if node.slot > LAST_SLOT || KeyTaken(nodes, id, key) then Fail(409)
    else if Has(nodes, id) then Ok(nodes[Position(nodes, id) := node])
    else Ok(nodes + [node])
  }

  function Without(nodes: Nodes, id: MachineId): Nodes {
    if |nodes| == 0 then []
    else if nodes[|nodes| - 1].id == id then Without(nodes[..|nodes| - 1], id)
    else Without(nodes[..|nodes| - 1], id) + [nodes[|nodes| - 1]]
  }

  lemma {:induction false} WithoutMembers(nodes: Nodes, id: MachineId)
    ensures forall n :: n in Without(nodes, id) <==> n in nodes && n.id != id
    decreases |nodes|
  {
    if |nodes| > 0 {
      WithoutMembers(nodes[..|nodes| - 1], id);
      assert nodes == nodes[..|nodes| - 1] + [nodes[|nodes| - 1]];
    }
  }

  // ----- The network over any history -----

  /** What distinguishes the nodes of a fleet. */
  predicate Distinct(nodes: Nodes) {
    forall i, j :: 0 <= i < j < |nodes| ==>
      nodes[i].id != nodes[j].id && nodes[i].slot != nodes[j].slot && nodes[i].key != nodes[j].key
      && !(nodes[i].server && nodes[j].server)
  }

  predicate NetworkInv(nodes: Nodes) {
    Distinct(nodes) && forall i :: 0 <= i < |nodes| ==> FIRST_SLOT <= nodes[i].slot <= LAST_SLOT
  }

  lemma JoinInv(nodes: Nodes, id: MachineId, key: PublicKey)
    requires NetworkInv(nodes) && Join(nodes, id, key).Ok?
    ensures NetworkInv(Join(nodes, id, key).value)
  {}

  lemma {:induction false} WithoutInv(nodes: Nodes, id: MachineId)
    requires NetworkInv(nodes)
    ensures NetworkInv(Without(nodes, id))
    decreases |nodes|
  {
    if |nodes| > 0 {
      var n := |nodes| - 1;
      WithoutInv(nodes[..n], id);
      WithoutMembers(nodes[..n], id);
      var rest := Without(nodes[..n], id);
      if nodes[n].id != id {
        forall i | 0 <= i < |rest|
          ensures rest[i] in nodes[..n]
        {
          assert rest[i] in rest;
        }
        assert Distinct(rest + [nodes[n]]);
      }
    }
  }

  /** `removing` holds the machines whose removal has passed its guard. */
  datatype State = State(nodes: Nodes, machines: set<MachineId>, removing: set<MachineId>)

  datatype Event =
    | Enroll(id: MachineId)
    | Configure(id: MachineId, key: PublicKey)
    | BeginRemoval(id: MachineId)
    | FinishRemoval(id: MachineId)
    | Crash

  function Initial(): State {
    State([], {}, {})
  }

  predicate IsServer(nodes: Nodes, id: MachineId) {
    exists i :: 0 <= i < |nodes| && nodes[i].id == id && nodes[i].server
  }

  predicate HasOthers(nodes: Nodes, id: MachineId) {
    exists i :: 0 <= i < |nodes| && nodes[i].id != id
  }

  function Apply(s: State, e: Event): State {
    match e
    case Enroll(id) => s.(machines := s.machines + {id})
    case Configure(id, key) =>
      if id !in s.machines || Join(s.nodes, id, key).Fail? then s else s.(nodes := Join(s.nodes, id, key).value)
    case BeginRemoval(id) =>
      if id !in s.machines || (IsServer(s.nodes, id) && HasOthers(s.nodes, id)) then s
      else s.(removing := s.removing + {id})
    case FinishRemoval(id) =>
      if id !in s.removing then s
      else State(Without(s.nodes, id), s.machines - {id}, s.removing - {id})
    case Crash => s.(removing := {})
  }

  function Run(s: State, events: seq<Event>): State
    decreases |events|
  {
    if |events| == 0 then s else Run(Apply(s, events[0]), events[1..])
  }

  lemma ApplyInv(s: State, e: Event)
    requires NetworkInv(s.nodes)
    ensures NetworkInv(Apply(s, e).nodes)
  {
    match e
    case Configure(id, key) => if Join(s.nodes, id, key).Ok? { JoinInv(s.nodes, id, key); }
    case FinishRemoval(id) => WithoutInv(s.nodes, id);
    case _ =>
  }

  lemma {:induction false} RunInv(s: State, events: seq<Event>)
    requires NetworkInv(s.nodes)
    ensures NetworkInv(Run(s, events).nodes)
    decreases |events|
  {
    if |events| > 0 {
      ApplyInv(s, events[0]);
      RunInv(Apply(s, events[0]), events[1..]);
    }
  }

  /** Over any history of joins, refreshes and removals, interleaved at will: slots stay in range, and
      slots, keys and machines stay distinct, and there is at most one server. */
  lemma NetworkSafety(events: seq<Event>)
    ensures NetworkInv(Run(Initial(), events).nodes)
  {
    RunInv(Initial(), events);
  }

  lemma {:induction false} SlotStep(s: State, e: Event, n: Node)
    requires NetworkInv(s.nodes) && n in s.nodes && !(e == FinishRemoval(n.id))
    ensures exists m :: m in Apply(s, e).nodes && m.id == n.id && m.slot == n.slot && m.server == n.server
  {
    var t := Apply(s, e);
    var i :| 0 <= i < |s.nodes| && s.nodes[i] == n;
    match e
    case Configure(id, key) =>
      if t != s {
        if Has(s.nodes, id) {
          assert t.nodes[i] in t.nodes;
        } else {
          assert n in s.nodes + [NewNode(s.nodes, id, key)];
        }
      }
    case FinishRemoval(id) => WithoutMembers(s.nodes, id);
    case _ =>
  }

  /** A machine keeps its slot, and with it its address and its part, until it is removed. */
  lemma {:induction false} SlotsAreStable(s: State, events: seq<Event>, n: Node)
    requires NetworkInv(s.nodes) && n in s.nodes && FinishRemoval(n.id) !in events
    ensures exists m :: m in Run(s, events).nodes && m.id == n.id && m.slot == n.slot && m.server == n.server
    decreases |events|
  {
    if |events| > 0 {
      var t := Apply(s, events[0]);
      ApplyInv(s, events[0]);
      SlotStep(s, events[0], n);
      var m :| m in t.nodes && m.id == n.id && m.slot == n.slot && m.server == n.server;
      SlotsAreStable(t, events[1..], m);
    }
  }

  // ----- The server -----

  predicate Served(nodes: Nodes) {
    |nodes| > 0 ==> HasServer(nodes)
  }

  /** A fleet loses its server exactly when the removal of the server finishes after somebody joined it
      in the meantime. */
  lemma ServerLostIff(s: State, e: Event)
    requires NetworkInv(s.nodes) && Served(s.nodes)
    ensures
      !Served(Apply(s, e).nodes)
      <==> e.FinishRemoval? && e.id in s.removing && IsServer(s.nodes, e.id) && HasOthers(s.nodes, e.id)
  {
    match e
    case Configure(id, key) =>
      if Join(s.nodes, id, key).Ok? { JoinServed(s.nodes, id, key); }
    case FinishRemoval(id) =>
      if id in s.removing { WithoutServed(s.nodes, id); }
    case _ =>
  }

  /** Whoever joins a fleet without a server becomes the server. */
  lemma JoinServed(nodes: Nodes, id: MachineId, key: PublicKey)
    requires NetworkInv(nodes) && Join(nodes, id, key).Ok? && (Served(nodes) || !Has(nodes, id))
    ensures Served(Join(nodes, id, key).value)
  {
    var t := Join(nodes, id, key).value;
    if HasServer(nodes) {
      var i :| 0 <= i < |nodes| && nodes[i].server;
      assert t[i].server;
    } else {
      assert t[|t| - 1].server;
    }
  }

  lemma WithoutServed(nodes: Nodes, id: MachineId)
    requires NetworkInv(nodes) && Served(nodes)
    ensures !Served(Without(nodes, id)) <==> IsServer(nodes, id) && HasOthers(nodes, id)
  {
    if IsServer(nodes, id) { ServerGoes(nodes, id); } else { ServerStays(nodes, id); }
  }

  /** The only server goes, and nobody takes over. */
  lemma ServerGoes(nodes: Nodes, id: MachineId)
    requires Distinct(nodes) && IsServer(nodes, id)
    ensures !HasServer(Without(nodes, id))
    ensures |Without(nodes, id)| > 0 <==> HasOthers(nodes, id)
  {
    WithoutMembers(nodes, id);
    var t := Without(nodes, id);
    forall k | 0 <= k < |t|
      ensures !t[k].server && HasOthers(nodes, id)
    {
      assert t[k] in t;
      var m :| 0 <= m < |nodes| && nodes[m] == t[k];
    }
    if HasOthers(nodes, id) {
      var j :| 0 <= j < |nodes| && nodes[j].id != id;
      assert nodes[j] in t;
    }
  }

  lemma ServerStays(nodes: Nodes, id: MachineId)
    requires Served(nodes) && !IsServer(nodes, id)
    ensures Served(Without(nodes, id))
  {
    WithoutMembers(nodes, id);
    var t := Without(nodes, id);
    if |nodes| > 0 {
      var i :| 0 <= i < |nodes| && nodes[i].server;
      assert nodes[i] in t;
      var k :| 0 <= k < |t| && t[k] == nodes[i];
    }
  }

  /** Nobody joins while the server is being removed. */
  predicate Undisturbed(s: State) {
    forall id :: id in s.removing && IsServer(s.nodes, id) ==> !HasOthers(s.nodes, id)
  }

  ghost predicate AlwaysUndisturbed(s: State, events: seq<Event>)
    decreases |events|
  {
    Undisturbed(s) && (|events| > 0 ==> AlwaysUndisturbed(Apply(s, events[0]), events[1..]))
  }

  /** In every history in which nobody joins during the server's removal, a fleet that is not empty has
      exactly one server. */
  lemma {:induction false} ExactlyOneServer(s: State, events: seq<Event>)
    requires NetworkInv(s.nodes) && Served(s.nodes) && AlwaysUndisturbed(s, events)
    ensures NetworkInv(Run(s, events).nodes) && Served(Run(s, events).nodes)
    decreases |events|
  {
    if |events| > 0 {
      ApplyInv(s, events[0]);
      ServerLostIff(s, events[0]);
      ExactlyOneServer(Apply(s, events[0]), events[1..]);
    }
  }

  lemma Then(s: State, e: Event, t: State, rest: seq<Event>)
    requires Apply(s, e) == t
    ensures Run(s, [e] + rest) == Run(t, rest)
  {}

  function JoinedMeanwhile(): seq<Event> {
    [Enroll(1)] + ([Configure(1, "a")]
    + ([Enroll(2)] + ([BeginRemoval(1)] + ([Configure(2, "b")] + ([FinishRemoval(1)] + [])))))
  }

  /** A machine joins that is no node yet. */
  predicate JoinsAnew(s: State, e: Event) {
    e.Configure? && e.id in s.machines && !Has(s.nodes, e.id) && Join(s.nodes, e.id, e.key).Ok?
  }

  /** A fleet without a server gets one exactly when a new machine joins. */
  lemma ServerReturnsIff(s: State, e: Event)
    requires !HasServer(s.nodes)
    ensures HasServer(Apply(s, e).nodes) <==> JoinsAnew(s, e)
  {
    match e
    case Configure(id, key) =>
      if JoinsAnew(s, e) {
        var t := Join(s.nodes, id, key).value;
        assert t[|t| - 1].server;
      }
    case FinishRemoval(id) =>
      WithoutMembers(s.nodes, id);
      assert forall n :: n in Without(s.nodes, id) ==> n in s.nodes && !n.server;
    case _ =>
  }

  ghost predicate NobodyJoinsAnew(s: State, events: seq<Event>)
    decreases |events|
  {
    |events| > 0 ==> !JoinsAnew(s, events[0]) && NobodyJoinsAnew(Apply(s, events[0]), events[1..])
  }

  /** Refreshes, removals and failed joins never give it one. */
  lemma {:induction false} ServerlessUntilJoin(s: State, events: seq<Event>)
    requires !HasServer(s.nodes) && NobodyJoinsAnew(s, events)
    ensures !HasServer(Run(s, events).nodes)
    decreases |events|
  {
    if |events| > 0 {
      ServerReturnsIff(s, events[0]);
      ServerlessUntilJoin(Apply(s, events[0]), events[1..]);
    }
  }

  /** Without that care a fleet ends up without a server. */
  lemma ServerCanBeLost()
    ensures
      var s := Run(Initial(), JoinedMeanwhile());
      |s.nodes| == 1 && !HasServer(s.nodes)
  {
    var one := Node(1, 2, true, "a");
    var a := State([], {1}, {});
    var b := State([one], {1}, {});
    assert Join([], 1, "a") == Ok([one]) by { assert [] + [one] == [one]; }
    var c := State([one], {1, 2}, {});
    LoseServer(c);
    var rest := [BeginRemoval(1)] + ([Configure(2, "b")] + ([FinishRemoval(1)] + []));
    Then(b, Enroll(2), c, rest);
    Then(a, Configure(1, "a"), b, [Enroll(2)] + rest);
    Then(Initial(), Enroll(1), a, [Configure(1, "a")] + ([Enroll(2)] + rest));
  }

  lemma LoseServer(s: State)
    requires s == State([Node(1, 2, true, "a")], {1, 2}, {})
    ensures
      var t := Run(s, [BeginRemoval(1)] + ([Configure(2, "b")] + ([FinishRemoval(1)] + [])));
      t.nodes == [Node(2, 3, false, "b")]
  {
    var one, two := Node(1, 2, true, "a"), Node(2, 3, false, "b");
    var d := State([one], {1, 2}, {1});
    var f := State([one, two], {1, 2}, {1});
    SecondJoins(one, two);
    FirstLeaves(one, two);
    var g := Apply(f, FinishRemoval(1));
    Then(f, FinishRemoval(1), g, []);
    Then(d, Configure(2, "b"), f, [FinishRemoval(1)] + []);
    Then(s, BeginRemoval(1), d, [Configure(2, "b")] + ([FinishRemoval(1)] + []));
  }

  lemma SecondJoins(one: Node, two: Node)
    requires one == Node(1, 2, true, "a") && two == Node(2, 3, false, "b")
    ensures Join([one], 2, "b") == Ok([one, two])
  {
    assert [one][0].server && one.key[0] != two.key[0];
    assert [one][..0] == [] && MaxSlot([]) == 1 && MaxSlot([one]) == 2;
    assert !Has([one], 2) && NewNode([one], 2, "b") == two;
    assert !KeyTaken([one], 2, "b");
    assert [one] + [two] == [one, two];
  }

  lemma FirstLeaves(one: Node, two: Node)
    requires one.id == 1 && two.id == 2
    ensures Without([one, two], 1) == [two]
  {
    assert [one][..0] == [];
    assert Without([one], 1) == Without([], 1) == [];
    assert [one, two][..1] == [one];
    assert Without([one, two], 1) == [] + [two];
  }

  // ----- Addresses and routes -----

  datatype Address = Address(a: Byte, b: Byte, c: Byte, d: Byte)

  /** 10.77.(slot >> 8).(slot % 256) */
  function AddressOf(slot: nat): Address
    requires slot <= LAST_SLOT
  {
    Address(10, 77, slot / 256, slot % 256)
  }

  /** Different slots have different addresses, and none of them is the network's first or last. */
  lemma AddressesInjective(x: nat, y: nat)
    requires x <= LAST_SLOT && y <= LAST_SLOT
    ensures AddressOf(x) == AddressOf(y) <==> x == y
    ensures FIRST_SLOT <= x ==> AddressOf(x) != Address(10, 77, 0, 0) && AddressOf(x) != Address(10, 77, 255, 255)
  {}

  /** What a peer may be sent, and may send: one address, or the whole fleet network. */
  datatype Allowed = Host(address: Address) | Fleet

  predicate Covers(allowed: Allowed, address: Address) {
    match allowed
    case Host(h) => h == address
    case Fleet => address.a == 10 && address.b == 77
  }

  datatype Peer = Peer(id: MachineId, key: PublicKey, allowed: Allowed)

  /** The peer list in a machine's configuration. */
  function Peers(nodes: Nodes, me: Node): seq<Peer>
    requires NetworkInv(nodes)
    decreases |nodes|
  {
    if |nodes| == 0 then []
    else
      var n := nodes[|nodes| - 1];
      var rest := Peers(nodes[..|nodes| - 1], me);
      if n.id != me.id && (me.server || n.server)
      then rest + [Peer(n.id, n.key, if me.server then Host(AddressOf(n.slot)) else Fleet)]
      else rest
  }

  /** The one node a peer stands for. */
  lemma {:induction false} PeersAre(nodes: Nodes, me: Node)
    requires NetworkInv(nodes)
    ensures forall p :: p in Peers(nodes, me) <==>
      exists i :: 0 <= i < |nodes| && nodes[i].id != me.id && (me.server || nodes[i].server)
                  && p == Peer(nodes[i].id, nodes[i].key, if me.server then Host(AddressOf(nodes[i].slot)) else Fleet)
    decreases |nodes|
  {
    if |nodes| > 0 {
      var n := |nodes| - 1;
      PeersAre(nodes[..n], me);
      assert forall i :: 0 <= i < n ==> nodes[..n][i] == nodes[i];
    }
  }

  /** A packet for `to` may leave `me` towards this peer. */
  ghost predicate Sends(nodes: Nodes, me: Node, peer: MachineId, to: Address)
    requires NetworkInv(nodes)
  {
    exists p :: p in Peers(nodes, me) && p.id == peer && Covers(p.allowed, to)
  }

  /** `me` accepts a packet of `from` that this peer passes on. */
  ghost predicate Accepts(nodes: Nodes, me: Node, peer: MachineId, from: Address)
    requires NetworkInv(nodes)
  {
    Sends(nodes, me, peer, from)
  }

  /** A packet from `a` to `b` goes to `b` at once, with both ends agreeing. */
  ghost predicate OneHop(nodes: Nodes, a: Node, b: Node)
    requires NetworkInv(nodes) && a.slot <= LAST_SLOT && b.slot <= LAST_SLOT
  {
    Sends(nodes, a, b.id, AddressOf(b.slot)) && Accepts(nodes, b, a.id, AddressOf(a.slot))
  }

  /** The packet goes by way of `hub`, every hop sent and accepted. */
  ghost predicate TwoHops(nodes: Nodes, a: Node, hub: Node, b: Node)
    requires NetworkInv(nodes) && a.slot <= LAST_SLOT && b.slot <= LAST_SLOT
  {
    && Sends(nodes, a, hub.id, AddressOf(b.slot)) && Accepts(nodes, hub, a.id, AddressOf(a.slot))
    && Sends(nodes, hub, b.id, AddressOf(b.slot)) && Accepts(nodes, b, hub.id, AddressOf(a.slot))
  }

  lemma HubReaches(nodes: Nodes, hub: Node, n: Node)
    requires NetworkInv(nodes) && hub in nodes && n in nodes && hub.server && n.id != hub.id
    ensures Sends(nodes, hub, n.id, AddressOf(n.slot))
    ensures forall x: nat :: x <= LAST_SLOT ==> Sends(nodes, n, hub.id, AddressOf(x))
  {
    PeersAre(nodes, hub);
    PeersAre(nodes, n);
    var i :| 0 <= i < |nodes| && nodes[i] == n;
    var h :| 0 <= h < |nodes| && nodes[h] == hub;
    assert Peer(n.id, n.key, Host(AddressOf(n.slot))) in Peers(nodes, hub);
    assert !n.server;
    assert Peer(hub.id, hub.key, Fleet) in Peers(nodes, n);
  }

  /** With a server, the generated peer lists carry a packet between any two nodes, directly if one of
      them is the server and through it otherwise. */
  lemma AnyTwoNodesConnect(nodes: Nodes, hub: Node, a: Node, b: Node)
    requires NetworkInv(nodes) && hub in nodes && hub.server && a in nodes && b in nodes && a.id != b.id
    ensures if a == hub || b == hub then OneHop(nodes, a, b) else TwoHops(nodes, a, hub, b)
  {
    if a.id != hub.id { HubReaches(nodes, hub, a); } else { SameNode(nodes, a, hub); }
    if b.id != hub.id { HubReaches(nodes, hub, b); } else { SameNode(nodes, b, hub); }
  }

  lemma SameNode(nodes: Nodes, a: Node, b: Node)
    requires Distinct(nodes) && a in nodes && b in nodes && a.id == b.id
    ensures a == b
  {}

  /** The hub's routes are disjoint: every address leads to at most one of its peers. */
  lemma HubRoutesDisjoint(nodes: Nodes, hub: Node, p: MachineId, q: MachineId, to: Address)
    requires NetworkInv(nodes) && hub in nodes && hub.server && Sends(nodes, hub, p, to) && Sends(nodes, hub, q, to)
    ensures p == q
  {
    PeersAre(nodes, hub);
    var x :| x in Peers(nodes, hub) && x.id == p && Covers(x.allowed, to);
    var y :| y in Peers(nodes, hub) && y.id == q && Covers(y.allowed, to);
    var i :| 0 <= i < |nodes| && nodes[i].id == x.id && x.allowed == Host(AddressOf(nodes[i].slot));
    var j :| 0 <= j < |nodes| && nodes[j].id == y.id && y.allowed == Host(AddressOf(nodes[j].slot));
    AddressesInjective(nodes[i].slot, nodes[j].slot);
  }

  /** Every other machine has one peer, the server. */
  lemma SpokesKnowOnlyTheHub(nodes: Nodes, me: Node, p: MachineId, to: Address)
    requires NetworkInv(nodes) && me in nodes && !me.server && Sends(nodes, me, p, to)
    ensures IsServer(nodes, p)
  {
    PeersAre(nodes, me);
  }

  // ----- The nodes, changed in place -----

  class FleetStore {
    var nodes: Nodes

    constructor ()
      ensures nodes == []
    {
      nodes := [];
    }

    /** The first node of the machine, or -1. */
    method Find(id: MachineId) returns (previous: int)
      ensures previous != -1 <==> Has(nodes, id)
      ensures Has(nodes, id) ==> previous == Position(nodes, id)
    {
      previous := 0;
      while previous < |nodes| && nodes[previous].id != id
        invariant 0 <= previous <= |nodes|
        invariant forall k :: 0 <= k < previous ==> nodes[k].id != id
      {
        previous := previous + 1;
      }
      if previous == |nodes| {
        previous := -1;
      }
    }

    /** The largest slot, and whether there is a server. */
    method Survey() returns (top: nat, served: bool)
      ensures top == MaxSlot(nodes)
      ensures served <==> HasServer(nodes)
    {
      top, served := 1, false;
      var i := 0;
      while i < |nodes|
        invariant 0 <= i <= |nodes|
        invariant top == MaxSlot(nodes[..i])
        invariant served <==> exists k :: 0 <= k < i && nodes[k].server
      {
        assert nodes[..i + 1][..i] == nodes[..i];
        if nodes[i].slot > top {
          top := nodes[i].slot;
        }
        served := served || nodes[i].server;
        i := i + 1;
      }
      assert nodes[..i] == nodes;
    }

    method IsTaken(id: MachineId, key: PublicKey) returns (taken: bool)
      ensures taken <==> KeyTaken(nodes, id, key)
    {
      taken := false;
      var i := 0;
      while i < |nodes|
        invariant 0 <= i <= |nodes|
        invariant taken <==> exists k :: 0 <= k < i && nodes[k].id != id && nodes[k].key == key
      {
        taken := taken || (nodes[i].id != id && nodes[i].key == key);
        i := i + 1;
      }
    }

    /** networkNode */
    method JoinMachine(id: MachineId, key: PublicKey) returns (status: nat)
      modifies this
      ensures status == 0 <==> Join(old(nodes), id, key).Ok?
      ensures status == 0 ==> nodes == Join(old(nodes), id, key).value
      ensures status != 0 ==> unchanged(this) && Join(old(nodes), id, key) == Fail(status)
    {
      var previous := Find(id);
      var top, served := Survey();
      var node := if previous != -1 then nodes[previous].(key := key) else Node(id, top + 1, !served, key);
      if node.slot > LAST_SLOT {
        return 409;
      }
      var taken := IsTaken(id, key);
      if taken {
        return 409;
      }
      if previous != -1 {
        nodes := nodes[previous := node];
      } else {
        nodes := nodes + [node];
      }
      return 0;
    }
  }
}
