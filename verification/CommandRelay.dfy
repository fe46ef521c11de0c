/**
  The relay of scheduler requests to fleet agents.  A request becomes a stored command that an agent
  claims and answers; repeated requests find the command of the earlier one by its key.  Times are in
  milliseconds, and the clock never goes backwards.
 */
module CommandRelay {
  import opened Common

  type CommandId = nat
  type MachineId = nat

  const LIFETIME := 120000
  const RECLAIM := 60000
  const READ_WINDOW := 5000
  const WRITE_WINDOW := 60000
  const RETENTION := 3600000

  /** The digest of machine, method, path and body; `get` and `machine` can be read off it. */
  datatype Key = Key(machine: MachineId, get: bool, payload: string)

  /** `deliveries` counts how often the command was handed to an agent. */
  datatype Command = Command(
    key: Key,
    created: int,
    expires: int,
    claimed: Option<int>,
    completed: Option<int>,
    deliveries: nat)

  /** Commands are listed in the order of their ids. */
  type Commands = map<CommandId, Command>

  function Window(key: Key): int {
    if key.get then READ_WINDOW else WRITE_WINDOW
  }

  /** A repeated request waits for, or is answered by, this command. */
  predicate Reusable(c: Command, now: int) {
    || (c.completed.None? && c.claimed.Some? && !c.key.get)
    || (c.expires > now && (c.completed.None? || now - c.completed.value < Window(c.key)))
  }

  /** A mutation was handed out and its outcome will not be waited for any more. */
  predicate OutcomeUnknown(c: Command, now: int) {
    c.claimed.Some? && c.completed.None? && c.expires <= now
  }

  predicate Claimable(c: Command, machine: MachineId, now: int) {
    && c.key.machine == machine && c.completed.None? && c.expires > now
    && (c.claimed.None? || (c.key.get && now - c.claimed.value > RECLAIM))
  }

  predicate Matches(commands: Commands, id: CommandId, key: Key, now: int) {
    id in commands && commands[id].key == key && Reusable(commands[id], now)
  }

  predicate MayClaim(commands: Commands, id: CommandId, machine: MachineId, now: int) {
    id in commands && Claimable(commands[id], machine, now)
  }

  /** The first match below `n`. */
  function FirstMatch(commands: Commands, key: Key, now: int, n: nat): (r: Option<CommandId>)
    ensures r.Some? ==> r.value < n && Matches(commands, r.value, key, now)
    ensures r.Some? ==> forall x :: 0 <= x < r.value ==> !Matches(commands, x, key, now)
    ensures r.None? ==> forall x :: 0 <= x < n ==> !Matches(commands, x, key, now)
    decreases n
  {
    if n == 0 then None
    else if FirstMatch(commands, key, now, n - 1).Some? then FirstMatch(commands, key, now, n - 1)
    else if Matches(commands, n - 1, key, now) then Some(n - 1)
    else None
  }

  function FirstClaimable(commands: Commands, machine: MachineId, now: int, n: nat): (r: Option<CommandId>)
    ensures r.Some? ==> r.value < n && MayClaim(commands, r.value, machine, now)
    ensures r.Some? ==> forall x :: 0 <= x < r.value ==> !MayClaim(commands, x, machine, now)
    ensures r.None? ==> forall x :: 0 <= x < n ==> !MayClaim(commands, x, machine, now)
    decreases n
  {
    if n == 0 then None
    else if FirstClaimable(commands, machine, now, n - 1).Some? then FirstClaimable(commands, machine, now, n - 1)
    else if MayClaim(commands, n - 1, machine, now) then Some(n - 1)
    else None
  }

  // ----- State -----

  /** `pruned` keeps the commands that were deleted for their age, as they were then. */
  datatype State = State(now: int, rows: nat, commands: Commands, pruned: Commands)

  function Initial(now: int): State {
    State(now, 0, map[], map[])
  }

  datatype Event =
    | Request(key: Key, online: bool)
    | Claim(machine: MachineId)
    | Complete(id: CommandId, machine: MachineId)
    | Prune
    | Tick(later: nat)

  function New(key: Key, now: int): Command {
    Command(key, now, now + LIFETIME, None, None, 0)
  }

  function Claimed(c: Command, now: int): Command {
    c.(claimed := Some(now), deliveries := c.deliveries + 1)
  }

  predicate Old(c: Command, now: int) {
    c.created < now - RETENTION
  }

  function Apply(s: State, e: Event): State {
    match e
    case Request(key, online) =>
      if !online || FirstMatch(s.commands, key, s.now, s.rows).Some? then s
      else s.(commands := s.commands[s.rows := New(key, s.now)], rows := s.rows + 1)
    case Claim(machine) =>
      var found := FirstClaimable(s.commands, machine, s.now, s.rows);
      if found.None? then s
      else s.(commands := s.commands[found.value := Claimed(s.commands[found.value], s.now)])
    case Complete(id, machine) =>
      if id !in s.commands || s.commands[id].key.machine != machine || s.commands[id].claimed.None?
         || s.commands[id].completed.Some?
      then s
      else s.(commands := s.commands[id := s.commands[id].(completed := Some(s.now))])
    case Prune =>
      s.(commands := map id | id in s.commands && !Old(s.commands[id], s.now) :: s.commands[id],
         pruned := map id | id in s.commands.Keys + s.pruned.Keys && (id in s.pruned || Old(s.commands[id], s.now)) ::
                     if id in s.pruned then s.pruned[id] else s.commands[id])
    case Tick(later) => s.(now := s.now + later)
  }

  function Run(s: State, events: seq<Event>): State
    decreases |events|
  {
    if |events| == 0 then s else Run(Apply(s, events[0]), events[1..])
  }

  // ----- Invariant -----

  /** When a command was handed out, and how often that leaves room for. */
  predicate CommandInv(c: Command, now: int) {
    && c.created <= now && c.expires == c.created + LIFETIME
    && (c.claimed.None? <==> c.deliveries == 0)
    && (c.claimed.Some? ==> c.created <= c.claimed.value <= now && c.claimed.value < c.expires)
    && (c.key.get && c.claimed.Some? ==> c.claimed.value >= c.created + (c.deliveries - 1) * (RECLAIM + 1))
    && (!c.key.get ==> c.deliveries <= 1)
    && (c.completed.Some? ==> c.claimed.Some? && c.completed.value <= now)
  }

  /** By the time `b` was created, `a` could not be reused any more, and never will be. */
  predicate Spaced(a: Command, b: Command) {
    || (a.expires <= b.created && (a.key.get || a.claimed.None? || a.completed.Some?))
    || (a.completed.Some? && b.created - a.completed.value >= Window(a.key))
  }

  /** The command of this id, stored or pruned. */
  function Ever(s: State): Commands {
    s.pruned + s.commands
  }

  predicate PairInv(s: State, a: CommandId, b: CommandId) {
    var all := Ever(s);
    a < b && a in all && b in all && all[a].key == all[b].key ==>
      Spaced(all[a], all[b]) || (a in s.pruned && all[b].created > all[a].created + RETENTION)
  }

  ghost predicate Inv(s: State) {
    && (forall id :: id in s.commands ==> id < s.rows && id !in s.pruned && CommandInv(s.commands[id], s.now))
    && (forall id :: id in s.pruned ==> id < s.rows && Old(s.pruned[id], s.now) && CommandInv(s.pruned[id], s.now))
    && (forall a: CommandId, b: CommandId :: PairInv(s, a, b))
  }

  lemma RequestInv(s: State, key: Key)
    requires Inv(s) && FirstMatch(s.commands, key, s.now, s.rows).None?
    ensures Inv(Apply(s, Request(key, true)))
  {
    var t := Apply(s, Request(key, true));
    var new' := t.commands[s.rows];
    forall a: CommandId, b: CommandId
      ensures PairInv(t, a, b)
    {
      assert PairInv(s, a, b);
      if a in s.commands && b == s.rows && s.commands[a].key == key {
        assert !Matches(s.commands, a, key, s.now);
        assert !Reusable(s.commands[a], s.now);
      }
    }
  }

  /** A command that a later one of its key follows cannot be claimed, and if it is a mutation its
      result, if it was handed out, is there. */
  lemma FollowedIsSettled(s: State, a: CommandId, b: CommandId)
    requires Inv(s) && a < b && a in s.commands && b in Ever(s) && s.commands[a].key == Ever(s)[b].key
    ensures s.commands[a].completed.Some?
      || (s.commands[a].expires <= s.now && (s.commands[a].key.get || s.commands[a].claimed.None?))
  {
    assert PairInv(s, a, b);
  }

  lemma ClaimInv(s: State, machine: MachineId)
    requires Inv(s)
    ensures Inv(Apply(s, Claim(machine)))
  {
    var t := Apply(s, Claim(machine));
    var found := FirstClaimable(s.commands, machine, s.now, s.rows);
    if found.None? { return; }
    var id := found.value;
    assert MayClaim(s.commands, id, machine, s.now);
    assert CommandInv(s.commands[id], s.now);
    forall a: CommandId, b: CommandId
      ensures PairInv(t, a, b)
    {
      assert PairInv(s, a, b);
    }
  }

  lemma CompleteInv(s: State, id: CommandId, machine: MachineId)
    requires Inv(s)
    ensures Inv(Apply(s, Complete(id, machine)))
  {
    var t := Apply(s, Complete(id, machine));
    if t == s { return; }
    forall a: CommandId, b: CommandId
      ensures PairInv(t, a, b)
    {
      assert PairInv(s, a, b);
    }
  }

  lemma PruneInv(s: State)
    requires Inv(s)
    ensures Inv(Apply(s, Prune))
  {
    var t := Apply(s, Prune);
    assert forall id :: id in Ever(t) <==> id in Ever(s);
    assert forall id :: id in Ever(t) ==> Ever(t)[id] == Ever(s)[id];
    forall a: CommandId, b: CommandId
      ensures PairInv(t, a, b)
    {
      assert PairInv(s, a, b);
    }
  }

  lemma TickInv(s: State, later: nat)
    requires Inv(s)
    ensures Inv(Apply(s, Tick(later)))
  {
    var t := Apply(s, Tick(later));
    forall a: CommandId, b: CommandId
      ensures PairInv(t, a, b)
    {
      assert PairInv(s, a, b);
    }
  }

  lemma ApplyInv(s: State, e: Event)
    requires Inv(s)
    ensures Inv(Apply(s, e))
  {
    match e
    case Request(key, online) => if online && FirstMatch(s.commands, key, s.now, s.rows).None? { RequestInv(s, key); }
    case Claim(machine) => ClaimInv(s, machine);
    case Complete(id, machine) => CompleteInv(s, id, machine);
    case Prune => PruneInv(s);
    case Tick(later) => TickInv(s, later);
  }

  lemma {:induction false} RunInv(s: State, events: seq<Event>)
    requires Inv(s)
    ensures Inv(Run(s, events))
    decreases |events|
  {
    if |events| > 0 {
      ApplyInv(s, events[0]);
      RunInv(Apply(s, events[0]), events[1..]);
    }
  }

  // ----- What the relay promises -----

  /** In every run, a mutation is handed to an agent at most once and a read at most twice. */
  lemma DeliveryBounds(now: int, events: seq<Event>, id: CommandId)
    requires id in Ever(Run(Initial(now), events))
    ensures
      var c := Ever(Run(Initial(now), events))[id];
      c.deliveries <= if c.key.get then 2 else 1
  {
    RunInv(Initial(now), events);
    var s := Run(Initial(now), events);
    var c := Ever(s)[id];
    assert CommandInv(c, s.now);
  }

  /** A mutation that an agent may still be handed, or was handed without a result so far. */
  predicate Unsettled(c: Command, now: int) {
    !c.key.get && c.completed.None? && (c.claimed.Some? || c.expires > now)
  }

  /** Per key at most one stored mutation is unsettled, even after it expired. */
  lemma OneUnsettledMutation(now: int, events: seq<Event>, a: CommandId, b: CommandId)
    requires
      var s := Run(Initial(now), events);
      && a in s.commands && b in s.commands && s.commands[a].key == s.commands[b].key
      && Unsettled(s.commands[a], s.now) && Unsettled(s.commands[b], s.now)
    ensures a == b
  {
    RunInv(Initial(now), events);
    var s := Run(Initial(now), events);
    if a < b { FollowedIsSettled(s, a, b); }
    if b < a { FollowedIsSettled(s, b, a); }
  }

  /** Counting pruned commands too: of two mutations of one key that were handed out and have no
      result, the first was pruned, and more than an hour lies between the two requests. */
  lemma SecondMutationComesAnHourLater(now: int, events: seq<Event>, a: CommandId, b: CommandId)
    requires
      var s := Run(Initial(now), events);
      && a < b && a in Ever(s) && b in Ever(s) && Ever(s)[a].key == Ever(s)[b].key
      && !Ever(s)[a].key.get && Ever(s)[a].claimed.Some? && Ever(s)[a].completed.None?
    ensures
      var s := Run(Initial(now), events);
      a in s.pruned && Ever(s)[b].created > Ever(s)[a].created + RETENTION
  {
    RunInv(Initial(now), events);
    assert PairInv(Run(Initial(now), events), a, b);
  }

  /** A request creates a command exactly when no stored command of its key can be reused; there is
      never more than one that can, so which one is found first does not matter. */
  lemma RequestCreatesIff(now: int, events: seq<Event>, key: Key)
    ensures
      var s := Run(Initial(now), events);
      && (Apply(s, Request(key, true)) != s <==> forall id :: !Matches(s.commands, id, key, s.now))
      && (forall a: CommandId, b: CommandId ::
            Matches(s.commands, a, key, s.now) && Matches(s.commands, b, key, s.now) ==> a == b)
  {
    RunInv(Initial(now), events);
    var s := Run(Initial(now), events);
    assert forall id :: id in s.commands ==> id < s.rows;
    forall a: CommandId, b: CommandId | Matches(s.commands, a, key, s.now) && Matches(s.commands, b, key, s.now)
      ensures a == b
    {
      assert PairInv(s, a, b) && PairInv(s, b, a);
      assert CommandInv(s.commands[a], s.now) && CommandInv(s.commands[b], s.now);
    }
  }

  /** A request that repeats an answered one is answered by the same command for 5 seconds if it reads
      and 60 if it writes, and no longer than two minutes after the first request. */
  lemma RepeatedRequestIff(s: State, id: CommandId, d: nat)
    requires Inv(s) && id in s.commands && s.commands[id].claimed.Some? && s.commands[id].completed.None?
      && s.commands[id].expires > s.now
    ensures
      var c := s.commands[id];
      var t := Apply(Apply(s, Complete(id, c.key.machine)), Tick(d));
      Apply(t, Request(c.key, true)) != t
      <==> d >= (if c.key.get then 5000 else 60000) || s.now + d >= c.created + 120000
  {
    var c := s.commands[id];
    var a := Apply(s, Complete(id, c.key.machine));
    var t := Apply(a, Tick(d));
    assert CommandInv(c, s.now);
    assert t.commands == s.commands[id := c.(completed := Some(s.now))];
    forall x: CommandId | x != id
      ensures !Matches(t.commands, x, c.key, t.now)
    {
      assert PairInv(s, x, id) && PairInv(s, id, x);
    }
    assert Matches(t.commands, id, c.key, t.now) <==> Reusable(t.commands[id], t.now);
    assert id < t.rows;
  }

  /** A mutation whose outcome is unknown blocks its key until its result arrives or it is pruned. */
  lemma {:induction false} UnknownOutcomeBlocks(s: State, events: seq<Event>, id: CommandId)
    requires Inv(s) && id in s.commands && !s.commands[id].key.get && s.commands[id].claimed.Some?
      && s.commands[id].completed.None?
    requires id in Run(s, events).commands && Run(s, events).commands[id].completed.None?
    ensures
      var t := Run(s, events);
      forall x :: x in Ever(t) && Ever(t)[x].key == s.commands[id].key ==> x in Ever(s)
    decreases |events|
  {
    if |events| > 0 {
      var m, t := Apply(s, events[0]), Run(s, events);
      ApplyInv(s, events[0]);
      StaysUnlessPruned(m, events[1..], id);
      BlocksOneStep(s, events[0], id);
      UnknownOutcomeBlocks(m, events[1..], id);
      forall x | x in Ever(t) && Ever(t)[x].key == s.commands[id].key
        ensures x in Ever(s)
      {
        KeysStay(m, events[1..], x);
      }
    }
  }

  predicate Apart(s: State) {
    forall id :: id in s.commands ==> id < s.rows && id !in s.pruned
  }

  lemma StepKeepsKey(s: State, e: Event, x: CommandId)
    requires Apart(s) && x in Ever(s) && x < s.rows
    ensures x in Ever(Apply(s, e)) && Ever(Apply(s, e))[x].key == Ever(s)[x].key
  {}

  lemma {:induction false} KeysStay(s: State, events: seq<Event>, x: CommandId)
    requires Inv(s) && x in Ever(s)
    ensures x in Ever(Run(s, events)) && Ever(Run(s, events))[x].key == Ever(s)[x].key
    decreases |events|
  {
    if |events| > 0 {
      ApplyInv(s, events[0]);
      StepKeepsKey(s, events[0], x);
      KeysStay(Apply(s, events[0]), events[1..], x);
    }
  }

  lemma BlocksOneStep(s: State, e: Event, id: CommandId)
    requires Inv(s) && id in s.commands && !s.commands[id].key.get && s.commands[id].claimed.Some?
      && s.commands[id].completed.None?
    requires id in Apply(s, e).commands && Apply(s, e).commands[id].completed.None?
    ensures Apply(s, e).commands[id].key == s.commands[id].key && Apply(s, e).commands[id].claimed.Some?
    ensures forall x :: x in Ever(Apply(s, e)) && Ever(Apply(s, e))[x].key == s.commands[id].key ==> x in Ever(s)
  {
    if e.Request? && e.key == s.commands[id].key {
      assert Matches(s.commands, id, e.key, s.now);
    }
  }

  /** A command that is still there unanswered was there unanswered before. */
  lemma {:induction false} StaysUnlessPruned(s: State, events: seq<Event>, id: CommandId)
    requires Inv(s) && id in Run(s, events).commands && Run(s, events).commands[id].completed.None? && id < s.rows
    ensures id in s.commands && s.commands[id].completed.None?
    decreases |events|
  {
    if |events| > 0 {
      ApplyInv(s, events[0]);
      StaysUnlessPruned(Apply(s, events[0]), events[1..], id);
      OldStaysOpen(s, events[0], id);
    }
  }

  lemma OldStaysOpen(s: State, e: Event, id: CommandId)
    requires Inv(s) && id < s.rows && id in Apply(s, e).commands && Apply(s, e).commands[id].completed.None?
    ensures id in s.commands && s.commands[id].completed.None? && Apply(s, e).rows >= s.rows
  {}

  /** An agent is handed the oldest command it may claim, and no other agent can be handed it. */
  lemma OldestFirst(s: State, machine: MachineId, id: CommandId)
    requires Inv(s) && MayClaim(s.commands, id, machine, s.now)
    ensures
      var t := Apply(s, Claim(machine));
      exists x :: x in s.commands && x in t.commands && x <= id && s.commands[x].key.machine == machine
        && t.commands == s.commands[x := Claimed(s.commands[x], s.now)]
        && forall y :: 0 <= y < x ==> !MayClaim(s.commands, y, machine, s.now)
  {}

  // ----- Pruning forgets an unknown outcome -----

  lemma Then(s: State, e: Event, t: State, rest: seq<Event>)
    requires Apply(s, e) == t
    ensures Run(s, [e] + rest) == Run(t, rest)
  {}

  function Forgotten(key: Key): seq<Event> {
    [Request(key, true)] + ([Claim(key.machine)]
    + ([Tick(RETENTION + 1)] + ([Prune] + ([Request(key, true)] + ([Claim(key.machine)] + [])))))
  }

  /** The hour is exact: one millisecond past it, every mutation can be handed out a second time
      without a result of the first. */
  lemma PrunedMutationRunsAgain(now: int, key: Key)
    requires !key.get
    ensures
      var s := Run(Initial(now), Forgotten(key));
      && 0 in s.pruned && 1 in s.commands && s.pruned[0].key == s.commands[1].key == key
      && s.pruned[0].deliveries == 1 && s.commands[1].deliveries == 1
      && s.pruned[0].completed.None? && s.commands[1].completed.None?
  {
    var a := State(now, 1, map[0 := New(key, now)], map[]);
    var b := a.(commands := map[0 := Claimed(New(key, now), now)]);
    ClaimOnly(a, 0);
    assert a.commands[0 := Claimed(New(key, now), now)] == b.commands;
    var later := now + RETENTION + 1;
    var c := b.(now := later);
    var d := State(later, 1, map[], b.commands);
    PruneOnly(c, d);
    var e := d.(commands := map[1 := New(key, later)], rows := 2);
    ClaimOnly(e, 1);
    var f := e.(commands := map[1 := Claimed(New(key, later), later)]);
    assert e.commands[1 := Claimed(New(key, later), later)] == f.commands;
    Then(e, Claim(key.machine), f, []);
    Then(d, Request(key, true), e, [Claim(key.machine)] + []);
    Then(c, Prune, d, [Request(key, true)] + ([Claim(key.machine)] + []));
    var rest := [Prune] + ([Request(key, true)] + ([Claim(key.machine)] + []));
    Then(b, Tick(RETENTION + 1), c, rest);
    Then(a, Claim(key.machine), b, [Tick(RETENTION + 1)] + rest);
    Then(Initial(now), Request(key, true), a, [Claim(key.machine)] + ([Tick(RETENTION + 1)] + rest));
  }

  lemma ClaimOnly(s: State, id: CommandId)
    requires s.commands.Keys == {id} && id < s.rows && s.commands[id] == New(s.commands[id].key, s.now)
    ensures Apply(s, Claim(s.commands[id].key.machine))
      == s.(commands := s.commands[id := Claimed(s.commands[id], s.now)])
  {
    assert MayClaim(s.commands, id, s.commands[id].key.machine, s.now);
  }

  lemma PruneOnly(s: State, t: State)
    requires s.commands.Keys == {0} && s.pruned == map[] && Old(s.commands[0], s.now)
    requires t == s.(commands := map[], pruned := s.commands)
    ensures Apply(s, Prune) == t
  {}

  // ----- The commands table, changed in place -----

  /** What a request leads to. */
  datatype Reply = Offline | Unknown(id: CommandId) | Waits(id: CommandId)

  class CommandTable {
    var commands: Commands
    var rows: nat

    constructor ()
      ensures commands == map[] && rows == 0
    {
      commands := map[];
      rows := 0;
    }

    /** `s` describes this table. */
    ghost predicate Describes(s: State)
      reads this
    {
      s.commands == commands && s.rows == rows
    }

    method Send(key: Key, online: bool, now: int, ghost s: State) returns (reply: Reply)
      requires Describes(s) && s.now == now
      modifies this
      ensures Describes(Apply(s, Request(key, online)))
      ensures reply.Offline? <==> !online
      ensures !reply.Offline? ==>
        && reply.id in commands && commands[reply.id].key == key
        && (reply.Unknown? <==> OutcomeUnknown(commands[reply.id], now))
        && (reply.Waits? ==> Reusable(commands[reply.id], now))
    {
      if !online {
        return Offline;
      }
      var id := 0;
      while id < rows && !(id in commands && commands[id].key == key && Reusable(commands[id], now))
        invariant 0 <= id <= rows
        invariant forall x :: 0 <= x < id ==> !Matches(commands, x, key, now)
      {
        id := id + 1;
      }
      if id < rows {
        assert Matches(commands, id, key, now);
        var c := commands[id];
        if c.claimed.Some? && c.completed.None? && c.expires <= now {
          return Unknown(id);
        }
        return Waits(id);
      }
      commands := commands[rows := Command(key, now, now + LIFETIME, None, None, 0)];
      rows := rows + 1;
      return Waits(id);
    }

    method ClaimNext(machine: MachineId, now: int, ghost s: State) returns (handed: Option<CommandId>)
      requires Describes(s) && s.now == now
      modifies this`commands
      ensures Describes(Apply(s, Claim(machine)))
      ensures handed == FirstClaimable(s.commands, machine, now, rows)
    {
      var id := 0;
      while id < rows
        invariant 0 <= id <= rows
        invariant commands == s.commands
        invariant forall x :: 0 <= x < id ==> !MayClaim(commands, x, machine, now)
      {
        if id in commands && Claimable(commands[id], machine, now) {
          assert MayClaim(commands, id, machine, now);
          var c := commands[id];
          c := c.(claimed := Some(now));
          commands := commands[id := c.(deliveries := c.deliveries + 1)];
          return Some(id);
        }
        id := id + 1;
      }
      return None;
    }

    method Answer(id: CommandId, machine: MachineId, now: int, ghost s: State) returns (accepted: bool)
      requires Describes(s) && s.now == now
      modifies this`commands
      ensures Describes(Apply(s, Complete(id, machine)))
      ensures accepted <==> commands != s.commands
    {
      if id !in commands {
        return false;
      }
      var c := commands[id];
      if c.key.machine != machine || c.claimed.None? || c.completed.Some? {
        return false;
      }
      commands := commands[id := c.(completed := Some(now))];
      return true;
    }
  }
}
