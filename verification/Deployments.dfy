/**
  The life of one service's deployments: the persisted phase machine, the current and promotion
  pointers of the service, the public tunnel that routes to them, and the jobs that are submitted
  and stopped.  Reconciliation runs in one pass at a time; users, the scheduler and the tunnel
  provider act between any two of its awaits, and a crash drops the pass but nothing stored.
 */
module Deployments {
  import opened Common

  type Id = nat
  type DomainId = nat

  /** A private address is held by the application job of one deployment. */
  datatype Address = Address(owner: Id, port: nat)

  datatype Phase =
    | Prepare | BuildSubmit | Building | AppPrepare | AppSubmit | Observing | Routing
    | Cleanup | FailureCleanup | Done

  datatype Status = Queued | InBuild | Deploying | Healthy | Failed | RolledBack

  /** `hasJob` says that the application job id has been assigned. */
  datatype Deployment = Deployment(
    status: Status,
    phase: Phase,
    previous: Option<Id>,
    hasJob: bool,
    address: Option<Address>)
  {
    predicate Active() {
      status.Queued? || status.InBuild? || status.Deploying?
    }
  }

  datatype Service = Service(
    current: Option<Id>,
    address: Option<Address>,
    promotion: Option<Id>,
    promotionAddress: Option<Address>,
    deleting: bool)

  datatype Stop = Begun | Finished

  datatype DomainStatus = Live | Deleting

  // ----- The tunnel -----

  /** A tunnel configuration: the routes of this service, and whatever the others of the workspace need. */
  datatype Config = Config(routes: map<DomainId, Address>, others: nat)

  /** `configs` holds every configuration the provider accepted, by version.  Connectors may serve any
      version from `acknowledged` on.  `version` and `hash` are what the workspace recorded. */
  datatype Tunnel = Tunnel(configs: seq<Config>, acknowledged: nat, version: nat, hash: Option<Config>)

  predicate MayServe(t: Tunnel, v: nat) {
    t.acknowledged <= v < |t.configs|
  }

  // ----- State -----

  /** How far a refresh of the service's routes has come. */
  datatype Refresh = Started | Skipped | Configured

  datatype Pass =
    | Idle
    | Promoting(id: Id, refresh: Refresh)
    | Restoring(id: Id, refresh: Refresh)
    | Moving(id: Id, refresh: Refresh)

  /** `history` lists the promotions in order.  `lost` and `torn` record two accidents: an accepted
      configuration whose reply never got recorded, and a crash between the two saves that end the
      observing phase. */
  datatype State = State(
    service: Service,
    deployments: map<Id, Deployment>,
    submitted: set<Id>,
    stops: map<Id, Stop>,
    domains: map<DomainId, DomainStatus>,
    usedDomains: set<DomainId>,
    tunnel: Tunnel,
    pass: Pass,
    dismantling: bool,
    history: seq<Id>,
    lost: bool,
    torn: bool)

  function Initial(): State {
    State(Service(None, None, None, None, false), map[], {}, map[], map[], {},
          Tunnel([Config(map[], 0)], 0, 0, None), Idle, false, [], false, false)
  }

  function LiveDomains(s: State): set<DomainId> {
    set x | x in s.domains && s.domains[x].Live?
  }

  /** The address a domain of the service is to be routed to. */
  function Route(v: Service): Option<Address> {
    if v.promotionAddress.Some? then v.promotionAddress else v.address
  }

  function DesiredRoutes(s: State): Option<map<DomainId, Address>> {
    if LiveDomains(s) == {} then Some(map[])
    else if Route(s.service).Some? then Some(map x | x in LiveDomains(s) :: Route(s.service).value)
    else None
  }

  /** configureTunnel: nothing is sent when the recorded hash is the wanted one; `recorded` is false
      when the provider accepted the configuration but the workspace never stored its version. */
  function ConfigureTunnel(t: Tunnel, wanted: Config, recorded: bool): Tunnel {
    if t.hash == Some(wanted) then t
    else if recorded then t.(configs := t.configs + [wanted], version := |t.configs|, hash := Some(wanted))
    else t.(configs := t.configs + [wanted])
  }

  predicate ReplyLost(t: Tunnel, wanted: Config, recorded: bool) {
    t.hash != Some(wanted) && !recorded
  }

  function StartRefresh(s: State): Refresh {
    if LiveDomains(s) == {} then Skipped else Started
  }

  /** The refresh of the running pass has returned. */
  predicate Refreshed(s: State, r: Refresh) {
    r.Skipped? || (r.Configured? && s.tunnel.acknowledged >= s.tunnel.version)
  }

  /** The releases before `start`, newest first: the walk that cleanup makes. */
  function Predecessors(deployments: map<Id, Deployment>, start: Option<Id>, seen: set<Id>): seq<Id>
    decreases |deployments.Keys - seen|
  {
    if start.None? || start.value in seen || start.value !in deployments then []
    else
      var rest := deployments.Keys - (seen + {start.value});
      assert rest < deployments.Keys - seen by {
        assert start.value in deployments.Keys - seen && start.value !in rest;
      }
      SubsetSize(rest, deployments.Keys - seen);
      [start.value] + Predecessors(deployments, deployments[start.value].previous, seen + {start.value})
  }

  lemma OneStepBack(ds: map<Id, Deployment>, found: seq<Id>, id: Id, seen: set<Id>)
    requires id in ds && id !in seen
    ensures found + Predecessors(ds, Some(id), seen) == (found + [id]) + Predecessors(ds, ds[id].previous, seen + {id})
    ensures |ds.Keys - (seen + {id})| < |ds.Keys - seen|
  {
    var rest := Predecessors(ds, ds[id].previous, seen + {id});
    assert found + ([id] + rest) == (found + [id]) + rest;
    assert id in ds.Keys - seen && id !in ds.Keys - (seen + {id});
    SubsetSize(ds.Keys - (seen + {id}), ds.Keys - seen);
  }

  /** A predecessor that cleanup passes over. */
  predicate PassedOver(s: State, p: Id) {
    s.service.current == Some(p) || s.service.promotion == Some(p)
    || p !in s.deployments || !s.deployments[p].hasJob
  }

  predicate StopFinished(stops: map<Id, Stop>, id: Id) {
    id in stops && stops[id].Finished?
  }

  function BeginStop(s: State, id: Id): State {
    if id in s.stops then s else s.(stops := s.stops[id := Begun])
  }

  function Put(s: State, id: Id, d: Deployment): State {
    s.(deployments := s.deployments[id := d])
  }

  // ----- Events -----

  datatype Event =
    | Queue(id: Id)
    | Prepared(id: Id, build: bool)
    | BuildSubmitted(id: Id)
    | Built(id: Id)
    | ApplicationPrepared(id: Id)
    | Submit(id: Id, posted: bool, accepted: bool)
    | Observe(id: Id, port: nat, torn: bool)
    | StartPromotion(id: Id)
    | CommitPromotion
    | FailDeployment(id: Id)
    | RecoverCurrent(id: Id)
    | StartRestoration(id: Id)
    | StopCandidate
    | FinishFailure
    | StopPredecessor(id: Id, predecessor: Id)
    | MarkStopped(id: Id, predecessor: Id)
    | FinishCleanup(id: Id)
    | StartMove(port: nat)
    | ResumeMove
    | FinishMove
    | Refresh(others: nat, recorded: bool)
    | ConfigureElsewhere(others: nat, recorded: bool)
    | Interrupt
    | Acknowledge(version: nat)
    | JobStopped(id: Id)
    | AddDomain(domain: DomainId)
    | DeleteDomain(domain: DomainId)
    | ForgetDomain(domain: DomainId)
    | RemoveService
    | UndoRemoval
    | Dismantle(id: Id)

  predicate InPhase(ds: map<Id, Deployment>, id: Id, phase: Phase) {
    id in ds && ds[id].phase == phase
  }

  predicate IsActive(ds: map<Id, Deployment>, id: Id) {
    id in ds && ds[id].Active()
  }

  predicate AnyActive(ds: map<Id, Deployment>) {
    exists id :: id in ds && IsActive(ds, id)
  }

  function Advance(s: State, id: Id, from: Phase, d: Deployment): State {
    if InPhase(s.deployments, id, from) && s.pass.Idle? then Put(s, id, d) else s
  }

  function ApplyConfig(s: State, others: nat, recorded: bool, pass: Pass): State {
    match DesiredRoutes(s)
    case None => s
    case Some(routes) =>
      var wanted := Config(routes, others);
      s.(tunnel := ConfigureTunnel(s.tunnel, wanted, recorded),
         lost := s.lost || ReplyLost(s.tunnel, wanted, recorded),
         pass := if ReplyLost(s.tunnel, wanted, recorded) then Idle else pass)
  }

  function QueueDeployment(s: State, id: Id): State {
    if s.service.deleting || AnyActive(s.deployments) || id in s.deployments then s
    else Put(s, id, Deployment(Queued, Prepare, s.service.current, false, None))
  }

  function ObserveApplication(s: State, id: Id, port: nat, torn: bool): State {
    if !InPhase(s.deployments, id, Observing) || !s.pass.Idle? then s
    else
      var address := Some(Address(id, port));
      var t := s.(service := s.service.(promotion := Some(id), promotionAddress := address));
      if torn then t.(torn := true)
      else Put(t, id, s.deployments[id].(address := address, phase := Routing))
  }

  function Failing(d: Deployment): Deployment {
    d.(phase := FailureCleanup, status := Deploying)
  }

  /** The one transaction that moves the current pointer. */
  function Committed(s: State, id: Id): State
    requires id in s.deployments
  {
    var d := s.deployments[id];
    Put(s, id, d.(status := Healthy, phase := Cleanup))
    .(service := s.service.(current := Some(id), address := d.address, promotion := None, promotionAddress := None),
      history := s.history + [id],
      pass := Idle)
  }

  function Promote(s: State): State {
    if !s.pass.Promoting? || !Refreshed(s, s.pass.refresh) || s.pass.id !in s.deployments then s
    else if s.service.promotion == Some(s.pass.id) then Committed(s, s.pass.id)
    else Put(s, s.pass.id, Failing(s.deployments[s.pass.id])).(pass := Idle)
  }

  /** cleanupFailure up to its first await: the candidate gives up the promotion. */
  function GiveUpPromotion(s: State, id: Id): State
    requires id in s.deployments
  {
    if s.service.promotion == Some(id) then
      var t := s.(service := s.service.(promotion := None, promotionAddress := None));
      t.(pass := Restoring(id, StartRefresh(t)))
    else if s.deployments[id].address.Some? && |s.domains| > 0 then s.(pass := Restoring(id, StartRefresh(s)))
    else s.(pass := Restoring(id, Skipped))
  }

  function CleanUp(s: State, id: Id): State {
    if InPhase(s.deployments, id, Cleanup) && s.pass.Idle?
       && forall p :: p in Predecessors(s.deployments, s.deployments[id].previous, {}) ==>
           PassedOver(s, p) || StopFinished(s.stops, p)
    then Put(s, id, s.deployments[id].(phase := Done)) else s
  }

  /** From an accepted request to a submitted application job. */
  function PreparationStep(s: State, e: Event): State {
    match e
    case Prepared(id, build) =>
      if InPhase(s.deployments, id, Prepare)
      then Advance(s, id, Prepare,
             s.deployments[id].(hasJob := true,
                                phase := if build then BuildSubmit else AppPrepare,
                                status := if build then InBuild else Deploying))
      else s
    case BuildSubmitted(id) =>
      if InPhase(s.deployments, id, BuildSubmit)
      then Advance(s, id, BuildSubmit, s.deployments[id].(phase := Building)) else s
    case Built(id) =>
      if InPhase(s.deployments, id, Building)
      then Advance(s, id, Building, s.deployments[id].(phase := AppPrepare, status := Deploying)) else s
    case ApplicationPrepared(id) =>
      if InPhase(s.deployments, id, AppPrepare)
      then Advance(s, id, AppPrepare, s.deployments[id].(phase := AppSubmit)) else s
    case Submit(id, posted, accepted) =>
      if InPhase(s.deployments, id, AppSubmit) && s.pass.Idle?
      then
        var t := if posted then s.(submitted := s.submitted + {id}) else s;
        if accepted then Put(t, id, s.deployments[id].(phase := Observing)) else t
      else s
    case _ => s
  }

  /** A deployment that failed: restore the route, then stop the candidate. */
  function FailureStep(s: State, e: Event): State {
    match e
    case FailDeployment(id) =>
      if id in s.deployments && s.deployments[id].Active() && s.deployments[id].phase != FailureCleanup
         && (s.pass.Idle? || (s.pass.Promoting? && s.pass.id == id))
      then Put(s, id, Failing(s.deployments[id])).(pass := Idle) else s
    case RecoverCurrent(id) =>
      if InPhase(s.deployments, id, FailureCleanup) && s.pass.Idle? && s.service.current == Some(id)
      then Put(s, id, s.deployments[id].(status := Healthy, phase := Cleanup)) else s
    case StartRestoration(id) =>
      if InPhase(s.deployments, id, FailureCleanup) && s.pass.Idle? && s.service.current != Some(id)
      then GiveUpPromotion(s, id) else s
    case StopCandidate =>
      if s.pass.Restoring? && Refreshed(s, s.pass.refresh)
         && s.pass.id in s.deployments && s.deployments[s.pass.id].hasJob
      then BeginStop(s, s.pass.id) else s
    case FinishFailure =>
      if s.pass.Restoring? && Refreshed(s, s.pass.refresh) && s.pass.id in s.deployments
         && (s.deployments[s.pass.id].hasJob ==> StopFinished(s.stops, s.pass.id))
      then Put(s, s.pass.id, s.deployments[s.pass.id].(status := Failed, phase := Done)).(pass := Idle)
      else s
    case _ => s
  }

  /** A promoted deployment: stop the releases before it. */
  function CleanupStep(s: State, e: Event): State {
    match e
    case StopPredecessor(id, p) =>
      if InPhase(s.deployments, id, Cleanup) && s.pass.Idle?
         && p in Predecessors(s.deployments, s.deployments[id].previous, {}) && !PassedOver(s, p)
      then BeginStop(s, p) else s
    case MarkStopped(id, p) =>
      if InPhase(s.deployments, id, Cleanup) && s.pass.Idle?
         && p in Predecessors(s.deployments, s.deployments[id].previous, {}) && !PassedOver(s, p)
         && StopFinished(s.stops, p)
      then Put(s, p, s.deployments[p].(status := RolledBack)) else s
    case FinishCleanup(id) => CleanUp(s, id)
    case _ => s
  }

  /** Health reconciliation found the current release at another address. */
  function MoveStep(s: State, e: Event): State {
    match e
    case StartMove(port) =>
      if s.pass.Idle? && s.service.current.Some? && !s.service.deleting && s.service.promotion.None?
         && s.service.address != Some(Address(s.service.current.value, port))
      then
        var id := s.service.current.value;
        var t := s.(service := s.service.(promotion := Some(id), promotionAddress := Some(Address(id, port))));
        t.(pass := Moving(id, StartRefresh(t)))
      else s
    case ResumeMove =>
      if s.pass.Idle? && s.service.current.Some? && !s.service.deleting && s.service.promotion == s.service.current
      then s.(pass := Moving(s.service.current.value, StartRefresh(s))) else s
    case FinishMove =>
      if s.pass.Moving? && Refreshed(s, s.pass.refresh)
      then s.(service := s.service.(address := s.service.promotionAddress, promotion := None, promotionAddress := None),
              pass := Idle)
      else s
    case _ => s
  }

  /** Configurations sent and acknowledged. */
  function TunnelStep(s: State, e: Event): State {
    match e
    case Refresh(others, recorded) =>
      if !s.pass.Idle? && s.pass.refresh.Started?
      then ApplyConfig(s, others, recorded, s.pass.(refresh := Configured)) else s
    case ConfigureElsewhere(others, recorded) =>
      if s.pass.Idle? then ApplyConfig(s, others, recorded, Idle) else s
    case Acknowledge(version) =>
      if s.tunnel.acknowledged <= version < |s.tunnel.configs|
      then s.(tunnel := s.tunnel.(acknowledged := version)) else s
    case _ => s
  }

  /** Domains added and removed by users. */
  function DomainStep(s: State, e: Event): State {
    match e
    case AddDomain(x) =>
      if x in s.usedDomains then s
      else s.(domains := s.domains[x := Live], usedDomains := s.usedDomains + {x})
    case DeleteDomain(x) => if x in s.domains then s.(domains := s.domains[x := Deleting]) else s
    case ForgetDomain(x) =>
      if s.pass.Idle? && x in s.domains && s.domains[x].Deleting? then s.(domains := s.domains - {x}) else s
    case _ => s
  }

  /** Removal of the whole service. */
  function RemovalStep(s: State, e: Event): State {
    match e
    case RemoveService =>
      if |s.domains| == 0 && !AnyActive(s.deployments) then s.(service := s.service.(deleting := true)) else s
    case UndoRemoval =>
      if s.service.deleting && !s.dismantling then s.(service := s.service.(deleting := false)) else s
    case Dismantle(id) =>
      if s.pass.Idle? && s.service.deleting && id in s.deployments && s.deployments[id].hasJob
      then BeginStop(s, id).(dismantling := true) else s
    case _ => s
  }

  function Apply(s: State, e: Event): State {
    match e
    case Queue(id) => QueueDeployment(s, id)
    case Observe(id, port, torn) => ObserveApplication(s, id, port, torn)
    case StartPromotion(id) =>
      if InPhase(s.deployments, id, Routing) && s.pass.Idle? then s.(pass := Promoting(id, StartRefresh(s))) else s
    case CommitPromotion => Promote(s)
    case Interrupt => s.(pass := Idle)
    case JobStopped(id) => if id in s.stops then s.(stops := s.stops[id := Finished]) else s
    case Prepared(_, _) => PreparationStep(s, e)
    case BuildSubmitted(_) => PreparationStep(s, e)
    case Built(_) => PreparationStep(s, e)
    case ApplicationPrepared(_) => PreparationStep(s, e)
    case Submit(_, _, _) => PreparationStep(s, e)
    case FailDeployment(_) => FailureStep(s, e)
    case RecoverCurrent(_) => FailureStep(s, e)
    case StartRestoration(_) => FailureStep(s, e)
    case StopCandidate => FailureStep(s, e)
    case FinishFailure => FailureStep(s, e)
    case StopPredecessor(_, _) => CleanupStep(s, e)
    case MarkStopped(_, _) => CleanupStep(s, e)
    case FinishCleanup(_) => CleanupStep(s, e)
    case StartMove(_) => MoveStep(s, e)
    case ResumeMove => MoveStep(s, e)
    case FinishMove => MoveStep(s, e)
    case Refresh(_, _) => TunnelStep(s, e)
    case ConfigureElsewhere(_, _) => TunnelStep(s, e)
    case Acknowledge(_) => TunnelStep(s, e)
    case AddDomain(_) => DomainStep(s, e)
    case DeleteDomain(_) => DomainStep(s, e)
    case ForgetDomain(_) => DomainStep(s, e)
    case RemoveService => RemovalStep(s, e)
    case UndoRemoval => RemovalStep(s, e)
    case Dismantle(_) => RemovalStep(s, e)
  }

  function Run(s: State, events: seq<Event>): State
    decreases |events|
  {
    if |events| == 0 then s else Run(Apply(s, events[0]), events[1..])
  }

  // ----- Invariant -----

  predicate IsLast(history: seq<Id>, id: Option<Id>) {
    if |history| == 0 then id.None? else id == Some(history[|history| - 1])
  }

  predicate PromotedShape(d: Deployment) {
    && (d.status.Healthy? || d.status.RolledBack?)
    && (d.phase.Cleanup? || d.phase.Done?)
    && d.hasJob
  }

  predicate UnpromotedShape(d: Deployment) {
    || (d.Active() && !d.phase.Cleanup? && !d.phase.Done?
        && (d.phase.Routing? ==> d.address.Some?)
        && (d.hasJob || (d.address.None? && (d.phase.Prepare? || d.phase.FailureCleanup?))))
    || (d.status.Failed? && d.phase.Done?)
  }

  /** Promotions happened in this order, each to a release whose predecessor is the one before it. */
  ghost predicate HistoryInv(ds: map<Id, Deployment>, history: seq<Id>, current: Option<Id>) {
    && (forall i, j :: 0 <= i < j < |history| ==> history[i] != history[j])
    && IsLast(history, current)
    && (forall id :: id in history ==> id in ds && PromotedShape(ds[id]))
    && (forall i {:trigger ds[history[i]]} :: 0 <= i < |history| && history[i] in ds ==>
          IsLast(history[..i], ds[history[i]].previous))
  }

  /** At most one deployment is active, and it was queued on top of the current one. */
  ghost predicate DeploymentsInv(ds: map<Id, Deployment>, history: seq<Id>, current: Option<Id>) {
    && (forall id :: id in ds && id !in history ==> UnpromotedShape(ds[id]))
    && (forall id :: id in ds && ds[id].address.Some? ==> ds[id].address.value.owner == id)
    && (forall a, b :: IsActive(ds, a) && IsActive(ds, b) ==> a == b)
    && (forall a :: IsActive(ds, a) ==> ds[a].previous == current)
  }

  predicate MayPromote(ds: map<Id, Deployment>, p: Id) {
    && IsActive(ds, p) && ds[p].hasJob
    && (ds[p].phase.Observing? || ds[p].phase.Routing? || ds[p].phase.FailureCleanup?)
  }

  ghost predicate PointersInv(ds: map<Id, Deployment>, v: Service) {
    && (v.address.Some? <==> v.current.Some?)
    && (v.address.Some? ==> v.current == Some(v.address.value.owner))
    && (v.promotion.Some? <==> v.promotionAddress.Some?)
    && (v.promotion.Some? ==>
          && v.promotionAddress.value.owner == v.promotion.value
          && (v.current == v.promotion || MayPromote(ds, v.promotion.value)))
  }

  ghost predicate PassInv(ds: map<Id, Deployment>, v: Service, pass: Pass) {
    match pass
    case Idle => true
    case Promoting(id, _) => InPhase(ds, id, Routing) && IsActive(ds, id)
    case Restoring(id, _) => InPhase(ds, id, FailureCleanup) && IsActive(ds, id) && v.promotion != Some(id)
    case Moving(id, _) => v.current == Some(id) && v.promotion == Some(id)
  }

  /** What may be stopped while the service is not being dismantled: never the current deployment
      and never the one under promotion. */
  predicate Stoppable(ds: map<Id, Deployment>, v: Service, history: seq<Id>, id: Id) {
    && id in ds && v.current != Some(id) && v.promotion != Some(id)
    && (id in history || ds[id].phase.FailureCleanup? || ds[id].phase.Done?)
  }

  ghost predicate JobsInv(s: State) {
    && (forall id :: id in s.submitted ==> id in s.deployments && s.deployments[id].hasJob)
    && (forall id :: id in s.stops ==> id in s.deployments)
    && (!s.dismantling ==> forall id :: id in s.stops ==> Stoppable(s.deployments, s.service, s.history, id))
    && (s.dismantling ==> s.service.deleting)
    && (s.service.deleting ==> forall id :: !IsActive(s.deployments, id))
    && (forall id :: id in s.deployments && s.deployments[id].status.Failed? && s.deployments[id].hasJob ==>
          StopFinished(s.stops, id))
    && (forall i, k :: 0 <= i < k < |s.history| && InPhase(s.deployments, s.history[k], Done) ==>
          StopFinished(s.stops, s.history[i]))
  }

  ghost predicate Inv(s: State) {
    && HistoryInv(s.deployments, s.history, s.service.current)
    && DeploymentsInv(s.deployments, s.history, s.service.current)
    && PointersInv(s.deployments, s.service)
    && PassInv(s.deployments, s.service, s.pass)
    && JobsInv(s)
  }

  // ----- The predecessor walk is the promotion history -----

  function Reverse(ids: seq<Id>): seq<Id> {
    if |ids| == 0 then [] else [ids[|ids| - 1]] + Reverse(ids[..|ids| - 1])
  }

  lemma {:induction false} ReverseMembers(ids: seq<Id>)
    ensures forall x :: x in Reverse(ids) <==> x in ids
  {
    if |ids| > 0 {
      ReverseMembers(ids[..|ids| - 1]);
      assert ids == ids[..|ids| - 1] + [ids[|ids| - 1]];
    }
  }

  lemma {:induction false} WalkIsHistory(s: State, k: nat, seen: set<Id>)
    requires HistoryInv(s.deployments, s.history, s.service.current) && k <= |s.history|
    requires forall i :: 0 <= i < k ==> s.history[i] !in seen
    ensures
      var start := if k == 0 then None else Some(s.history[k - 1]);
      Predecessors(s.deployments, start, seen) == Reverse(s.history[..k])
    decreases k
  {
    if k > 0 {
      var p := s.history[k - 1];
      assert IsLast(s.history[..k - 1], s.deployments[p].previous);
      WalkIsHistory(s, k - 1, seen + {p});
      assert s.history[..k][..k - 1] == s.history[..k - 1];
    }
  }

  // ----- Every step keeps the invariant -----

  lemma InitialInv()
    ensures Inv(Initial())
  {}

  /** `d` may replace the active deployment `from` of id `id`. */
  predicate Moves(id: Id, from: Deployment, d: Deployment) {
    && from.Active() && d.Active() && d.previous == from.previous && UnpromotedShape(d)
    && (d.address.Some? ==> d.address.value.owner == id)
    && (from.hasJob ==> d.hasJob)
    && !from.phase.FailureCleanup?
  }

  lemma ReplaceHistory(ds: map<Id, Deployment>, history: seq<Id>, current: Option<Id>, id: Id, d: Deployment)
    requires HistoryInv(ds, history, current) && id !in history
    ensures HistoryInv(ds[id := d], history, current)
  {}

  lemma ReplaceDeployment(ds: map<Id, Deployment>, history: seq<Id>, current: Option<Id>, id: Id, d: Deployment)
    requires DeploymentsInv(ds, history, current) && id in ds && Moves(id, ds[id], d)
    ensures DeploymentsInv(ds[id := d], history, current)
  {
    var t := ds[id := d];
    assert forall a :: IsActive(t, a) ==> IsActive(ds, a);
  }

  lemma ActiveIsNew(s: State, id: Id)
    requires Inv(s) && IsActive(s.deployments, id)
    ensures id !in s.history && UnpromotedShape(s.deployments[id]) && !s.service.deleting
    ensures s.deployments[id].previous == s.service.current && s.service.current != Some(id)
    ensures id in s.stops ==> s.deployments[id].phase.FailureCleanup?
    ensures forall a :: IsActive(s.deployments, a) ==> a == id
  {
  }

  lemma ReplaceJobs(s: State, id: Id, d: Deployment)
    requires Inv(s) && id in s.deployments && Moves(id, s.deployments[id], d)
    ensures JobsInv(Put(s, id, d))
  {
    var t := Put(s, id, d);
    assert IsActive(s.deployments, id);
    ActiveIsNew(s, id);
    forall k | k in t.stops
      ensures k in t.deployments && Stoppable(t.deployments, t.service, t.history, k)
    {
      assert k != id;
    }
    forall i, k | 0 <= i < k < |s.history| && InPhase(t.deployments, s.history[k], Done)
      ensures StopFinished(s.stops, s.history[i])
    {
      assert InPhase(s.deployments, s.history[k], Done);
    }
  }

  /** The active deployment moves on within its own life. */
  lemma PutInv(s: State, id: Id, d: Deployment)
    requires Inv(s) && s.pass.Idle? && id in s.deployments && Moves(id, s.deployments[id], d)
    requires s.service.promotion == Some(id) ==> d.phase.Observing? || d.phase.Routing? || d.phase.FailureCleanup?
    ensures Inv(Put(s, id, d))
  {
    ActiveIsNew(s, id);
    ReplaceHistory(s.deployments, s.history, s.service.current, id, d);
    ReplaceDeployment(s.deployments, s.history, s.service.current, id, d);
    ReplaceJobs(s, id, d);
    assert PointersInv(s.deployments[id := d], s.service);
  }

  lemma QueueInv(s: State, id: Id)
    requires Inv(s)
    ensures Inv(QueueDeployment(s, id))
  {
    if QueueDeployment(s, id) != s {
      assert forall a :: IsActive(s.deployments, a) ==> a in s.deployments;
      assert forall a :: !IsActive(s.deployments, a);
      QueuedInv(s, id, Deployment(Queued, Prepare, s.service.current, false, None));
    }
  }

  /** The first active deployment of an idle service. */
  lemma QueuedInv(s: State, id: Id, d: Deployment)
    requires Inv(s) && id !in s.deployments && !s.service.deleting && forall a :: !IsActive(s.deployments, a)
    requires d == Deployment(Queued, Prepare, s.service.current, false, None)
    ensures Inv(Put(s, id, d))
  {
    var t := Put(s, id, d);
    assert forall a :: IsActive(t.deployments, a) ==> a == id || IsActive(s.deployments, a);
    assert id !in s.history;
    ReplaceHistory(s.deployments, s.history, s.service.current, id, d);
    assert DeploymentsInv(t.deployments, t.history, t.service.current);
    QueuedJobs(s, id, d);
  }

  lemma QueuedJobs(s: State, id: Id, d: Deployment)
    requires JobsInv(s) && id !in s.deployments && !s.service.deleting && d.status.Queued? && d.phase.Prepare?
    ensures JobsInv(Put(s, id, d))
  {
    var t := Put(s, id, d);
    forall i, k | 0 <= i < k < |s.history| && InPhase(t.deployments, s.history[k], Done)
      ensures StopFinished(s.stops, s.history[i])
    {
      assert InPhase(s.deployments, s.history[k], Done);
    }
  }

  lemma ObserveInv(s: State, id: Id, port: nat, torn: bool)
    requires Inv(s)
    ensures Inv(ObserveApplication(s, id, port, torn))
  {
    if InPhase(s.deployments, id, Observing) && s.pass.Idle? {
      assert IsActive(s.deployments, id) by { ObservingIsActive(s, id); }
      ActiveIsNew(s, id);
      var address := Some(Address(id, port));
      var t := s.(service := s.service.(promotion := Some(id), promotionAddress := address));
      assert JobsInv(t);
      assert Inv(t);
      if torn {
        assert Inv(t.(torn := true));
      } else {
        PutInv(t, id, s.deployments[id].(address := address, phase := Routing));
      }
    }
  }

  lemma ObservingIsActive(s: State, id: Id)
    requires Inv(s) && id in s.deployments && !s.deployments[id].phase.Cleanup? && !s.deployments[id].phase.Done?
    ensures IsActive(s.deployments, id)
  {
  }

  lemma ExtendHistory(ds: map<Id, Deployment>, history: seq<Id>, current: Option<Id>, id: Id)
    requires HistoryInv(ds, history, current) && id !in history && id in ds
    requires PromotedShape(ds[id]) && ds[id].previous == current
    ensures HistoryInv(ds, history + [id], Some(id))
  {
    var h := history + [id];
    forall i | 0 <= i < |h|
      ensures IsLast(h[..i], ds[h[i]].previous)
    {
      assert h[..i] == history[..i];
      assert history[..|history|] == history;
    }
  }

  lemma PromoteInv(s: State)
    requires Inv(s)
    ensures Inv(Promote(s))
  {
    if s.pass.Promoting? {
      ActiveIsNew(s, s.pass.id);
      FailInv(s, s.pass.id);
      CommittedInv(s, s.pass.id);
    }
  }

  lemma CommittedInv(s: State, id: Id)
    requires Inv(s) && InPhase(s.deployments, id, Routing) && IsActive(s.deployments, id)
    ensures Inv(Committed(s, id))
  {
    var t := Committed(s, id);
    ActiveIsNew(s, id);
    ReplaceHistory(s.deployments, s.history, s.service.current, id, t.deployments[id]);
    ExtendHistory(t.deployments, s.history, s.service.current, id);
    assert forall a :: IsActive(t.deployments, a) ==> IsActive(s.deployments, a) && a != id;
    assert forall a :: !IsActive(t.deployments, a);
    assert DeploymentsInv(t.deployments, t.history, t.service.current);
    PromoteJobs(s, id, t);
  }

  lemma PromoteJobs(s: State, id: Id, t: State)
    requires JobsInv(s) && id !in s.history && id !in s.stops && id in s.deployments && s.deployments[id].hasJob
    requires forall a :: !IsActive(t.deployments, a)
    requires id in t.deployments && t.deployments == s.deployments[id := t.deployments[id]]
    requires t.deployments[id].hasJob && t.deployments[id].status.Healthy? && t.deployments[id].phase.Cleanup?
    requires t.history == s.history + [id] && t.stops == s.stops && t.submitted == s.submitted
      && t.dismantling == s.dismantling
    requires t.service.current == Some(id) && t.service.promotion.None? && t.service.deleting == s.service.deleting
    ensures JobsInv(t)
  {
    forall i, k | 0 <= i < k < |t.history| && InPhase(t.deployments, t.history[k], Done)
      ensures StopFinished(s.stops, t.history[i])
    {
      assert InPhase(s.deployments, s.history[k], Done);
    }
    forall k | k in t.stops && !t.dismantling
      ensures Stoppable(t.deployments, t.service, t.history, k)
    {
      assert Stoppable(s.deployments, s.service, s.history, k);
    }
  }

  lemma FailInv(s: State, id: Id)
    requires Inv(s) && IsActive(s.deployments, id) && !s.deployments[id].phase.FailureCleanup?
    ensures Inv(Put(s, id, Failing(s.deployments[id])).(pass := Idle))
  {
    ActiveIsNew(s, id);
    PutInv(s.(pass := Idle), id, Failing(s.deployments[id]));
  }

  lemma RestorationInv(s: State, id: Id)
    requires Inv(s) && InPhase(s.deployments, id, FailureCleanup)
    ensures Inv(GiveUpPromotion(s, id))
  {
    ObservingIsActive(s, id);
    ActiveIsNew(s, id);
    var t := GiveUpPromotion(s, id);
    assert t.pass.Restoring? && t.pass.id == id;
    assert t.service.promotion == (if s.service.promotion == Some(id) then None else s.service.promotion);
    assert t == s.(service := t.service, pass := t.pass);
    assert PassInv(t.deployments, t.service, t.pass);
    assert PointersInv(t.deployments, t.service);
    ElsewhereInv(s, t);
  }

  /** A stop begins only where the invariant allows it. */
  lemma BeginStopInv(s: State, id: Id)
    requires Inv(s) && id in s.deployments
    requires s.dismantling || Stoppable(s.deployments, s.service, s.history, id)
    ensures Inv(BeginStop(s, id))
  {
    if id !in s.stops {
      BeginStopJobs(s, id);
    }
  }

  lemma BeginStopJobs(s: State, id: Id)
    requires JobsInv(s) && id in s.deployments && id !in s.stops
    requires s.dismantling || Stoppable(s.deployments, s.service, s.history, id)
    ensures JobsInv(s.(stops := s.stops[id := Begun]))
  {
    var t := s.(stops := s.stops[id := Begun]);
    assert forall k :: StopFinished(s.stops, k) ==> StopFinished(t.stops, k);
    forall i, k | 0 <= i < k < |t.history| && InPhase(t.deployments, t.history[k], Done)
      ensures StopFinished(t.stops, t.history[i])
    {
      assert StopFinished(s.stops, s.history[i]);
    }
    forall k | k in t.deployments && t.deployments[k].status.Failed? && t.deployments[k].hasJob
      ensures StopFinished(t.stops, k)
    {
      assert StopFinished(s.stops, k);
    }
  }

  lemma FinishFailureInv(s: State)
    requires Inv(s) && s.pass.Restoring? && s.pass.id in s.deployments
    requires s.deployments[s.pass.id].hasJob ==> StopFinished(s.stops, s.pass.id)
    ensures Inv(Put(s, s.pass.id, s.deployments[s.pass.id].(status := Failed, phase := Done)).(pass := Idle))
  {
    var id := s.pass.id;
    var d := s.deployments[id].(status := Failed, phase := Done);
    var t := Put(s, id, d).(pass := Idle);
    ActiveIsNew(s, id);
    ReplaceHistory(s.deployments, s.history, s.service.current, id, d);
    assert forall a :: IsActive(t.deployments, a) ==> IsActive(s.deployments, a) && a != id;
    assert DeploymentsInv(t.deployments, t.history, t.service.current);
    FailedJobs(s, id, d);
  }

  lemma FailedJobs(s: State, id: Id, d: Deployment)
    requires JobsInv(s) && id in s.deployments && id !in s.history && d.status.Failed? && d.phase.Done?
    requires d.hasJob == s.deployments[id].hasJob && (d.hasJob ==> StopFinished(s.stops, id))
    ensures JobsInv(Put(s, id, d).(pass := Idle))
  {
    var t := Put(s, id, d).(pass := Idle);
    assert forall a :: IsActive(t.deployments, a) ==> IsActive(s.deployments, a);
    forall i, k | 0 <= i < k < |t.history| && InPhase(t.deployments, t.history[k], Done)
      ensures StopFinished(s.stops, t.history[i])
    {
      assert InPhase(s.deployments, s.history[k], Done);
    }
  }

  /** The walk of a release in cleanup finds exactly the releases promoted before it, and none of
      them is current or under promotion. */
  lemma CleanupWalk(s: State, id: Id) returns (k: nat)
    requires Inv(s) && InPhase(s.deployments, id, Cleanup)
    ensures k < |s.history| && s.history[k] == id
    ensures forall p :: p in Predecessors(s.deployments, s.deployments[id].previous, {}) <==> p in s.history[..k]
    ensures forall i :: 0 <= i < k ==> !PassedOver(s, s.history[i])
  {
    assert id in s.history;
    k :| 0 <= k < |s.history| && s.history[k] == id;
    assert IsLast(s.history[..k], s.deployments[id].previous);
    WalkIsHistory(s, k, {});
    ReverseMembers(s.history[..k]);
    EarlierAreEligible(s, k);
  }

  /** A release before another one in the history is neither current nor under promotion. */
  lemma EarlierAreEligible(s: State, k: nat)
    requires HistoryInv(s.deployments, s.history, s.service.current) && PointersInv(s.deployments, s.service)
      && k < |s.history|
    ensures forall i :: 0 <= i < k ==> !PassedOver(s, s.history[i])
  {
    forall i | 0 <= i < k
      ensures !PassedOver(s, s.history[i])
    {
      assert s.history[i] in s.history;
    }
  }

  lemma StopPredecessorInv(s: State, id: Id, p: Id)
    requires Inv(s) && InPhase(s.deployments, id, Cleanup)
    requires p in Predecessors(s.deployments, s.deployments[id].previous, {}) && !PassedOver(s, p)
    ensures Inv(BeginStop(s, p))
  {
    var k := CleanupWalk(s, id);
    assert p in s.history[..k];
    BeginStopInv(s, p);
  }

  /** A stopped predecessor is marked as rolled back. */
  lemma MarkedInv(s: State, p: Id)
    requires Inv(s) && s.pass.Idle? && p in s.history && p in s.deployments
    ensures Inv(Put(s, p, s.deployments[p].(status := RolledBack)))
  {
    var t := Put(s, p, s.deployments[p].(status := RolledBack));
    assert forall a :: IsActive(t.deployments, a) <==> IsActive(s.deployments, a);
    assert HistoryInv(t.deployments, t.history, t.service.current);
    assert DeploymentsInv(t.deployments, t.history, t.service.current);
    assert PointersInv(t.deployments, t.service);
    MarkedJobs(s, p);
  }

  lemma MarkedJobs(s: State, p: Id)
    requires JobsInv(s) && p in s.deployments && !IsActive(s.deployments, p)
    ensures JobsInv(Put(s, p, s.deployments[p].(status := RolledBack)))
  {
    var t := Put(s, p, s.deployments[p].(status := RolledBack));
    forall i, k | 0 <= i < k < |t.history| && InPhase(t.deployments, t.history[k], Done)
      ensures StopFinished(t.stops, t.history[i])
    {
      assert InPhase(s.deployments, s.history[k], Done);
    }
    forall a ensures t.service.deleting ==> !IsActive(t.deployments, a) {
      assert IsActive(t.deployments, a) ==> IsActive(s.deployments, a);
    }
    forall k | k in t.stops && !t.dismantling
      ensures Stoppable(t.deployments, t.service, t.history, k)
    {
      assert Stoppable(s.deployments, s.service, s.history, k);
    }
  }

  lemma FinishCleanupInv(s: State, id: Id)
    requires Inv(s)
    ensures Inv(CleanUp(s, id))
  {
    var t := CleanUp(s, id);
    if t == s { return; }
    var n := CleanupWalk(s, id);
    forall i | 0 <= i < n
      ensures StopFinished(s.stops, s.history[i])
    {
      assert s.history[i] == s.history[..n][i];
      assert s.history[i] in Predecessors(s.deployments, s.deployments[id].previous, {});
    }
    DoneInv(s, n);
  }

  /** A promoted release may be done once every release before it has been stopped. */
  lemma DoneInv(s: State, n: nat)
    requires Inv(s) && n < |s.history| && s.pass.Idle? && s.history[n] in s.deployments
    requires forall i :: 0 <= i < n ==> StopFinished(s.stops, s.history[i])
    ensures Inv(Put(s, s.history[n], s.deployments[s.history[n]].(phase := Done)))
  {
    var id := s.history[n];
    var d := s.deployments[id].(phase := Done);
    var t := Put(s, id, d);
    assert id in s.history;
    assert forall a :: IsActive(t.deployments, a) <==> IsActive(s.deployments, a);
    assert HistoryInv(t.deployments, t.history, t.service.current);
    assert DeploymentsInv(t.deployments, t.history, t.service.current);
    assert PointersInv(t.deployments, t.service);
    DoneJobs(s, n);
  }

  lemma DoneJobs(s: State, n: nat)
    requires JobsInv(s) && n < |s.history| && s.history[n] in s.deployments
    requires PromotedShape(s.deployments[s.history[n]])
    requires forall i, j :: 0 <= i < j < |s.history| ==> s.history[i] != s.history[j]
    requires forall i :: 0 <= i < n ==> StopFinished(s.stops, s.history[i])
    ensures JobsInv(Put(s, s.history[n], s.deployments[s.history[n]].(phase := Done)))
  {
    var id := s.history[n];
    var t := Put(s, id, s.deployments[id].(phase := Done));
    forall i, k | 0 <= i < k < |t.history| && InPhase(t.deployments, t.history[k], Done)
      ensures StopFinished(t.stops, t.history[i])
    {
      if k != n { assert InPhase(s.deployments, s.history[k], Done); }
    }
    forall a ensures t.service.deleting ==> !IsActive(t.deployments, a) {
      assert IsActive(t.deployments, a) ==> IsActive(s.deployments, a);
    }
    assert id in s.history;
    forall k | k in t.stops && !t.dismantling
      ensures Stoppable(t.deployments, t.service, t.history, k)
    {
      assert Stoppable(s.deployments, s.service, s.history, k);
    }
  }

  lemma PreparationInv(s: State, id: Id, d: Deployment)
    requires Inv(s) && s.pass.Idle? && id in s.deployments
    requires var p := s.deployments[id].phase; p.Prepare? || p.BuildSubmit? || p.Building? || p.AppPrepare?
    requires d == s.deployments[id].(hasJob := true, phase := d.phase, status := d.status)
    requires d.phase.BuildSubmit? || d.phase.Building? || d.phase.AppPrepare? || d.phase.AppSubmit?
    requires d.Active()
    ensures Inv(Put(s, id, d))
  {
    ObservingIsActive(s, id);
    ActiveIsNew(s, id);
    PutInv(s, id, d);
  }

  lemma SubmitInv(s: State, id: Id, posted: bool, accepted: bool)
    requires Inv(s) && s.pass.Idle? && InPhase(s.deployments, id, AppSubmit)
    ensures
      var t := if posted then s.(submitted := s.submitted + {id}) else s;
      Inv(if accepted then Put(t, id, s.deployments[id].(phase := Observing)) else t)
  {
    ObservingIsActive(s, id);
    ActiveIsNew(s, id);
    var t := if posted then s.(submitted := s.submitted + {id}) else s;
    assert Inv(t);
    if accepted { PutInv(t, id, s.deployments[id].(phase := Observing)); }
  }

  /** Steps that leave the deployments, their jobs and the current pointer alone. */
  lemma ElsewhereInv(s: State, t: State)
    requires Inv(s)
    requires t.deployments == s.deployments && t.history == s.history && t.stops == s.stops
      && t.submitted == s.submitted
    requires t.dismantling == s.dismantling && t.service.current == s.service.current
    requires PointersInv(t.deployments, t.service) && PassInv(t.deployments, t.service, t.pass)
    requires t.service.promotion == s.service.promotion || t.service.promotion.None?
      || t.service.promotion == s.service.current
    requires t.service.deleting ==> forall id :: !IsActive(s.deployments, id)
    requires t.dismantling ==> t.service.deleting
    ensures Inv(t)
  {
    if !t.dismantling {
      forall k | k in t.stops
        ensures Stoppable(t.deployments, t.service, t.history, k)
      {
        assert Stoppable(s.deployments, s.service, s.history, k);
      }
    }
  }

  /** A step that changes no more than the service's addresses and promotion, and the pass. */
  lemma PointersOnly(s: State, v: Service, pass: Pass)
    requires Inv(s) && v.current == s.service.current && v.deleting == s.service.deleting
    requires PointersInv(s.deployments, v) && PassInv(s.deployments, v, pass)
    requires v.promotion == s.service.promotion || v.promotion.None? || v.promotion == s.service.current
    ensures Inv(s.(service := v, pass := pass))
  {
    ElsewhereInv(s, s.(service := v, pass := pass));
  }

  lemma MoveInv(s: State, e: Event)
    requires Inv(s)
    ensures Inv(MoveStep(s, e))
  {
    var t := MoveStep(s, e);
    assert t == s.(service := t.service, pass := t.pass);
    if t != s { PointersOnly(s, t.service, t.pass); }
  }

  lemma ConfigInv(s: State, others: nat, recorded: bool, pass: Pass)
    requires Inv(s) && PassInv(s.deployments, s.service, pass)
    ensures Inv(ApplyConfig(s, others, recorded, pass))
  {
    ElsewhereInv(s, ApplyConfig(s, others, recorded, pass));
  }

  lemma RefreshInv(s: State, others: nat, recorded: bool)
    requires Inv(s) && !s.pass.Idle?
    ensures Inv(ApplyConfig(s, others, recorded, s.pass.(refresh := Configured)))
  {
    assert PassInv(s.deployments, s.service, s.pass.(refresh := Configured));
    ConfigInv(s, others, recorded, s.pass.(refresh := Configured));
  }

  lemma AcknowledgeInv(s: State, version: nat)
    requires Inv(s)
    ensures Inv(s.(tunnel := s.tunnel.(acknowledged := version)))
  {
    ElsewhereInv(s, s.(tunnel := s.tunnel.(acknowledged := version)));
  }

  lemma TunnelInv(s: State, e: Event)
    requires Inv(s)
    ensures Inv(TunnelStep(s, e))
  {
    match e
    case Refresh(others, recorded) => if !s.pass.Idle? { RefreshInv(s, others, recorded); }
    case ConfigureElsewhere(others, recorded) => if s.pass.Idle? { ConfigInv(s, others, recorded, Idle); }
    case Acknowledge(version) => AcknowledgeInv(s, version);
    case _ =>
  }

  /** Domains and the tunnel are no part of the invariant. */
  lemma DomainsOnly(s: State, domains: map<DomainId, DomainStatus>, used: set<DomainId>)
    requires Inv(s)
    ensures Inv(s.(domains := domains, usedDomains := used))
  {
    ElsewhereInv(s, s.(domains := domains, usedDomains := used));
  }

  lemma DomainInv(s: State, e: Event)
    requires Inv(s)
    ensures Inv(DomainStep(s, e))
  {
    var t := DomainStep(s, e);
    assert t == s.(domains := t.domains, usedDomains := t.usedDomains);
    DomainsOnly(s, t.domains, t.usedDomains);
  }

  lemma StartPromotionInv(s: State, id: Id, refresh: Refresh)
    requires Inv(s) && InPhase(s.deployments, id, Routing)
    ensures Inv(s.(pass := Promoting(id, refresh)))
  {
    ObservingIsActive(s, id);
    ElsewhereInv(s, s.(pass := Promoting(id, refresh)));
  }

  lemma RemovalInv(s: State, e: Event)
    requires Inv(s)
    ensures Inv(RemovalStep(s, e))
  {
    var t := RemovalStep(s, e);
    if t == s { return; }
    match e
    case RemoveService =>
      assert forall a :: IsActive(s.deployments, a) ==> a in s.deployments;
      ElsewhereInv(s, t);
    case UndoRemoval => ElsewhereInv(s, t);
    case Dismantle(id) =>
      DismantleInv(s);
      BeginStopInv(s.(dismantling := true), id);
      assert t == BeginStop(s.(dismantling := true), id);
  }

  lemma DismantleInv(s: State)
    requires Inv(s) && s.service.deleting
    ensures Inv(s.(dismantling := true))
  {
    assert JobsInv(s.(dismantling := true));
  }

  lemma StoppedInv(s: State, id: Id)
    requires Inv(s) && id in s.stops
    ensures Inv(s.(stops := s.stops[id := Finished]))
  {
    var t := s.(stops := s.stops[id := Finished]);
    assert forall k :: StopFinished(s.stops, k) ==> StopFinished(t.stops, k);
    forall i, k | 0 <= i < k < |t.history| && InPhase(t.deployments, t.history[k], Done)
      ensures StopFinished(t.stops, t.history[i])
    {
      assert StopFinished(s.stops, s.history[i]);
    }
    forall k | k in t.deployments && t.deployments[k].status.Failed? && t.deployments[k].hasJob
      ensures StopFinished(t.stops, k)
    {
      assert StopFinished(s.stops, k);
    }
    assert JobsInv(t);
  }

  lemma PreparationStepInv(s: State, e: Event)
    requires Inv(s)
    ensures Inv(PreparationStep(s, e))
  {
    var t := PreparationStep(s, e);
    if t == s { return; }
    ObservingIsActive(s, e.id);
    if e.Submit? { SubmitInv(s, e.id, e.posted, e.accepted); }
    else { PreparationInv(s, e.id, t.deployments[e.id]); }
  }

  lemma FailureInv(s: State, e: Event)
    requires Inv(s)
    ensures Inv(FailureStep(s, e))
  {
    if FailureStep(s, e) == s { return; }
    match e
    case FailDeployment(id) => FailInv(s, id);
    case RecoverCurrent(id) => ObservingIsActive(s, id); ActiveIsNew(s, id);
    case StartRestoration(id) => RestorationInv(s, id);
    case StopCandidate => ActiveIsNew(s, s.pass.id); BeginStopInv(s, s.pass.id);
    case FinishFailure => FinishFailureInv(s);
    case _ =>
  }

  lemma CleanupInv(s: State, e: Event)
    requires Inv(s)
    ensures Inv(CleanupStep(s, e))
  {
    if CleanupStep(s, e) == s { return; }
    match e
    case StopPredecessor(id, p) => StopPredecessorInv(s, id, p);
    case MarkStopped(id, p) =>
      var k := CleanupWalk(s, id);
      assert p in s.history[..k];
      MarkedInv(s, p);
    case FinishCleanup(id) => FinishCleanupInv(s, id);
    case _ =>
  }

  predicate InPass(e: Event) {
    e.Prepared? || e.BuildSubmitted? || e.Built? || e.ApplicationPrepared? || e.Submit? || e.FailDeployment?
    || e.RecoverCurrent? || e.StartRestoration? || e.StopCandidate? || e.FinishFailure?
  }

  lemma PassStepInv(s: State, e: Event)
    requires Inv(s) && InPass(e)
    ensures Inv(Apply(s, e))
  {
    PassApplies(s, e);
    if PreparationEvent(e) { PreparationStepInv(s, e); } else { FailureInv(s, e); }
  }

  predicate AroundPass(e: Event) {
    e.StopPredecessor? || e.MarkStopped? || e.FinishCleanup? || e.StartMove? || e.ResumeMove? || e.FinishMove?
    || e.Refresh? || e.ConfigureElsewhere? || e.Acknowledge?
  }

  predicate CleanupEvent(e: Event) {
    e.StopPredecessor? || e.MarkStopped? || e.FinishCleanup?
  }

  predicate MoveEvent(e: Event) {
    e.StartMove? || e.ResumeMove? || e.FinishMove?
  }

  /** Which step an event around a pass is. */
  lemma AroundApplies(s: State, e: Event)
    requires AroundPass(e)
    ensures
      Apply(s, e)
      == if CleanupEvent(e) then CleanupStep(s, e) else if MoveEvent(e) then MoveStep(s, e) else TunnelStep(s, e)
  {}

  predicate PreparationEvent(e: Event) {
    e.Prepared? || e.BuildSubmitted? || e.Built? || e.ApplicationPrepared? || e.Submit?
  }

  lemma PassApplies(s: State, e: Event)
    requires InPass(e)
    ensures Apply(s, e) == if PreparationEvent(e) then PreparationStep(s, e) else FailureStep(s, e)
  {}

  lemma AroundStepInv(s: State, e: Event)
    requires Inv(s) && AroundPass(e)
    ensures Inv(Apply(s, e))
  {
    AroundApplies(s, e);
    if CleanupEvent(e) { CleanupInv(s, e); }
    else if MoveEvent(e) { MoveInv(s, e); }
    else { TunnelInv(s, e); }
  }

  lemma OtherStepInv(s: State, e: Event)
    requires Inv(s) && !InPass(e) && !AroundPass(e)
    ensures Inv(Apply(s, e))
  {
    if e.AddDomain? || e.DeleteDomain? || e.ForgetDomain? {
      DomainInv(s, e);
      assert Apply(s, e) == DomainStep(s, e);
    } else if e.RemoveService? || e.UndoRemoval? || e.Dismantle? {
      RemovalInv(s, e);
      assert Apply(s, e) == RemovalStep(s, e);
    } else {
      match e
      case Queue(id) => QueueInv(s, id);
      case Observe(id, port, torn) => ObserveInv(s, id, port, torn);
      case StartPromotion(id) =>
        if InPhase(s.deployments, id, Routing) { StartPromotionInv(s, id, StartRefresh(s)); }
      case CommitPromotion => PromoteInv(s);
      case Interrupt => ElsewhereInv(s, s.(pass := Idle));
      case JobStopped(id) => if id in s.stops { StoppedInv(s, id); }
    }
  }

  lemma ApplyInv(s: State, e: Event)
    requires Inv(s)
    ensures Inv(Apply(s, e))
  {
    if InPass(e) { PassStepInv(s, e); }
    else if AroundPass(e) { AroundStepInv(s, e); }
    else { OtherStepInv(s, e); }
  }

  lemma {:induction false} RunInv(s: State, events: seq<Event>)
    requires Inv(s)
    ensures Inv(Run(s, events))
    decreases |events|
  {
    if |events| > 0 {
      ApplyInv(s, events[0]);
      RunInv(Apply(s, events[0]), events[1..]);
    }
  }

  lemma {:induction false} RunConcat(s: State, first: seq<Event>, second: seq<Event>)
    ensures Run(s, first + second) == Run(Run(s, first), second)
    decreases |first|
  {
    if |first| == 0 {
      assert first + second == second;
    } else {
      assert (first + second)[1..] == first[1..] + second;
      RunConcat(Apply(s, first[0]), first[1..], second);
    }
  }

  // ----- What the machine promises -----

  /** Over every run: at most one deployment is active and it was queued on the current one; the
      current pointer is the last promotion; and the walk back from any release that was ever
      promoted is the promotion history before it, newest first. */
  lemma PointersFollowHistory(events: seq<Event>)
    ensures
      var s := Run(Initial(), events);
      && (forall a, b :: IsActive(s.deployments, a) && IsActive(s.deployments, b) ==> a == b)
      && (forall a :: IsActive(s.deployments, a) ==> s.deployments[a].previous == s.service.current)
      && IsLast(s.history, s.service.current)
      && (forall k :: 0 <= k < |s.history| ==>
            s.history[k] in s.deployments
            && Predecessors(s.deployments, s.deployments[s.history[k]].previous, {}) == Reverse(s.history[..k]))
  {
    InitialInv();
    RunInv(Initial(), events);
    var s := Run(Initial(), events);
    forall k | 0 <= k < |s.history|
      ensures s.history[k] in s.deployments
      ensures Predecessors(s.deployments, s.deployments[s.history[k]].previous, {}) == Reverse(s.history[..k])
    {
      assert s.history[k] in s.history;
      assert IsLast(s.history[..k], s.deployments[s.history[k]].previous);
      WalkIsHistory(s, k, {});
    }
  }

  /** No pointer to the current release moves. */
  predicate SamePointer(s: State, t: State) {
    t.history == s.history && t.service.current == s.service.current
  }

  lemma PassStepPointer(s: State, e: Event)
    requires InPass(e)
    ensures SamePointer(s, Apply(s, e))
  {
    PassApplies(s, e);
    if PreparationEvent(e) {
      assert SamePointer(s, PreparationStep(s, e));
    } else {
      FailurePointer(s, e);
    }
  }

  lemma FailurePointer(s: State, e: Event)
    ensures SamePointer(s, FailureStep(s, e))
  {}

  lemma AroundStepPointer(s: State, e: Event)
    requires AroundPass(e)
    ensures SamePointer(s, Apply(s, e))
  {
    AroundApplies(s, e);
  }

  lemma OtherStepPointer(s: State, e: Event)
    requires !InPass(e) && !AroundPass(e) && !e.CommitPromotion?
    ensures SamePointer(s, Apply(s, e))
  {
    if e.AddDomain? || e.DeleteDomain? || e.ForgetDomain? {
      assert Apply(s, e) == DomainStep(s, e);
    } else if e.RemoveService? || e.UndoRemoval? || e.Dismantle? {
      assert Apply(s, e) == RemovalStep(s, e);
    }
  }

  /** The current pointer and the history move together, and only when a promotion commits whose
      refresh was acknowledged. */
  lemma CurrentMovesByPromotion(s: State, e: Event)
    ensures
      var t := Apply(s, e);
      || SamePointer(s, t)
      || (e.CommitPromotion? && s.pass.Promoting? && Refreshed(s, s.pass.refresh)
          && t.history == s.history + [s.pass.id] && t.service.current == Some(s.pass.id))
  {
    if InPass(e) { PassStepPointer(s, e); }
    else if AroundPass(e) { AroundStepPointer(s, e); }
    else if e.CommitPromotion? { assert Apply(s, e) == Promote(s); }
    else { OtherStepPointer(s, e); }
  }

  /** When every deployment of the service is done, every application job ever submitted for it has
      been stopped, the current one excepted. */
  lemma OnlyTheCurrentJobIsLeft(events: seq<Event>)
    requires forall id :: id in Run(Initial(), events).deployments ==>
      Run(Initial(), events).deployments[id].phase.Done?
    ensures
      var s := Run(Initial(), events);
      forall id :: id in s.submitted ==> s.service.current == Some(id) || StopFinished(s.stops, id)
  {
    InitialInv();
    RunInv(Initial(), events);
    var s := Run(Initial(), events);
    forall id | id in s.submitted && s.service.current != Some(id)
      ensures StopFinished(s.stops, id)
    {
      if id in s.history {
        var i :| 0 <= i < |s.history| && s.history[i] == id;
        var k := |s.history| - 1;
        assert s.history[k] in s.history;
        assert InPhase(s.deployments, s.history[k], Done);
      }
    }
  }

  /** Unless the service is being dismantled, no stop ever begins for the current deployment or the
      one under promotion: not even after an accident. */
  lemma CurrentIsNeverStopped(events: seq<Event>)
    requires !Run(Initial(), events).dismantling
    ensures
      var s := Run(Initial(), events);
      && (s.service.current.Some? ==> s.service.current.value !in s.stops)
      && (s.service.promotion.Some? ==> s.service.promotion.value !in s.stops)
  {
    InitialInv();
    RunInv(Initial(), events);
    var s := Run(Initial(), events);
    assert forall id :: id in s.stops ==> Stoppable(s.deployments, s.service, s.history, id);
  }

  // ----- The service document and its deployments, changed in place -----

  class ServiceRuntime {
    var service: Service
    var deployments: map<Id, Deployment>
    var stops: map<Id, Stop>
    var tunnel: Tunnel

    constructor ()
      ensures service == Initial().service && deployments == map[] && stops == map[] && tunnel == Initial().tunnel
    {
      service := Service(None, None, None, None, false);
      deployments := map[];
      stops := map[];
      tunnel := Tunnel([Config(map[], 0)], 0, 0, None);
    }

    /** `s` describes this object. */
    ghost predicate Describes(s: State)
      reads this
    {
      s.service == service && s.deployments == deployments && s.stops == stops && s.tunnel == tunnel
    }

    method QueueOn(id: Id, ghost s: State) returns (queued: bool)
      requires Describes(s) && id !in deployments
      modifies this
      ensures Describes(QueueDeployment(s, id))
      ensures queued <==> !s.service.deleting && !AnyActive(s.deployments)
    {
      if service.deleting {
        return false;
      }
      var active := exists d :: d in deployments && deployments[d].Active();
      assert active <==> AnyActive(deployments);
      if active {
        return false;
      }
      deployments := deployments[id := Deployment(Queued, Prepare, service.current, false, None)];
      return true;
    }

    method CommitPromotionOf(id: Id, ghost s: State) returns (committed: bool)
      requires Describes(s) && s.pass.Promoting? && s.pass.id == id && Refreshed(s, s.pass.refresh) && id in deployments
      modifies this
      ensures Describes(Promote(s))
      ensures committed <==> s.service.promotion == Some(id)
    {
      var d := deployments[id];
      if service.promotion != Some(id) {
        deployments := deployments[id := d.(phase := FailureCleanup, status := Deploying)];
        return false;
      }
      service := service.(current := Some(id), address := d.address);
      service := service.(promotion := None, promotionAddress := None);
      d := d.(status := Healthy);
      d := d.(phase := Cleanup);
      deployments := deployments[id := d];
      return true;
    }

    method Configure(wanted: Config, accepted: bool) returns (version: nat)
      modifies this`tunnel
      ensures tunnel == if accepted then ConfigureTunnel(old(tunnel), wanted, true) else old(tunnel)
      ensures version == tunnel.version
    {
      if tunnel.hash != Some(wanted) && accepted {
        tunnel := tunnel.(configs := tunnel.configs + [wanted]);
        tunnel := tunnel.(version := |tunnel.configs| - 1, hash := Some(wanted));
      }
      version := tunnel.version;
    }

    /** The walk over the predecessors of a release. */
    method Walk(start: Option<Id>) returns (found: seq<Id>)
      ensures found == Predecessors(deployments, start, {})
    {
      found := [];
      var seen: set<Id> := {};
      var previous := start;
      assert [] + Predecessors(deployments, previous, seen) == Predecessors(deployments, start, {});
      while previous.Some? && previous.value !in seen && previous.value in deployments
        invariant found + Predecessors(deployments, previous, seen) == Predecessors(deployments, start, {})
        decreases |deployments.Keys - seen|
      {
        var id := previous.value;
        var next := deployments[id].previous;
        OneStepBack(deployments, found, id, seen);
        found := found + [id];
        seen := seen + {id};
        previous := next;
      }
      assert found + [] == found;
    }

    /** One predecessor: passed over, waited for, or marked as rolled back. */
    method Visit(p: Id, ghost s: State, ghost ids: seq<Id>) returns (settled: bool)
      requires service == s.service && stops == s.stops && deployments == Marked(s, ids)
      modifies this`deployments, this`stops
      ensures settled <==> !Awaited(s, p)
      ensures deployments == Marked(s, if settled then ids + [p] else ids)
      ensures stops == if settled then s.stops else BeginStop(s, p).stops
    {
      MarkOneMore(s, ids, p);
      if service.current == Some(p) || service.promotion == Some(p) || p !in deployments || !deployments[p].hasJob {
        return true;
      }
      if p !in stops {
        stops := stops[p := Begun];
        return false;
      }
      if stops[p].Begun? {
        return false;
      }
      deployments := deployments[p := deployments[p].(status := RolledBack)];
      return true;
    }

    /** cleanup: begins the stops that are missing, marks what has been stopped, and finishes once
        nothing is left; otherwise it waits for the predecessor it came to. */
    method CleanUpAfter(id: Id, ghost s: State) returns (finished: bool, ghost found: seq<Id>, ghost n: nat)
      requires Describes(s) && InPhase(deployments, id, Cleanup)
      modifies this
      ensures service == s.service && tunnel == s.tunnel
      ensures found == Predecessors(s.deployments, s.deployments[id].previous, {})
      ensures n <= |found| && (forall k :: 0 <= k < n ==> !Awaited(s, found[k])) && (finished <==> n == |found|)
      ensures finished ==> stops == s.stops && deployments == Marked(s, found)[id := s.deployments[id].(phase := Done)]
      ensures !finished ==> Awaited(s, found[n]) && deployments == Marked(s, found[..n])
      ensures !finished ==> stops == BeginStop(s, found[n]).stops
    {
      var d := deployments[id];
      var walk := Walk(d.previous);
      found, n := walk, 0;
      assert Marked(s, []) == s.deployments;
      var i := 0;
      while i < |walk|
        invariant 0 <= i <= |walk| && n == i
        invariant service == s.service && tunnel == s.tunnel && stops == s.stops
        invariant forall k :: 0 <= k < i ==> !Awaited(s, walk[k])
        invariant deployments == Marked(s, walk[..i])
      {
        assert walk[..i + 1] == walk[..i] + [walk[i]];
        var settled := Visit(walk[i], s, walk[..i]);
        if !settled {
          return false, found, n;
        }
        i := i + 1;
        n := i;
      }
      assert walk[..i] == walk;
      deployments := deployments[id := d.(phase := Done)];
      return true, found, n;
    }
  }

  predicate Awaited(s: State, p: Id) {
    !PassedOver(s, p) && !StopFinished(s.stops, p)
  }

  /** The deployments once these predecessors have been marked. */
  function Marked(s: State, ids: seq<Id>): (r: map<Id, Deployment>)
    ensures r.Keys == s.deployments.Keys
  {
    map p | p in s.deployments ::
      if p in ids && !PassedOver(s, p) then s.deployments[p].(status := RolledBack) else s.deployments[p]
  }

  lemma MarkOneMore(s: State, ids: seq<Id>, p: Id)
    ensures PassedOver(s, p) ==> Marked(s, ids + [p]) == Marked(s, ids)
    ensures !PassedOver(s, p) ==> Marked(s, ids + [p]) == Marked(s, ids)[p := Marked(s, ids)[p].(status := RolledBack)]
    ensures p in s.deployments ==> Marked(s, ids)[p].hasJob == s.deployments[p].hasJob
  {}
}
