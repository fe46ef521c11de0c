/**
  What the public tunnel may be serving while deployments come and go.  The promise is that no
  domain is routed to a job that is being stopped.  It is characterized exactly, for runs with any
  accidents: promotions and predecessor stops always keep it, and the stop of a failed candidate
  breaks it in two situations, each shown by a run.
 */
module RouteSafety {
  import opened Common
  import opened Deployments

  type Domains = map<DomainId, DomainStatus>

  /** Domain `x`, not being removed, is routed by version `v` of the configuration. */
  predicate Routes(t: Tunnel, domains: Domains, v: int, x: DomainId) {
    0 <= v < |t.configs| && x in domains && domains[x].Live? && x in t.configs[v].routes
  }

  /** Version `v` may still be served, and routes `x`. */
  predicate LiveRoute(t: Tunnel, domains: Domains, v: int, x: DomainId) {
    Routes(t, domains, v, x) && MayServe(t, v)
  }

  function OwnerOf(t: Tunnel, v: int, x: DomainId): Id
    requires 0 <= v < |t.configs| && x in t.configs[v].routes
  {
    t.configs[v].routes[x].owner
  }

  /** The promise: every live route leads to a job whose stop has not begun. */
  ghost predicate RoutesAreSafe(s: State) {
    forall v, x :: LiveRoute(s.tunnel, s.domains, v, x) ==> OwnerOf(s.tunnel, v, x) !in s.stops
  }

  /** No live route leads to `id`. */
  ghost predicate Unrouted(s: State, id: Id) {
    forall v, x :: LiveRoute(s.tunnel, s.domains, v, x) ==> OwnerOf(s.tunnel, v, x) != id
  }

  // ----- Invariant of every run -----

  /** The recorded hash is the one of the recorded version, which need not be the newest accepted. */
  predicate TunnelInv(t: Tunnel) {
    && t.acknowledged < |t.configs| && t.version < |t.configs|
    && (t.hash.Some? ==> t.hash.value == t.configs[t.version])
  }

  /** Where the owner of a route can stand: promoted, under promotion, or failed. */
  predicate Placed(ds: map<Id, Deployment>, history: seq<Id>, promotion: Option<Id>, o: Id) {
    o in history || promotion == Some(o) || (o in ds && (ds[o].phase.FailureCleanup? || ds[o].phase.Done?))
  }

  ghost predicate OwnersInv(s: State) {
    forall v, x {:trigger x in s.tunnel.configs[v].routes} ::
      0 <= v < |s.tunnel.configs| && x in s.tunnel.configs[v].routes ==>
        x in s.usedDomains && Placed(s.deployments, s.history, s.service.promotion, OwnerOf(s.tunnel, v, x))
  }

  /** Of the releases ever promoted, only the current one is served. */
  ghost predicate ServedInv(t: Tunnel, domains: Domains, history: seq<Id>, current: Option<Id>) {
    forall v, x :: LiveRoute(t, domains, v, x) && OwnerOf(t, v, x) in history ==> current == Some(OwnerOf(t, v, x))
  }

  /** Once a version routes a live domain to `p`, every later one leads nowhere else. */
  ghost predicate LeadsOn(t: Tunnel, domains: Domains, p: Id) {
    forall v, w, x, y :: v <= w && Routes(t, domains, v, x) && OwnerOf(t, v, x) == p && Routes(t, domains, w, y) ==>
      OwnerOf(t, w, y) == p
  }

  ghost predicate PromotionInv(t: Tunnel, domains: Domains, v: Service) {
    v.promotion.Some? && v.promotion != v.current ==> LeadsOn(t, domains, v.promotion.value)
  }

  /** The recorded version routes every live domain that is routed at all, and where it is wanted. */
  ghost predicate AsWanted(s: State) {
    var t := s.tunnel;
    forall v, x :: LiveRoute(t, s.domains, v, x) && t.version < |t.configs| ==>
      x in t.configs[t.version].routes && Some(t.configs[t.version].routes[x]) == Route(s.service)
  }

  ghost predicate NothingServed(t: Tunnel, domains: Domains) {
    forall v, x :: !LiveRoute(t, domains, v, x)
  }

  predicate HasAddress(ds: map<Id, Deployment>, id: Id) {
    id in ds && ds[id].address.Some?
  }

  /** What a refresh has established so far. */
  ghost predicate RefreshInv(s: State) {
    && (s.pass.Promoting? && s.pass.refresh.Skipped? ==> NothingServed(s.tunnel, s.domains))
    && (s.pass.Restoring? && s.pass.refresh.Skipped? && HasAddress(s.deployments, s.pass.id) ==>
          NothingServed(s.tunnel, s.domains))
    && (!s.pass.Idle? && s.pass.refresh.Configured? ==> AsWanted(s))
  }

  ghost predicate RouteInv(s: State) {
    && TunnelInv(s.tunnel) && (forall x :: x in s.domains ==> x in s.usedDomains)
    && OwnersInv(s) && ServedInv(s.tunnel, s.domains, s.history, s.service.current)
    && PromotionInv(s.tunnel, s.domains, s.service) && RefreshInv(s)
  }

  lemma InitialRoutes()
    ensures RouteInv(Initial())
  {}

  // ----- Every step keeps it -----

  /** Live domains only ever become fewer, apart from new ones no configuration names. */
  predicate DomainsFrom(s: State, t: State) {
    && s.usedDomains <= t.usedDomains
    && (forall x :: x in t.domains ==> x in t.usedDomains)
    && (forall x :: x in t.domains && t.domains[x].Live? && x in s.usedDomains ==> x in s.domains && s.domains[x].Live?)
  }

  ghost predicate NeverRouted(t: Tunnel, id: Id) {
    forall v, x {:trigger x in t.configs[v].routes} ::
      0 <= v < |t.configs| && x in t.configs[v].routes ==> OwnerOf(t, v, x) != id
  }

  predicate OwnersFrom(s: State, t: State) {
    && t.history == s.history && t.service.current == s.service.current
    && (s.service.promotion.Some? ==> Placed(t.deployments, t.history, t.service.promotion, s.service.promotion.value))
    && (forall o :: o in s.deployments && (s.deployments[o].phase.FailureCleanup? || s.deployments[o].phase.Done?) ==>
          Placed(t.deployments, t.history, t.service.promotion, o))
  }

  ghost predicate PromotionFrom(s: State, t: State) {
    || t.service.promotion.None? || t.service.promotion == s.service.promotion
    || t.service.promotion == t.service.current || NeverRouted(s.tunnel, t.service.promotion.value)
  }

  /** The pass goes on with the same wishes, and no address was saved meanwhile. */
  ghost predicate PassFrom(s: State, t: State) {
    && t.pass == s.pass && Route(t.service) == Route(s.service)
    && (forall id :: HasAddress(t.deployments, id) ==> HasAddress(s.deployments, id))
  }

  /** A live route afterwards was one before. */
  lemma RoutesBefore(s: State, t: State)
    requires OwnersInv(s) && t.tunnel == s.tunnel && DomainsFrom(s, t)
    ensures forall v, x :: Routes(t.tunnel, t.domains, v, x) ==> Routes(s.tunnel, s.domains, v, x)
  {
    forall v, x | Routes(t.tunnel, t.domains, v, x)
      ensures Routes(s.tunnel, s.domains, v, x)
    {
      assert x in s.tunnel.configs[v].routes;
    }
  }

  /** Steps that leave the tunnel and the current pointer alone. */
  lemma SameTunnel(s: State, t: State)
    requires RouteInv(s) && t.tunnel == s.tunnel && DomainsFrom(s, t) && OwnersFrom(s, t) && PromotionFrom(s, t)
    requires t.pass.Idle? || PassFrom(s, t) || RefreshInv(t)
    ensures RouteInv(t)
  {
    RoutesBefore(s, t);
    assert OwnersInv(t) by { SameOwners(s, t); }
    assert forall v, x :: LiveRoute(t.tunnel, t.domains, v, x) ==> LiveRoute(s.tunnel, s.domains, v, x);
    SamePromotion(s, t);
  }

  lemma SameOwners(s: State, t: State)
    requires OwnersInv(s) && t.tunnel == s.tunnel && s.usedDomains <= t.usedDomains && OwnersFrom(s, t)
    ensures OwnersInv(t)
  {
    forall v, x | 0 <= v < |t.tunnel.configs| && x in t.tunnel.configs[v].routes
      ensures x in t.usedDomains && Placed(t.deployments, t.history, t.service.promotion, OwnerOf(t.tunnel, v, x))
    {
      assert x in s.tunnel.configs[v].routes;
    }
  }

  lemma SamePromotion(s: State, t: State)
    requires PromotionInv(s.tunnel, s.domains, s.service) && PromotionFrom(s, t) && t.tunnel == s.tunnel
    requires t.service.current == s.service.current
    requires forall v, x :: Routes(t.tunnel, t.domains, v, x) ==> Routes(s.tunnel, s.domains, v, x)
    ensures PromotionInv(t.tunnel, t.domains, t.service)
  {
    if t.service.promotion.Some? && t.service.promotion != t.service.current {
      var p := t.service.promotion.value;
      forall v, w, x, y | v <= w && Routes(t.tunnel, t.domains, v, x) && OwnerOf(t.tunnel, v, x) == p
                          && Routes(t.tunnel, t.domains, w, y)
        ensures OwnerOf(t.tunnel, w, y) == p
      {
        assert x in s.tunnel.configs[v].routes;
        assert Routes(s.tunnel, s.domains, v, x) && Routes(s.tunnel, s.domains, w, y);
      }
    }
  }

  /** What is wanted leads to the current release or to the deployment under promotion. */
  lemma WantedOwner(s: State)
    requires Inv(s) && Route(s.service).Some?
    ensures
      var o := Route(s.service).value.owner;
      && Placed(s.deployments, s.history, s.service.promotion, o)
      && (o in s.history ==> s.service.current == Some(o))
      && (s.service.promotion.Some? ==> s.service.promotion == Some(o))
  {
    var o := Route(s.service).value.owner;
    if s.service.promotionAddress.None? {
      assert s.service.current == Some(o) && o in s.history;
    } else if s.service.current != Some(o) {
      ActiveIsNew(s, o);
    }
  }

  lemma DesiredIsWanted(s: State, others: nat)
    requires DesiredRoutes(s).Some?
    ensures
      var routes := DesiredRoutes(s).value;
      forall x :: x in LiveDomains(s) <==> x in routes && Route(s.service) == Some(routes[x])
    ensures forall x :: x in DesiredRoutes(s).value ==> x in LiveDomains(s)
  {}

  /** One more accepted configuration, recorded or not. */
  lemma SentRoutes(s: State, wanted: Config, t: State)
    requires Inv(s) && RouteInv(s)
    requires forall x :: x in wanted.routes ==> x in s.usedDomains && Route(s.service) == Some(wanted.routes[x])
    requires t == s.(tunnel := t.tunnel, lost := t.lost, pass := t.pass)
    requires t.tunnel == s.tunnel.(
      configs := s.tunnel.configs + [wanted], version := t.tunnel.version, hash := t.tunnel.hash)
    requires TunnelInv(t.tunnel) && RefreshInv(t)
    ensures RouteInv(t)
  {
    var last := |s.tunnel.configs|;
    if Route(s.service).Some? { WantedOwner(s); }
    assert forall v, x :: Routes(t.tunnel, t.domains, v, x) && v != last ==> Routes(s.tunnel, s.domains, v, x);
    assert forall x :: x in t.tunnel.configs[last].routes ==>
      Some(t.tunnel.configs[last].routes[x]) == Route(s.service);
    SentOwners(s, wanted, t);
    SentServed(s, wanted, t);
    SentPromotion(s, wanted, t);
  }

  lemma SentOwners(s: State, wanted: Config, t: State)
    requires Inv(s) && OwnersInv(s) && t == s.(tunnel := t.tunnel, lost := t.lost, pass := t.pass)
    requires forall x :: x in wanted.routes ==> x in s.usedDomains && Route(s.service) == Some(wanted.routes[x])
    requires t.tunnel.configs == s.tunnel.configs + [wanted]
    ensures OwnersInv(t)
  {
    if Route(s.service).Some? { WantedOwner(s); }
    forall v, x | 0 <= v < |t.tunnel.configs| && x in t.tunnel.configs[v].routes
      ensures x in t.usedDomains && Placed(t.deployments, t.history, t.service.promotion, OwnerOf(t.tunnel, v, x))
    {
      if v < |s.tunnel.configs| { assert x in s.tunnel.configs[v].routes; }
    }
  }

  lemma SentServed(s: State, wanted: Config, t: State)
    requires Inv(s) && ServedInv(s.tunnel, s.domains, s.history, s.service.current)
    requires forall x :: x in wanted.routes ==> Route(s.service) == Some(wanted.routes[x])
    requires t.tunnel.configs == s.tunnel.configs + [wanted] && t.tunnel.acknowledged == s.tunnel.acknowledged
    ensures ServedInv(t.tunnel, s.domains, s.history, s.service.current)
  {
    if Route(s.service).Some? { WantedOwner(s); }
    forall v, x | LiveRoute(t.tunnel, s.domains, v, x) && OwnerOf(t.tunnel, v, x) in s.history
      ensures s.service.current == Some(OwnerOf(t.tunnel, v, x))
    {
      if v < |s.tunnel.configs| { assert LiveRoute(s.tunnel, s.domains, v, x); }
    }
  }

  lemma SentPromotion(s: State, wanted: Config, t: State)
    requires Inv(s) && PromotionInv(s.tunnel, s.domains, s.service)
    requires forall x :: x in wanted.routes ==> Route(s.service) == Some(wanted.routes[x])
    requires t.tunnel.configs == s.tunnel.configs + [wanted]
    ensures PromotionInv(t.tunnel, s.domains, s.service)
  {
    if s.service.promotion.Some? && s.service.promotion != s.service.current {
      var p := s.service.promotion.value;
      if Route(s.service).Some? { WantedOwner(s); }
      forall v, w, x, y | v <= w && Routes(t.tunnel, s.domains, v, x) && OwnerOf(t.tunnel, v, x) == p
                          && Routes(t.tunnel, s.domains, w, y)
        ensures OwnerOf(t.tunnel, w, y) == p
      {
        if w < |s.tunnel.configs| { assert Routes(s.tunnel, s.domains, v, x) && Routes(s.tunnel, s.domains, w, y); }
      }
    }
  }

  /** Configuring the tunnel, from whichever caller, its reply recorded or lost. */
  lemma ConfigRoutes(s: State, others: nat, recorded: bool, pass: Pass)
    requires Inv(s) && RouteInv(s)
    requires pass.Idle? || (!s.pass.Idle? && s.pass.refresh.Started? && pass == s.pass.(refresh := Configured))
    ensures RouteInv(ApplyConfig(s, others, recorded, pass))
  {
    if DesiredRoutes(s).Some? {
      DesiredIsWanted(s, others);
      var wanted := Config(DesiredRoutes(s).value, others);
      var t := ApplyConfig(s, others, recorded, pass);
      RecordedAsWanted(s, t, wanted);
      if s.tunnel.hash == Some(wanted) {
        assert t.tunnel == s.tunnel;
        SameTunnel(s, t);
      } else {
        SentRoutes(s, wanted, t);
      }
    }
  }

  /** Unless its reply was lost, a configuration leaves the recorded version as wanted. */
  lemma RecordedAsWanted(s: State, t: State, wanted: Config)
    requires RouteInv(s) && forall x :: x in LiveDomains(s) <==>
      x in wanted.routes && Route(s.service) == Some(wanted.routes[x])
    requires t == s.(tunnel := t.tunnel, lost := t.lost, pass := t.pass)
    requires t.tunnel == ConfigureTunnel(s.tunnel, wanted, true) || t.tunnel == ConfigureTunnel(s.tunnel, wanted, false)
    requires t.pass.Idle? || (t.tunnel == ConfigureTunnel(s.tunnel, wanted, true) && t.pass.refresh.Configured?)
    ensures RefreshInv(t) && TunnelInv(t.tunnel)
  {
    if !t.pass.Idle? {
      assert t.tunnel.configs[t.tunnel.version] == wanted;
      assert forall v, x :: LiveRoute(t.tunnel, t.domains, v, x) ==> x in LiveDomains(s);
    }
  }

  /** When the current pointer moves, every live route already leads to the promoted deployment,
      whatever replies were lost before. */
  lemma PromotedAloneIsServed(s: State)
    requires Inv(s) && RouteInv(s)
    requires s.pass.Promoting? && Refreshed(s, s.pass.refresh) && s.service.promotion == Some(s.pass.id)
    ensures forall v, x :: LiveRoute(s.tunnel, s.domains, v, x) ==> OwnerOf(s.tunnel, v, x) == s.pass.id
  {
    var t := s.tunnel;
    ActiveIsNew(s, s.pass.id);
    forall v, x | LiveRoute(t, s.domains, v, x)
      ensures OwnerOf(t, v, x) == s.pass.id
    {
      assert s.pass.refresh.Configured?;
      assert Routes(t, s.domains, t.version, x) && OwnerOf(t, t.version, x) == s.pass.id;
      assert LeadsOn(t, s.domains, s.pass.id) && Routes(t, s.domains, v, x);
    }
  }

  lemma CommitRoutes(s: State)
    requires Inv(s) && RouteInv(s)
    requires s.pass.Promoting? && Refreshed(s, s.pass.refresh) && s.service.promotion == Some(s.pass.id)
    ensures RouteInv(Committed(s, s.pass.id))
  {
    var t := Committed(s, s.pass.id);
    PromotedAloneIsServed(s);
    forall v, x | 0 <= v < |t.tunnel.configs| && x in t.tunnel.configs[v].routes
      ensures x in t.usedDomains && Placed(t.deployments, t.history, t.service.promotion, OwnerOf(t.tunnel, v, x))
    {
      assert x in s.tunnel.configs[v].routes;
    }
  }

  lemma FailRoutes(s: State, id: Id)
    requires Inv(s) && RouteInv(s) && IsActive(s.deployments, id)
    ensures RouteInv(Put(s, id, Failing(s.deployments[id])).(pass := Idle))
  {
    SameTunnel(s, Put(s, id, Failing(s.deployments[id])).(pass := Idle));
  }

  lemma PromoteRoutes(s: State)
    requires Inv(s) && RouteInv(s)
    ensures RouteInv(Promote(s))
  {
    if s.pass.Promoting? && Refreshed(s, s.pass.refresh) {
      if s.service.promotion == Some(s.pass.id) { CommitRoutes(s); } else { FailRoutes(s, s.pass.id); }
    }
  }

  lemma NoLiveDomain(s: State)
    requires LiveDomains(s) == {} || |s.domains| == 0
    ensures NothingServed(s.tunnel, s.domains)
  {
    forall v, x
      ensures !LiveRoute(s.tunnel, s.domains, v, x)
    {
      assert x in s.domains && s.domains[x].Live? ==> x in LiveDomains(s);
    }
  }

  /** A restoration needs no refresh where nothing is live, or where no address was saved. */
  lemma GiveUpShape(s: State, id: Id)
    requires id in s.deployments
    ensures
      var t := GiveUpPromotion(s, id);
      && t == s.(service := t.service, pass := t.pass)
      && t.service.current == s.service.current
      && (t.service.promotion == s.service.promotion || (t.service.promotion.None? && s.service.promotion == Some(id)))
      && t.pass.Restoring? && t.pass.id == id && !t.pass.refresh.Configured?
      && (t.pass.refresh.Skipped? ==> LiveDomains(s) == {} || |s.domains| == 0 || !HasAddress(s.deployments, id))
  {}

  lemma RestorationRoutes(s: State, id: Id)
    requires Inv(s) && RouteInv(s) && InPhase(s.deployments, id, FailureCleanup) && s.pass.Idle?
    ensures RouteInv(GiveUpPromotion(s, id))
  {
    var t := GiveUpPromotion(s, id);
    GiveUpShape(s, id);
    if t.pass.refresh.Skipped? && HasAddress(s.deployments, id) { NoLiveDomain(s); }
    assert RefreshInv(t);
    SameTunnel(s, t);
  }

  lemma FinishFailureRoutes(s: State)
    requires Inv(s) && RouteInv(s) && s.pass.Restoring?
    ensures
      var id := s.pass.id;
      RouteInv(Put(s, id, s.deployments[id].(status := Failed, phase := Done)).(pass := Idle))
  {
    var id := s.pass.id;
    SameTunnel(s, Put(s, id, s.deployments[id].(status := Failed, phase := Done)).(pass := Idle));
  }

  lemma FailureRoutes(s: State, e: Event)
    requires Inv(s) && RouteInv(s)
    ensures RouteInv(FailureStep(s, e))
  {
    if FailureStep(s, e) == s { return; }
    match e
    case FailDeployment(id) => FailRoutes(s, id);
    case RecoverCurrent(id) => ObservingIsActive(s, id); ActiveIsNew(s, id);
    case StartRestoration(id) => RestorationRoutes(s, id);
    case StopCandidate => StopsOnly(s, s.pass.id);
    case FinishFailure => FinishFailureRoutes(s);
    case _ =>
  }

  lemma StopsOnly(s: State, id: Id)
    requires RouteInv(s)
    ensures RouteInv(BeginStop(s, id))
  {
    SameTunnel(s, BeginStop(s, id));
  }

  /** A deployment whose address stays, and whose phase moves on from where nothing is routed to it. */
  lemma PutRoutes(s: State, id: Id, d: Deployment)
    requires RouteInv(s) && id in s.deployments && d.address == s.deployments[id].address
    requires id in s.history || (!s.deployments[id].phase.FailureCleanup? && !s.deployments[id].phase.Done?)
    ensures RouteInv(Put(s, id, d))
  {
    SameTunnel(s, Put(s, id, d));
  }

  lemma CleanupRoutes(s: State, e: Event)
    requires Inv(s) && RouteInv(s)
    ensures RouteInv(CleanupStep(s, e))
  {
    if CleanupStep(s, e) == s { return; }
    match e
    case StopPredecessor(id, p) => StopsOnly(s, p);
    case MarkStopped(id, p) =>
      var k := CleanupWalk(s, id);
      assert p in s.history[..k] && p in s.history;
      PutRoutes(s, p, s.deployments[p].(status := RolledBack));
    case FinishCleanup(id) => PutRoutes(s, id, s.deployments[id].(phase := Done));
    case _ =>
  }

  lemma SubmitRoutes(s: State, id: Id, posted: bool, accepted: bool)
    requires Inv(s) && RouteInv(s) && InPhase(s.deployments, id, AppSubmit)
    ensures
      var t := if posted then s.(submitted := s.submitted + {id}) else s;
      RouteInv(if accepted then Put(t, id, s.deployments[id].(phase := Observing)) else t)
  {
    var t := if posted then s.(submitted := s.submitted + {id}) else s;
    SameTunnel(s, t);
    PutRoutes(t, id, s.deployments[id].(phase := Observing));
  }

  lemma PreparationRoutes(s: State, e: Event)
    requires Inv(s) && RouteInv(s)
    ensures RouteInv(PreparationStep(s, e))
  {
    var t := PreparationStep(s, e);
    if t == s { return; }
    if e.Submit? { SubmitRoutes(s, e.id, e.posted, e.accepted); }
    else { PutRoutes(s, e.id, t.deployments[e.id]); }
  }

  /** A deployment that is observed was never routed before, unless it is under promotion already. */
  lemma ObserveRoutes(s: State, id: Id, port: nat, torn: bool)
    requires Inv(s) && RouteInv(s)
    ensures RouteInv(ObserveApplication(s, id, port, torn))
  {
    if InPhase(s.deployments, id, Observing) && s.pass.Idle? {
      ObservedFirst(s, id);
      ObservedInv(s, ObserveApplication(s, id, port, torn), id);
    }
  }

  lemma ObservedFirst(s: State, id: Id)
    requires Inv(s) && RouteInv(s) && InPhase(s.deployments, id, Observing)
    ensures s.service.promotion == Some(id) || NeverRouted(s.tunnel, id)
    ensures s.service.promotion.Some? ==> s.service.promotion == Some(id) || s.service.promotion.value in s.history
  {
    ObservingIsActive(s, id);
    ActiveIsNew(s, id);
    if s.service.promotion != Some(id) { NotPlaced(s, id); }
  }

  lemma ObservedInv(s: State, t: State, id: Id)
    requires RouteInv(s) && InPhase(s.deployments, id, Observing)
    requires s.service.promotion == Some(id) || NeverRouted(s.tunnel, id)
    requires s.service.promotion.Some? ==> s.service.promotion == Some(id) || s.service.promotion.value in s.history
    requires t == s.(service := t.service, deployments := t.deployments, torn := t.torn) && s.pass.Idle?
    requires t.service.current == s.service.current && t.service.promotion == Some(id) && id in t.deployments
    requires t.deployments == s.deployments || t.deployments == s.deployments[id := t.deployments[id]]
    ensures RouteInv(t)
  {
    SameTunnel(s, t);
  }

  lemma NotPlaced(s: State, id: Id)
    requires OwnersInv(s) && !Placed(s.deployments, s.history, s.service.promotion, id)
    ensures NeverRouted(s.tunnel, id)
  {
    forall v, x | 0 <= v < |s.tunnel.configs| && x in s.tunnel.configs[v].routes
      ensures OwnerOf(s.tunnel, v, x) != id
    {
      assert Placed(s.deployments, s.history, s.service.promotion, OwnerOf(s.tunnel, v, x));
    }
  }

  lemma QueueRoutes(s: State, id: Id)
    requires Inv(s) && RouteInv(s)
    ensures RouteInv(QueueDeployment(s, id))
  {
    if QueueDeployment(s, id) != s { SameTunnel(s, QueueDeployment(s, id)); }
  }

  lemma MoveRoutes(s: State, e: Event)
    requires Inv(s) && RouteInv(s)
    ensures RouteInv(MoveStep(s, e))
  {
    var t := MoveStep(s, e);
    if t == s { return; }
    assert s.service.current.Some? && s.service.current.value in s.history;
    assert RefreshInv(t);
    SameTunnel(s, t);
  }

  lemma AcknowledgeRoutes(s: State, version: nat)
    requires RouteInv(s)
    ensures RouteInv(TunnelStep(s, Acknowledge(version)))
  {
    if !(s.tunnel.acknowledged <= version < |s.tunnel.configs|) { return; }
    var t := s.(tunnel := s.tunnel.(acknowledged := version));
    assert forall v, x :: LiveRoute(t.tunnel, t.domains, v, x) ==> LiveRoute(s.tunnel, s.domains, v, x);
    assert forall v, x :: Routes(t.tunnel, t.domains, v, x) ==> Routes(s.tunnel, s.domains, v, x);
    forall v, x | 0 <= v < |t.tunnel.configs| && x in t.tunnel.configs[v].routes
      ensures x in t.usedDomains && Placed(t.deployments, t.history, t.service.promotion, OwnerOf(t.tunnel, v, x))
    {
      assert x in s.tunnel.configs[v].routes;
    }
  }

  lemma TunnelRoutes(s: State, e: Event)
    requires Inv(s) && RouteInv(s)
    ensures RouteInv(TunnelStep(s, e))
  {
    match e
    case Refresh(others, recorded) => RefreshRoutes(s, others, recorded);
    case ConfigureElsewhere(others, recorded) => ElsewhereRoutes(s, others, recorded);
    case Acknowledge(version) => AcknowledgeRoutes(s, version);
    case _ =>
  }

  lemma RefreshRoutes(s: State, others: nat, recorded: bool)
    requires Inv(s) && RouteInv(s)
    ensures RouteInv(TunnelStep(s, Refresh(others, recorded)))
  {
    if !s.pass.Idle? && s.pass.refresh.Started? {
      ConfigRoutes(s, others, recorded, s.pass.(refresh := Configured));
    }
  }

  lemma ElsewhereRoutes(s: State, others: nat, recorded: bool)
    requires Inv(s) && RouteInv(s)
    ensures RouteInv(TunnelStep(s, ConfigureElsewhere(others, recorded)))
  {
    if s.pass.Idle? { ConfigRoutes(s, others, recorded, Idle); }
  }

  lemma DomainRoutes(s: State, e: Event)
    requires Inv(s) && RouteInv(s)
    ensures RouteInv(DomainStep(s, e))
  {
    var t := DomainStep(s, e);
    assert DomainsFrom(s, t);
    SameTunnel(s, t);
  }

  lemma RemovalFrom(s: State, e: Event)
    requires forall x :: x in s.domains ==> x in s.usedDomains
    ensures
      var t := RemovalStep(s, e);
      && t.tunnel == s.tunnel && DomainsFrom(s, t) && OwnersFrom(s, t) && PromotionFrom(s, t)
      && (t.pass.Idle? || PassFrom(s, t))
  {}

  lemma RemovalRoutes(s: State, e: Event)
    requires Inv(s) && RouteInv(s)
    ensures RouteInv(RemovalStep(s, e))
  {
    RemovalFrom(s, e);
    SameTunnel(s, RemovalStep(s, e));
  }

  lemma StartPromotionRoutes(s: State, id: Id)
    requires Inv(s) && RouteInv(s) && s.pass.Idle?
    ensures RouteInv(s.(pass := Promoting(id, StartRefresh(s))))
  {
    var t := s.(pass := Promoting(id, StartRefresh(s)));
    if LiveDomains(s) == {} { NoLiveDomain(s); }
    assert RefreshInv(t);
    SameTunnel(s, t);
  }

  lemma PassStepRoutes(s: State, e: Event)
    requires Inv(s) && RouteInv(s) && InPass(e)
    ensures RouteInv(Apply(s, e))
  {
    PassApplies(s, e);
    if PreparationEvent(e) { PreparationRoutes(s, e); } else { FailureRoutes(s, e); }
  }

  lemma AroundStepRoutes(s: State, e: Event)
    requires Inv(s) && RouteInv(s) && AroundPass(e)
    ensures RouteInv(Apply(s, e))
  {
    AroundApplies(s, e);
    if CleanupEvent(e) { CleanupRoutes(s, e); }
    else if MoveEvent(e) { MoveRoutes(s, e); }
    else { TunnelRoutes(s, e); }
  }

  lemma OutsideRoutes(s: State, e: Event)
    requires Inv(s) && RouteInv(s) && (DomainEvent(e) || RemovalEvent(e))
    ensures RouteInv(Apply(s, e))
  {
    OutsideApplies(s, e);
    if DomainEvent(e) { DomainRoutes(s, e); } else { RemovalRoutes(s, e); }
  }

  predicate DomainEvent(e: Event) {
    e.AddDomain? || e.DeleteDomain? || e.ForgetDomain?
  }

  predicate RemovalEvent(e: Event) {
    e.RemoveService? || e.UndoRemoval? || e.Dismantle?
  }

  lemma OutsideApplies(s: State, e: Event)
    ensures DomainEvent(e) ==> Apply(s, e) == DomainStep(s, e)
    ensures RemovalEvent(e) ==> Apply(s, e) == RemovalStep(s, e)
  {}

  lemma OtherStepRoutes(s: State, e: Event)
    requires Inv(s) && RouteInv(s) && !InPass(e) && !AroundPass(e)
    ensures RouteInv(Apply(s, e))
  {
    if DomainEvent(e) || RemovalEvent(e) {
      OutsideRoutes(s, e);
    } else {
      match e
      case Queue(id) => QueueRoutes(s, id);
      case Observe(id, port, torn) => ObserveRoutes(s, id, port, torn);
      case StartPromotion(id) => if s.pass.Idle? { StartPromotionRoutes(s, id); }
      case CommitPromotion => PromoteRoutes(s);
      case Interrupt => SameTunnel(s, s.(pass := Idle));
      case JobStopped(id) => if id in s.stops { SameTunnel(s, s.(stops := s.stops[id := Finished])); }
    }
  }

  lemma StepRoutes(s: State, e: Event)
    requires Inv(s) && RouteInv(s)
    ensures Inv(Apply(s, e)) && RouteInv(Apply(s, e))
  {
    ApplyInv(s, e);
    if InPass(e) { PassStepRoutes(s, e); }
    else if AroundPass(e) { AroundStepRoutes(s, e); }
    else { OtherStepRoutes(s, e); }
  }

  lemma {:induction false} RunRoutes(s: State, events: seq<Event>)
    requires Inv(s) && RouteInv(s)
    ensures Inv(Run(s, events)) && RouteInv(Run(s, events))
    decreases |events|
  {
    if |events| > 0 {
      StepRoutes(s, events[0]);
      RunRoutes(Apply(s, events[0]), events[1..]);
    }
  }

  lemma Reached(events: seq<Event>)
    ensures Inv(Run(Initial(), events)) && RouteInv(Run(Initial(), events))
  {
    Deployments.InitialInv();
    InitialRoutes();
    RunRoutes(Initial(), events);
  }

  // ----- What holds in every run, whatever accidents happen -----

  /** When a promotion commits, every live route leads to the promoted deployment. */
  lemma PromotionIsRouted(events: seq<Event>)
    requires
      var s := Run(Initial(), events);
      s.pass.Promoting? && Refreshed(s, s.pass.refresh) && s.service.promotion == Some(s.pass.id)
    ensures
      var s := Run(Initial(), events);
      forall v, x :: LiveRoute(s.tunnel, s.domains, v, x) ==> OwnerOf(s.tunnel, v, x) == s.pass.id
  {
    Reached(events);
    PromotedAloneIsServed(Run(Initial(), events));
  }

  /** No live route leads to a predecessor that cleanup stops. */
  lemma PredecessorsAreUnrouted(events: seq<Event>, id: Id, p: Id)
    requires
      var s := Run(Initial(), events);
      && InPhase(s.deployments, id, Cleanup)
      && p in Predecessors(s.deployments, s.deployments[id].previous, {}) && !PassedOver(s, p)
    ensures Unrouted(Run(Initial(), events), p)
  {
    Reached(events);
    var s := Run(Initial(), events);
    var k := CleanupWalk(s, id);
    assert p in s.history[..k] && p in s.history;
  }

  /** A restoration that returned leaves no live route to the candidate exactly when: its refresh ran,
      and no configuration accepted after the recorded one routes a live domain to the candidate; or
      its refresh was skipped, and the candidate's address was saved or it is not routed all the same. */
  lemma RestoredIff(s: State)
    requires Inv(s) && RouteInv(s) && s.pass.Restoring? && Refreshed(s, s.pass.refresh)
    ensures Unrouted(s, s.pass.id) <==> !Misleads(s, s.pass.id)
  {
    var t, id := s.tunnel, s.pass.id;
    ActiveIsNew(s, id);
    if s.pass.refresh.Configured? {
      if Route(s.service).Some? { WantedOwner(s); }
      forall v, x | LiveRoute(t, s.domains, v, x) && v <= t.version
        ensures OwnerOf(t, v, x) != id
      {
        assert v == t.version;
      }
    }
  }

  /** A configuration accepted after the recorded one, its reply lost, routes a live domain to `id`. */
  ghost predicate UnrecordedRoute(s: State, id: Id) {
    exists v, x :: v > s.tunnel.version && LiveRoute(s.tunnel, s.domains, v, x) && OwnerOf(s.tunnel, v, x) == id
  }

  /** The address of `id` was not saved although a version that may be served routes a live domain to it. */
  ghost predicate UnsavedRoute(s: State, id: Id) {
    && !HasAddress(s.deployments, id)
    && exists v, x :: LiveRoute(s.tunnel, s.domains, v, x) && OwnerOf(s.tunnel, v, x) == id
  }

  /** The two ways in which a restoration returns too early. */
  ghost predicate Misleads(s: State, id: Id) {
    !s.pass.Idle? && if s.pass.refresh.Configured? then UnrecordedRoute(s, id) else UnsavedRoute(s, id)
  }

  lemma CandidateUnroutedIff(events: seq<Event>)
    requires
      var s := Run(Initial(), events);
      s.pass.Restoring? && Refreshed(s, s.pass.refresh)
    ensures
      var s := Run(Initial(), events);
      Unrouted(s, s.pass.id) <==> !Misleads(s, s.pass.id)
  {
    Reached(events);
    RestoredIff(Run(Initial(), events));
  }

  // ----- The promise, exactly -----

  /** This step begins to stop a failed candidate that a restoration, returned too early, left routed. */
  ghost predicate Careless(s: State, e: Event) {
    && e.StopCandidate? && s.pass.Restoring? && Refreshed(s, s.pass.refresh)
    && s.pass.id in s.deployments && s.deployments[s.pass.id].hasJob && s.pass.id !in s.stops
    && Misleads(s, s.pass.id)
  }

  /** Every live route leads to the current release, or to a deployment that was never promoted. */
  lemma RoutedOrFailed(s: State, v: int, x: DomainId)
    requires Inv(s) && RouteInv(s) && !s.dismantling && LiveRoute(s.tunnel, s.domains, v, x)
    ensures
      var o := OwnerOf(s.tunnel, v, x);
      o in s.stops ==> o !in s.history && s.service.promotion != Some(o) && s.service.current != Some(o)
  {}

  // ----- What the groups of steps leave alone -----

  /** The tunnel, the domains and the stops are as they were. */
  predicate SameAround(s: State, t: State) {
    t.tunnel == s.tunnel && t.domains == s.domains && t.stops == s.stops && t.dismantling == s.dismantling
  }

  lemma AdvanceFrame(s: State, e: Event)
    requires e.Prepared? || e.BuildSubmitted? || e.Built? || e.ApplicationPrepared?
    ensures SameAround(s, PreparationStep(s, e))
  {}

  lemma SubmitFrame(s: State, id: Id, posted: bool, accepted: bool)
    ensures SameAround(s, PreparationStep(s, Submit(id, posted, accepted)))
  {}

  lemma PreparationFrame(s: State, e: Event)
    ensures SameAround(s, PreparationStep(s, e))
  {
    match e
    case Prepared(_, _) => AdvanceFrame(s, e);
    case BuildSubmitted(_) => AdvanceFrame(s, e);
    case Built(_) => AdvanceFrame(s, e);
    case ApplicationPrepared(_) => AdvanceFrame(s, e);
    case Submit(id, posted, accepted) => SubmitFrame(s, id, posted, accepted);
    case _ =>
  }

  lemma GiveUpFrame(s: State, id: Id)
    requires id in s.deployments
    ensures
      var t := GiveUpPromotion(s, id);
      t == s.(service := t.service, pass := t.pass)
  {}

  lemma FailureFrame(s: State, e: Event)
    ensures
      var t := FailureStep(s, e);
      t.tunnel == s.tunnel && t.domains == s.domains && t.dismantling == s.dismantling
  {
    if e.StartRestoration? && e.id in s.deployments { GiveUpFrame(s, e.id); }
  }

  lemma CleanupFrame(s: State, e: Event)
    ensures
      var t := CleanupStep(s, e);
      t.tunnel == s.tunnel && t.domains == s.domains && t.dismantling == s.dismantling
  {}

  lemma StartMoveFrame(s: State, port: nat)
    ensures SameAround(s, MoveStep(s, StartMove(port)))
  {}

  lemma FinishMoveFrame(s: State)
    ensures SameAround(s, MoveStep(s, ResumeMove)) && SameAround(s, MoveStep(s, FinishMove))
  {}

  lemma MoveFrame(s: State, e: Event)
    ensures SameAround(s, MoveStep(s, e))
  {
    match e
    case StartMove(port) => StartMoveFrame(s, port);
    case ResumeMove => FinishMoveFrame(s);
    case FinishMove => FinishMoveFrame(s);
    case _ =>
  }

  lemma TunnelFrame(s: State, e: Event)
    ensures
      var t := TunnelStep(s, e);
      t.domains == s.domains && t.stops == s.stops && t.dismantling == s.dismantling
  {}

  lemma FailureStops(s: State, e: Event, o: Id)
    requires o in FailureStep(s, e).stops && o !in s.stops
    ensures e.StopCandidate? && s.pass.Restoring? && o == s.pass.id && Refreshed(s, s.pass.refresh)
    ensures o in s.deployments && s.deployments[o].hasJob
  {}

  lemma CleanupStops(s: State, e: Event, o: Id)
    requires Inv(s) && o in CleanupStep(s, e).stops && o !in s.stops
    ensures o in s.history
  {
    var k := CleanupWalk(s, e.id);
    assert o in s.history[..k];
  }

  lemma OtherStops(s: State, e: Event, o: Id)
    requires !InPass(e) && !AroundPass(e) && !Apply(s, e).dismantling && o in Apply(s, e).stops
    ensures o in s.stops
  {
    if DomainEvent(e) {
      assert Apply(s, e) == DomainStep(s, e);
    } else if e.RemoveService? || e.UndoRemoval? || e.Dismantle? {
      assert Apply(s, e) == RemovalStep(s, e);
    }
  }

  /** A stop begins for the candidate of a restoration, or for a release that was promoted. */
  lemma NewStops(s: State, e: Event, o: Id)
    requires Inv(s) && !Apply(s, e).dismantling && o in Apply(s, e).stops && o !in s.stops
    ensures
      || (e.StopCandidate? && s.pass.Restoring? && o == s.pass.id && Refreshed(s, s.pass.refresh)
          && o in s.deployments && s.deployments[o].hasJob)
      || o in s.history
  {
    if InPass(e) {
      PassApplies(s, e);
      PreparationFrame(s, e);
      if !PreparationEvent(e) { FailureStops(s, e, o); }
    } else if AroundPass(e) {
      AroundApplies(s, e);
      MoveFrame(s, e);
      TunnelFrame(s, e);
      if CleanupEvent(e) { CleanupStops(s, e, o); }
    } else {
      OtherStops(s, e, o);
    }
  }

  /** Where a step adds a live route, it leads to what is wanted. */
  lemma NewRoutes(s: State, e: Event, v: int, x: DomainId)
    requires Inv(s) && RouteInv(s) && LiveRoute(Apply(s, e).tunnel, Apply(s, e).domains, v, x)
    ensures
      var t := Apply(s, e);
      || (LiveRoute(s.tunnel, s.domains, v, x) && OwnerOf(t.tunnel, v, x) == OwnerOf(s.tunnel, v, x))
      || (Route(s.service).Some? && OwnerOf(t.tunnel, v, x) == Route(s.service).value.owner)
  {
    if InPass(e) {
      PassApplies(s, e);
      if PreparationEvent(e) { PreparationFrame(s, e); } else { FailureFrame(s, e); }
    } else if AroundPass(e) { AroundRoutes(s, e, v, x); }
    else { OtherRoutes(s, e, v, x); }
  }

  lemma TunnelAdds(s: State, e: Event, v: int, x: DomainId)
    requires LiveRoute(TunnelStep(s, e).tunnel, TunnelStep(s, e).domains, v, x)
    ensures
      var t := TunnelStep(s, e);
      || (LiveRoute(s.tunnel, s.domains, v, x) && OwnerOf(t.tunnel, v, x) == OwnerOf(s.tunnel, v, x))
      || (Route(s.service).Some? && OwnerOf(t.tunnel, v, x) == Route(s.service).value.owner)
  {
    TunnelFrame(s, e);
    var t := TunnelStep(s, e);
    if t.tunnel.configs != s.tunnel.configs {
      var pass := if e.Refresh? then s.pass.(refresh := Configured) else Idle;
      assert t == ApplyConfig(s, e.others, e.recorded, pass);
      ConfigAdds(s, e.others, e.recorded, pass, v, x);
    }
  }

  lemma AroundRoutes(s: State, e: Event, v: int, x: DomainId)
    requires AroundPass(e) && LiveRoute(Apply(s, e).tunnel, Apply(s, e).domains, v, x)
    ensures
      var t := Apply(s, e);
      || (LiveRoute(s.tunnel, s.domains, v, x) && OwnerOf(t.tunnel, v, x) == OwnerOf(s.tunnel, v, x))
      || (Route(s.service).Some? && OwnerOf(t.tunnel, v, x) == Route(s.service).value.owner)
  {
    AroundApplies(s, e);
    if CleanupEvent(e) { CleanupFrame(s, e); }
    else if MoveEvent(e) { MoveFrame(s, e); }
    else { TunnelAdds(s, e, v, x); }
  }

  lemma ConfigAdds(s: State, others: nat, recorded: bool, pass: Pass, v: int, x: DomainId)
    requires LiveRoute(ApplyConfig(s, others, recorded, pass).tunnel, s.domains, v, x)
    ensures
      var t := ApplyConfig(s, others, recorded, pass);
      || (LiveRoute(s.tunnel, s.domains, v, x) && OwnerOf(t.tunnel, v, x) == OwnerOf(s.tunnel, v, x))
      || (Route(s.service).Some? && OwnerOf(t.tunnel, v, x) == Route(s.service).value.owner)
  {
    if DesiredRoutes(s).Some? { DesiredIsWanted(s, others); }
  }

  lemma DomainTunnel(s: State, e: Event)
    requires RouteInv(s)
    ensures DomainStep(s, e).tunnel == s.tunnel && DomainsFrom(s, DomainStep(s, e))
  {}

  lemma OtherTunnel(s: State, e: Event)
    requires !InPass(e) && !AroundPass(e) && !DomainEvent(e)
    ensures Apply(s, e).tunnel == s.tunnel && Apply(s, e).domains == s.domains
  {
    if RemovalEvent(e) {
      OutsideApplies(s, e);
      RemovalTunnel(s, e);
    } else {
      RestTunnel(s, e);
    }
  }

  lemma RemovalTunnel(s: State, e: Event)
    ensures RemovalStep(s, e).tunnel == s.tunnel && RemovalStep(s, e).domains == s.domains
  {}

  lemma RestTunnel(s: State, e: Event)
    requires !InPass(e) && !AroundPass(e) && !DomainEvent(e) && !RemovalEvent(e)
    ensures Apply(s, e).tunnel == s.tunnel && Apply(s, e).domains == s.domains
  {
    match e
    case Queue(_) =>
    case Observe(_, _, _) =>
    case StartPromotion(_) =>
    case CommitPromotion =>
    case Interrupt =>
    case JobStopped(_) =>
  }

  lemma OtherRoutes(s: State, e: Event, v: int, x: DomainId)
    requires RouteInv(s) && !InPass(e) && !AroundPass(e) && LiveRoute(Apply(s, e).tunnel, Apply(s, e).domains, v, x)
    ensures LiveRoute(s.tunnel, s.domains, v, x) && Apply(s, e).tunnel == s.tunnel
  {
    if DomainEvent(e) {
      assert Apply(s, e) == DomainStep(s, e);
      DomainTunnel(s, e);
      RoutesBefore(s, DomainStep(s, e));
    } else {
      OtherTunnel(s, e);
    }
  }

  /** From a safe state of any run, a step breaks the promise exactly when it is careless. */
  lemma StepBreaksIff(s: State, e: Event)
    requires Inv(s) && RouteInv(s) && RoutesAreSafe(s) && !Apply(s, e).dismantling
    ensures RoutesAreSafe(Apply(s, e)) <==> !Careless(s, e)
  {
    if Careless(s, e) { CarelessBreaks(s); } else { CarefulKeeps(s, e); }
  }

  lemma CarelessBreaks(s: State)
    requires Inv(s) && RouteInv(s) && Careless(s, StopCandidate)
    ensures !RoutesAreSafe(Apply(s, StopCandidate))
  {
    RestoredIff(s);
    var t := Apply(s, StopCandidate);
    assert t == BeginStop(s, s.pass.id) by {
      assert t == FailureStep(s, StopCandidate);
    }
    var v, x :| LiveRoute(s.tunnel, s.domains, v, x) && OwnerOf(s.tunnel, v, x) == s.pass.id;
    assert LiveRoute(t.tunnel, t.domains, v, x);
  }

  lemma CarefulKeeps(s: State, e: Event)
    requires Inv(s) && RouteInv(s) && RoutesAreSafe(s) && !Apply(s, e).dismantling && !Careless(s, e)
    ensures RoutesAreSafe(Apply(s, e))
  {
    var t := Apply(s, e);
    forall v, x | LiveRoute(t.tunnel, t.domains, v, x)
      ensures OwnerOf(t.tunnel, v, x) !in t.stops
    {
      OldStopsUnrouted(s, e, v, x);
      NewStopsUnrouted(s, e, v, x);
    }
  }

  lemma OtherKeepsDismantling(s: State, e: Event)
    requires !InPass(e) && !AroundPass(e)
    ensures s.dismantling ==> Apply(s, e).dismantling
  {
    if DomainEvent(e) {
      assert Apply(s, e) == DomainStep(s, e);
    } else if e.RemoveService? || e.UndoRemoval? || e.Dismantle? {
      assert Apply(s, e) == RemovalStep(s, e);
    }
  }

  lemma DismantlingStays(s: State, e: Event)
    ensures s.dismantling ==> Apply(s, e).dismantling
  {
    if InPass(e) {
      PassApplies(s, e);
      if PreparationEvent(e) { PreparationFrame(s, e); } else { FailureFrame(s, e); }
    } else if AroundPass(e) {
      AroundApplies(s, e);
      if CleanupEvent(e) { CleanupFrame(s, e); }
      else if MoveEvent(e) { MoveFrame(s, e); }
      else { TunnelFrame(s, e); }
    } else {
      OtherKeepsDismantling(s, e);
    }
  }

  lemma NeverUndone(s: State, e: Event)
    ensures s.dismantling ==> Apply(s, e).dismantling
    ensures forall o :: o in s.history ==> o in Apply(s, e).history
  {
    CurrentMovesByPromotion(s, e);
    DismantlingStays(s, e);
  }

  /** What is wanted is not being stopped. */
  lemma WantedNotStopped(s: State)
    requires Inv(s) && !s.dismantling && Route(s.service).Some?
    ensures Route(s.service).value.owner !in s.stops
  {
    var o := Route(s.service).value.owner;
    assert o in s.stops ==> Stoppable(s.deployments, s.service, s.history, o);
  }

  lemma OldStopsUnrouted(s: State, e: Event, v: int, x: DomainId)
    requires Inv(s) && RouteInv(s) && RoutesAreSafe(s) && !Apply(s, e).dismantling
    requires LiveRoute(Apply(s, e).tunnel, Apply(s, e).domains, v, x)
    ensures OwnerOf(Apply(s, e).tunnel, v, x) !in s.stops
  {
    NeverUndone(s, e);
    NewRoutes(s, e, v, x);
    if Route(s.service).Some? { WantedNotStopped(s); }
  }

  lemma NewStopsUnrouted(s: State, e: Event, v: int, x: DomainId)
    requires Inv(s) && RouteInv(s) && !Apply(s, e).dismantling && !Careless(s, e)
    requires LiveRoute(Apply(s, e).tunnel, Apply(s, e).domains, v, x) && OwnerOf(Apply(s, e).tunnel, v, x) !in s.stops
    ensures OwnerOf(Apply(s, e).tunnel, v, x) !in Apply(s, e).stops
  {
    var t := Apply(s, e);
    var o := OwnerOf(t.tunnel, v, x);
    if o in t.stops {
      NeverUndone(s, e);
      NewStops(s, e, o);
      StepRoutes(s, e);
      RoutedOrFailed(t, v, x);
      CandidateOnly(s, e, v, x);
    }
  }

  /** Stopping a candidate changes no route. */
  lemma CandidateOnly(s: State, e: Event, v: int, x: DomainId)
    requires Inv(s) && RouteInv(s) && e.StopCandidate? && s.pass.Restoring? && Refreshed(s, s.pass.refresh)
    requires LiveRoute(Apply(s, e).tunnel, Apply(s, e).domains, v, x) && OwnerOf(Apply(s, e).tunnel, v, x) == s.pass.id
    ensures Misleads(s, s.pass.id)
  {
    PassApplies(s, e);
    FailureFrame(s, e);
    RestoredIff(s);
    assert LiveRoute(s.tunnel, s.domains, v, x);
  }

  // ----- Whole runs -----

  /** The promise holds at every point of the run. */
  ghost predicate AlwaysSafe(s: State, events: seq<Event>)
    decreases |events|
  {
    RoutesAreSafe(s) && (|events| > 0 ==> AlwaysSafe(Apply(s, events[0]), events[1..]))
  }

  /** No step of the run is careless. */
  ghost predicate NeverCareless(s: State, events: seq<Event>)
    decreases |events|
  {
    |events| > 0 ==> !Careless(s, events[0]) && NeverCareless(Apply(s, events[0]), events[1..])
  }

  lemma {:induction false} NotDismantledBefore(s: State, events: seq<Event>)
    requires !Run(s, events).dismantling
    ensures !s.dismantling
    decreases |events|
  {
    if |events| > 0 {
      NotDismantledBefore(Apply(s, events[0]), events[1..]);
      NeverUndone(s, events[0]);
    }
  }

  lemma {:induction false} SafeIff(s: State, events: seq<Event>)
    requires Inv(s) && RouteInv(s) && RoutesAreSafe(s) && !Run(s, events).dismantling
    ensures AlwaysSafe(s, events) <==> NeverCareless(s, events)
    decreases |events|
  {
    if |events| > 0 {
      var t := Apply(s, events[0]);
      NotDismantledBefore(t, events[1..]);
      StepRoutes(s, events[0]);
      StepBreaksIff(s, events[0]);
      if RoutesAreSafe(t) { SafeIff(t, events[1..]); } else { assert !AlwaysSafe(t, events[1..]); }
    }
  }

  /** A run of a service that is not dismantled keeps the promise throughout exactly when it never
      begins to stop a candidate while an unrecorded configuration routes to it, after a refresh, or
      while its address is unsaved and it is routed, without one. */
  lemma RunIsSafeIff(events: seq<Event>)
    requires !Run(Initial(), events).dismantling
    ensures AlwaysSafe(Initial(), events) <==> NeverCareless(Initial(), events)
  {
    Deployments.InitialInv();
    InitialRoutes();
    SafeIff(Initial(), events);
  }

  /** What can be checked where a candidate's stop begins: after a refresh the newest accepted
      configuration is recorded, and without one the address was saved or no domain is live. */
  predicate StopChecked(s: State, e: Event) {
    e.StopCandidate? && s.pass.Restoring? ==>
      if s.pass.refresh.Configured? then s.tunnel.version == |s.tunnel.configs| - 1
      else HasAddress(s.deployments, s.pass.id) || LiveDomains(s) == {}
  }

  ghost predicate AlwaysChecked(s: State, events: seq<Event>)
    decreases |events|
  {
    |events| > 0 ==> StopChecked(s, events[0]) && AlwaysChecked(Apply(s, events[0]), events[1..])
  }

  lemma {:induction false} CheckedIsCareful(s: State, events: seq<Event>)
    requires AlwaysChecked(s, events)
    ensures NeverCareless(s, events)
    decreases |events|
  {
    if |events| > 0 {
      if LiveDomains(s) == {} { NoLiveDomain(s); }
      CheckedIsCareful(Apply(s, events[0]), events[1..]);
    }
  }

  /** Every run that passes these checks at its candidates' stops keeps the promise, whatever replies
      and saves were lost elsewhere. */
  lemma RoutesStaySafe(events: seq<Event>)
    requires AlwaysChecked(Initial(), events) && !Run(Initial(), events).dismantling
    ensures AlwaysSafe(Initial(), events)
  {
    CheckedIsCareful(Initial(), events);
    RunIsSafeIff(events);
  }

  // ----- Two accidents break the promise -----

  lemma Then(s: State, e: Event, t: State, rest: seq<Event>)
    requires Apply(s, e) == t
    ensures Run(s, [e] + rest) == Run(t, rest)
  {}

  function Deployed(id: Id, port: nat, torn: bool): seq<Event> {
    [Queue(id)] + ([Prepared(id, false)]
    + ([ApplicationPrepared(id)] + ([Submit(id, true, true)] + ([Observe(id, port, torn)] + []))))
  }

  lemma QueueEffect(s: State, id: Id)
    requires id !in s.deployments && !AnyActive(s.deployments) && !s.service.deleting
    ensures Apply(s, Queue(id)) == Put(s, id, Deployment(Queued, Prepare, s.service.current, false, None))
  {}

  lemma PreparationEffect(s: State, id: Id, e: Event)
    requires s.pass.Idle? && id in s.deployments
    requires e == Prepared(id, false) || e == ApplicationPrepared(id) || e == Submit(id, true, true)
    requires e.Prepared? ==> s.deployments[id].phase.Prepare?
    requires e.ApplicationPrepared? ==> s.deployments[id].phase.AppPrepare?
    requires e.Submit? ==> s.deployments[id].phase.AppSubmit?
    ensures
      var d := s.deployments[id];
      Apply(s, e)
      == if e.Prepared? then Put(s, id, d.(hasJob := true, phase := AppPrepare, status := Deploying))
         else if e.ApplicationPrepared? then Put(s, id, d.(phase := AppSubmit))
         else Put(s, id, d.(phase := Observing)).(submitted := s.submitted + {id})
  {}

  lemma ObserveEffect(s: State, id: Id, port: nat, torn: bool)
    requires s.pass.Idle? && InPhase(s.deployments, id, Observing)
    ensures
      var address := Some(Address(id, port));
      var t := s.(service := s.service.(promotion := Some(id), promotionAddress := address));
      Apply(s, Observe(id, port, torn))
      == if torn then t.(torn := true) else Put(t, id, s.deployments[id].(address := address, phase := Routing))
  {}

  function Fresh(s: State, phase: Phase): Deployment {
    Deployment(Deploying, phase, s.service.current, true, None)
  }

  lemma PreparedEffect(s: State, id: Id, rest: seq<Event>)
    requires id !in s.deployments && !AnyActive(s.deployments) && !s.service.deleting && s.pass.Idle?
    ensures Run(s, [Queue(id)] + ([Prepared(id, false)] + rest)) == Run(Put(s, id, Fresh(s, AppPrepare)), rest)
  {
    QueueEffect(s, id);
    var a := Put(s, id, Deployment(Queued, Prepare, s.service.current, false, None));
    PreparationEffect(a, id, Prepared(id, false));
    var b := Put(s, id, Fresh(s, AppPrepare));
    assert Put(a, id, Fresh(s, AppPrepare)).deployments == b.deployments;
    Then(a, Prepared(id, false), b, rest);
    Then(s, Queue(id), a, [Prepared(id, false)] + rest);
  }

  lemma SubmittedEffect(s: State, id: Id, rest: seq<Event>)
    requires s.pass.Idle?
    ensures
      Run(Put(s, id, Fresh(s, AppPrepare)), [ApplicationPrepared(id)] + ([Submit(id, true, true)] + rest))
      == Run(Put(s, id, Fresh(s, Observing)).(submitted := s.submitted + {id}), rest)
  {
    var a := Put(s, id, Fresh(s, AppPrepare));
    PreparationEffect(a, id, ApplicationPrepared(id));
    var b := Put(s, id, Fresh(s, AppSubmit));
    assert Put(a, id, Fresh(s, AppSubmit)).deployments == b.deployments;
    PreparationEffect(b, id, Submit(id, true, true));
    var c := Put(s, id, Fresh(s, Observing)).(submitted := s.submitted + {id});
    assert Put(b, id, Fresh(s, Observing)).deployments == c.deployments;
    Then(b, Submit(id, true, true), c, rest);
    Then(a, ApplicationPrepared(id), b, [Submit(id, true, true)] + rest);
  }

  /** What a deployment leaves behind when its application has been observed. */
  function Observed(s: State, id: Id, port: nat, torn: bool): State {
    var address := Some(Address(id, port));
    var d := Deployment(Deploying, if torn then Observing else Routing, s.service.current, true,
                        if torn then None else address);
    s.(deployments := s.deployments[id := d], submitted := s.submitted + {id},
       service := s.service.(promotion := Some(id), promotionAddress := address),
       torn := s.torn || torn)
  }

  lemma ObservedEffect(s: State, id: Id, port: nat, torn: bool)
    requires s.pass.Idle?
    ensures
      var c := Put(s, id, Fresh(s, Observing)).(submitted := s.submitted + {id});
      Run(c, [Observe(id, port, torn)] + []) == Observed(s, id, port, torn)
  {
    var c := Put(s, id, Fresh(s, Observing)).(submitted := s.submitted + {id});
    ObserveEffect(c, id, port, torn);
    var d := Observed(s, id, port, torn);
    assert Put(c, id, d.deployments[id]).deployments == d.deployments;
    Then(c, Observe(id, port, torn), d, []);
  }

  /** A deployment without a build, from its request to its healthy application. */
  lemma DeployedEffect(s: State, id: Id, port: nat, torn: bool)
    requires id !in s.deployments && !AnyActive(s.deployments) && !s.service.deleting && s.pass.Idle?
    ensures Run(s, Deployed(id, port, torn)) == Observed(s, id, port, torn)
  {
    var observed := [Observe(id, port, torn)] + [];
    PreparedEffect(s, id, [ApplicationPrepared(id)] + ([Submit(id, true, true)] + observed));
    SubmittedEffect(s, id, observed);
    ObservedEffect(s, id, port, torn);
  }

  const FIRST := Deployment(Healthy, Cleanup, None, true, Some(Address(1, 80)))

  /** Routes of domain 7, the only one. */
  function RoutedTo(id: Id, port: nat): Config {
    Config(map[7 := Address(id, port)], 0)
  }

  /** Release 1 is current and serves domain 7, recorded and acknowledged. */
  function Serving(): State {
    Initial().(
      service := Service(Some(1), Some(Address(1, 80)), None, None, false),
      deployments := map[1 := FIRST], submitted := {1},
      domains := map[7 := Live], usedDomains := {7},
      tunnel := Tunnel([Config(map[], 0), RoutedTo(1, 80)], 1, 1, Some(RoutedTo(1, 80))),
      history := [1])
  }

  /** With domain 7 the only one, the wanted configuration follows the service document. */
  lemma Wanted(s: State, id: Id, port: nat)
    requires s.domains == map[7 := Live] && Route(s.service) == Some(Address(id, port))
    ensures DesiredRoutes(s) == Some(RoutedTo(id, port).routes)
    ensures LiveDomains(s) == {7}
  {
    assert LiveDomains(s) == {7};
    assert DesiredRoutes(s).value == map[7 := Address(id, port)];
  }

  function ToServing(): seq<Event> {
    Deployed(1, 80, false)
    + ([StartPromotion(1)]
    + ([CommitPromotion] + ([AddDomain(7)] + ([ConfigureElsewhere(0, true)] + ([Acknowledge(1)] + [])))))
  }

  lemma FirstIsPromoted(s: State)
    requires s == Initial().(
      deployments := map[1 := Deployment(Deploying, Routing, None, true, Some(Address(1, 80)))], submitted := {1},
      service := Service(None, None, Some(1), Some(Address(1, 80)), false))
    ensures
      Run(s, [StartPromotion(1)]
        + ([CommitPromotion] + ([AddDomain(7)] + ([ConfigureElsewhere(0, true)] + ([Acknowledge(1)] + [])))))
      == Serving()
  {
    assert LiveDomains(s) == {};
    var a := s.(pass := Promoting(1, Skipped));
    assert Apply(s, StartPromotion(1)) == a;
    var b := Serving().(domains := map[], usedDomains := {}, tunnel := Initial().tunnel);
    PromotedFirst(a, b);
    var rest := [AddDomain(7)] + ([ConfigureElsewhere(0, true)] + ([Acknowledge(1)] + []));
    FromPromoted(b);
    Then(a, CommitPromotion, b, rest);
    Then(s, StartPromotion(1), a, [CommitPromotion] + rest);
  }

  lemma PromotedFirst(a: State, b: State)
    requires a == Initial().(
      deployments := map[1 := Deployment(Deploying, Routing, None, true, Some(Address(1, 80)))], submitted := {1},
      service := Service(None, None, Some(1), Some(Address(1, 80)), false),
      pass := Promoting(1, Skipped))
    requires b == Serving().(domains := map[], usedDomains := {}, tunnel := Initial().tunnel)
    ensures Apply(a, CommitPromotion) == b
  {}

  lemma FromPromoted(b: State)
    requires b == Serving().(domains := map[], usedDomains := {}, tunnel := Initial().tunnel)
    ensures Run(b, [AddDomain(7)] + ([ConfigureElsewhere(0, true)] + ([Acknowledge(1)] + []))) == Serving()
  {
    var c := Serving().(tunnel := Initial().tunnel);
    assert Apply(b, AddDomain(7)) == c;
    var d := Serving().(tunnel := Serving().tunnel.(acknowledged := 0));
    Wanted(c, 1, 80);
    assert Apply(c, ConfigureElsewhere(0, true)) == ApplyConfig(c, 0, true, Idle) == d;
    AcknowledgeEffect(d, 1);
    Then(d, Acknowledge(1), Serving(), []);
    Then(c, ConfigureElsewhere(0, true), d, [Acknowledge(1)] + []);
    Then(b, AddDomain(7), c, [ConfigureElsewhere(0, true)] + ([Acknowledge(1)] + []));
  }

  lemma AcknowledgeEffect(s: State, version: nat)
    requires s.tunnel.acknowledged <= version < |s.tunnel.configs|
    ensures Apply(s, Acknowledge(version)) == s.(tunnel := s.tunnel.(acknowledged := version))
  {}

  lemma ServingIsReached()
    ensures Run(Initial(), ToServing()) == Serving()
  {
    DeployedEffect(Initial(), 1, 80, false);
    var s := Run(Initial(), Deployed(1, 80, false));
    var rest := [StartPromotion(1)]
      + ([CommitPromotion] + ([AddDomain(7)] + ([ConfigureElsewhere(0, true)] + ([Acknowledge(1)] + []))));
    RunConcat(Initial(), Deployed(1, 80, false), rest);
    assert s.deployments == map[1 := Deployment(Deploying, Routing, None, true, Some(Address(1, 80)))];
    FirstIsPromoted(s);
  }

  /** Release 2 has been deployed next to the serving release 1. */
  lemma SecondIsDeployed(torn: bool)
    ensures
      var d := Deployment(Deploying, if torn then Observing else Routing, Some(1), true,
                          if torn then None else Some(Address(2, 81)));
      Run(Serving(), Deployed(2, 81, torn))
      == Serving().(deployments := map[1 := FIRST, 2 := d], submitted := {1, 2},
                    service := Service(Some(1), Some(Address(1, 80)), Some(2), Some(Address(2, 81)), false),
                    torn := torn)
  {
    assert !AnyActive(Serving().deployments);
    DeployedEffect(Serving(), 2, 81, torn);
    var d := Deployment(Deploying, if torn then Observing else Routing, Some(1), true,
                        if torn then None else Some(Address(2, 81)));
    assert Serving().deployments[2 := d] == map[1 := FIRST, 2 := d];
  }

  /** A failing candidate, next to release 1. */
  function Second(status: Status, phase: Phase, address: Option<Address>): map<Id, Deployment> {
    map[1 := FIRST, 2 := Deployment(status, phase, Some(1), true, address)]
  }

  /** The provider accepted the candidate's route, but the reply was lost. */
  function Misled(): Tunnel {
    Tunnel([Config(map[], 0), RoutedTo(1, 80), RoutedTo(2, 81)], 1, 1, Some(RoutedTo(1, 80)))
  }

  /** The candidate fails while a configuration with its route may be served, and the tunnel's record
      says that nothing needs to be sent. */
  function LostReply(): seq<Event> {
    [StartPromotion(2)] + ([Refresh(0, false)]
    + ([FailDeployment(2)] + ([StartRestoration(2)] + ([Refresh(0, true)] + ([StopCandidate] + [])))))
  }

  lemma LostReplyPromotes(s: State)
    requires s == Serving().(deployments := Second(Deploying, Routing, Some(Address(2, 81))), submitted := {1, 2},
                             service := Service(Some(1), Some(Address(1, 80)), Some(2), Some(Address(2, 81)), false))
    ensures
      Run(s, [StartPromotion(2)] + ([Refresh(0, false)] + ([FailDeployment(2)] + [])))
      == s.(deployments := Second(Deploying, FailureCleanup, Some(Address(2, 81))), tunnel := Misled(), lost := true)
  {
    Wanted(s, 2, 81);
    var a := s.(pass := Promoting(2, Started));
    assert Apply(s, StartPromotion(2)) == a;
    var b := s.(tunnel := Misled(), lost := true);
    Wanted(a, 2, 81);
    RefreshLost(a, b);
    var c := b.(deployments := Second(Deploying, FailureCleanup, Some(Address(2, 81))));
    FailEffect(b, c);
    Then(b, FailDeployment(2), c, []);
    Then(a, Refresh(0, false), b, [FailDeployment(2)] + []);
    Then(s, StartPromotion(2), a, [Refresh(0, false)] + ([FailDeployment(2)] + []));
  }

  lemma RefreshLost(a: State, b: State)
    requires a.pass == Promoting(2, Started) && a.tunnel == Serving().tunnel
      && DesiredRoutes(a) == Some(RoutedTo(2, 81).routes)
    requires b == a.(pass := Idle, tunnel := Misled(), lost := true)
    ensures Apply(a, Refresh(0, false)) == b
  {
    assert Apply(a, Refresh(0, false)) == ApplyConfig(a, 0, false, Promoting(2, Configured));
    assert RoutedTo(2, 81).routes[7] != RoutedTo(1, 80).routes[7];
    assert ConfigureTunnel(a.tunnel, RoutedTo(2, 81), false) == Misled();
  }

  lemma FailEffect(b: State, c: State)
    requires b.pass.Idle? && 2 in b.deployments && b.deployments[2].status.Deploying?
      && !b.deployments[2].phase.FailureCleanup?
    requires b.deployments == Second(Deploying, b.deployments[2].phase, b.deployments[2].address)
    requires c == b.(deployments := Second(Deploying, FailureCleanup, b.deployments[2].address))
    ensures Apply(b, FailDeployment(2)) == c
  {}

  lemma LostReplyStops(s: State)
    requires s == Serving().(deployments := Second(Deploying, FailureCleanup, Some(Address(2, 81))),
      submitted := {1, 2},
                             service := Service(Some(1), Some(Address(1, 80)), Some(2), Some(Address(2, 81)), false),
                             tunnel := Misled(), lost := true)
    ensures
      Run(s, [StartRestoration(2)] + ([Refresh(0, true)] + ([StopCandidate] + [])))
      == s.(service := Serving().service, pass := Restoring(2, Configured), stops := map[2 := Begun])
  {
    var a := s.(service := Serving().service, pass := Restoring(2, Started));
    GivesUp(s, a);
    var b := a.(pass := Restoring(2, Configured));
    NothingSent(a, b);
    var c := b.(stops := map[2 := Begun]);
    StopEffect(b, c);
    Then(b, StopCandidate, c, []);
    Then(a, Refresh(0, true), b, [StopCandidate] + []);
    Then(s, StartRestoration(2), a, [Refresh(0, true)] + ([StopCandidate] + []));
  }

  /** The failing candidate gives the route back to release 1. */
  lemma GivesUp(s: State, a: State)
    requires s.pass.Idle? && InPhase(s.deployments, 2, FailureCleanup) && s.domains == map[7 := Live]
    requires s.service == Service(Some(1), Some(Address(1, 80)), Some(2), Some(Address(2, 81)), false)
    requires a == s.(service := Serving().service, pass := Restoring(2, Started))
    ensures Apply(s, StartRestoration(2)) == a
  {
    Wanted(s.(service := Serving().service), 1, 80);
    assert Apply(s, StartRestoration(2)) == FailureStep(s, StartRestoration(2)) == GiveUpPromotion(s, 2);
  }

  /** The recorded hash says that release 1 is configured already. */
  lemma NothingSent(a: State, b: State)
    requires a.pass == Restoring(2, Started) && a.tunnel == Misled() && a.domains == map[7 := Live]
      && a.service == Serving().service
    requires b == a.(pass := Restoring(2, Configured))
    ensures Apply(a, Refresh(0, true)) == b
  {
    Wanted(a, 1, 80);
    assert Apply(a, Refresh(0, true)) == ApplyConfig(a, 0, true, Restoring(2, Configured));
    assert Config(RoutedTo(1, 80).routes, 0) == RoutedTo(1, 80);
  }

  lemma StopEffect(b: State, c: State)
    requires b.pass.Restoring? && b.pass.id == 2 && Refreshed(b, b.pass.refresh) && b.stops == map[]
    requires 2 in b.deployments && b.deployments[2].hasJob && c == b.(stops := map[2 := Begun])
    ensures Apply(b, StopCandidate) == c
  {}

  /** Where the lost reply leads. */
  function Stranded(): State {
    Serving().(deployments := Second(Deploying, FailureCleanup, Some(Address(2, 81))), submitted := {1, 2},
               tunnel := Misled(), lost := true, pass := Restoring(2, Configured), stops := map[2 := Begun])
  }

  lemma LostReplyRun(s: State)
    requires s == Serving().(deployments := Second(Deploying, Routing, Some(Address(2, 81))), submitted := {1, 2},
                             service := Service(Some(1), Some(Address(1, 80)), Some(2), Some(Address(2, 81)), false))
    ensures Run(s, LostReply()) == Stranded()
  {
    var first := [StartPromotion(2)] + ([Refresh(0, false)] + ([FailDeployment(2)] + []));
    var second := [StartRestoration(2)] + ([Refresh(0, true)] + ([StopCandidate] + []));
    assert LostReply() == first + second;
    RunConcat(s, first, second);
    LostReplyPromotes(s);
    LostReplyStops(Run(s, first));
  }

  lemma StrandedReached()
    ensures Run(Initial(), ToServing() + (Deployed(2, 81, false) + LostReply())) == Stranded()
  {
    ServingIsReached();
    RunConcat(Initial(), ToServing(), Deployed(2, 81, false) + LostReply());
    SecondIsDeployed(false);
    RunConcat(Serving(), Deployed(2, 81, false), LostReply());
    LostReplyRun(Run(Serving(), Deployed(2, 81, false)));
  }

  lemma StrandedIsUnsafe()
    ensures !RoutesAreSafe(Stranded()) && LiveRoute(Stranded().tunnel, Stranded().domains, 2, 7)
    ensures OwnerOf(Stranded().tunnel, 2, 7) == 2
  {
    assert LiveRoute(Stranded().tunnel, Stranded().domains, 2, 7);
  }

  /** A lost reply alone breaks the promise: a candidate's stop begins while a live domain may still
      be routed to it. */
  lemma LostReplyBreaksRoutes()
    ensures
      var s := Run(Initial(), ToServing() + (Deployed(2, 81, false) + LostReply()));
      && !RoutesAreSafe(s) && s.lost && !s.torn && !s.dismantling
      && LiveRoute(s.tunnel, s.domains, 2, 7) && OwnerOf(s.tunnel, 2, 7) == 2 && s.stops == map[2 := Begun]
  {
    StrandedReached();
    StrandedIsUnsafe();
  }

  /** The crash fell between the two saves of the observing phase, the route was sent all the same
      when a domain was configured, and the retry of the restoration finds nothing to refresh. */
  function TornSave(): seq<Event> {
    [ConfigureElsewhere(0, true)] + ([FailDeployment(2)]
    + ([StartRestoration(2)] + ([Interrupt] + ([StartRestoration(2)] + ([StopCandidate] + [])))))
  }

  function TornTunnel(): Tunnel {
    Tunnel([Config(map[], 0), RoutedTo(1, 80), RoutedTo(2, 81)], 1, 2, Some(RoutedTo(2, 81)))
  }

  lemma TornFails(s: State)
    requires s == Serving().(deployments := Second(Deploying, Observing, None), submitted := {1, 2},
                             service := Service(Some(1), Some(Address(1, 80)), Some(2), Some(Address(2, 81)), false),
                             torn := true)
    ensures
      Run(s, [ConfigureElsewhere(0, true)] + ([FailDeployment(2)] + []))
      == s.(deployments := Second(Deploying, FailureCleanup, None), tunnel := TornTunnel())
  {
    Wanted(s, 2, 81);
    var b := s.(tunnel := TornTunnel());
    TornConfigures(s, b);
    var c := b.(deployments := Second(Deploying, FailureCleanup, None));
    FailEffect(b, c);
    Then(b, FailDeployment(2), c, []);
    Then(s, ConfigureElsewhere(0, true), b, [FailDeployment(2)] + []);
  }

  lemma TornConfigures(s: State, b: State)
    requires s.pass.Idle? && s.tunnel == Serving().tunnel && DesiredRoutes(s) == Some(RoutedTo(2, 81).routes)
    requires b == s.(tunnel := TornTunnel())
    ensures Apply(s, ConfigureElsewhere(0, true)) == b
  {
    assert Apply(s, ConfigureElsewhere(0, true)) == ApplyConfig(s, 0, true, Idle);
    assert RoutedTo(2, 81).routes[7] != RoutedTo(1, 80).routes[7];
    assert ConfigureTunnel(s.tunnel, RoutedTo(2, 81), true) == TornTunnel();
  }

  lemma TornStops(s: State)
    requires s == Serving().(deployments := Second(Deploying, FailureCleanup, None), submitted := {1, 2},
                             service := Service(Some(1), Some(Address(1, 80)), Some(2), Some(Address(2, 81)), false),
                             tunnel := TornTunnel(), torn := true)
    ensures
      Run(s, [StartRestoration(2)] + ([Interrupt] + ([StartRestoration(2)] + ([StopCandidate] + []))))
      == s.(service := Serving().service, pass := Restoring(2, Skipped), stops := map[2 := Begun])
  {
    var a := s.(service := Serving().service, pass := Restoring(2, Started));
    GivesUp(s, a);
    var b := a.(pass := Idle);
    assert Apply(a, Interrupt) == b;
    TornRetries(b);
    var c := b.(pass := Restoring(2, Skipped));
    var d := c.(stops := map[2 := Begun]);
    StopEffect(c, d);
    Then(c, StopCandidate, d, []);
    Then(b, StartRestoration(2), c, [StopCandidate] + []);
    Then(a, Interrupt, b, [StartRestoration(2)] + ([StopCandidate] + []));
    Then(s, StartRestoration(2), a, [Interrupt] + ([StartRestoration(2)] + ([StopCandidate] + [])));
  }

  lemma TornRetries(b: State)
    requires b.pass.Idle? && InPhase(b.deployments, 2, FailureCleanup) && b.deployments[2].address.None?
    requires b.service == Serving().service
    ensures Apply(b, StartRestoration(2)) == b.(pass := Restoring(2, Skipped))
  {}

  function Overlooked(): State {
    Serving().(deployments := Second(Deploying, FailureCleanup, None), submitted := {1, 2},
               tunnel := TornTunnel(), torn := true, pass := Restoring(2, Skipped), stops := map[2 := Begun])
  }

  lemma TornSaveRun(s: State)
    requires s == Serving().(deployments := Second(Deploying, Observing, None), submitted := {1, 2},
                             service := Service(Some(1), Some(Address(1, 80)), Some(2), Some(Address(2, 81)), false),
                             torn := true)
    ensures Run(s, TornSave()) == Overlooked()
  {
    var first := [ConfigureElsewhere(0, true)] + ([FailDeployment(2)] + []);
    var second := [StartRestoration(2)] + ([Interrupt] + ([StartRestoration(2)] + ([StopCandidate] + [])));
    assert TornSave() == first + second;
    RunConcat(s, first, second);
    TornFails(s);
    TornStops(Run(s, first));
  }

  lemma OverlookedReached()
    ensures Run(Initial(), ToServing() + (Deployed(2, 81, true) + TornSave())) == Overlooked()
  {
    ServingIsReached();
    RunConcat(Initial(), ToServing(), Deployed(2, 81, true) + TornSave());
    SecondIsDeployed(true);
    RunConcat(Serving(), Deployed(2, 81, true), TornSave());
    TornSaveRun(Run(Serving(), Deployed(2, 81, true)));
  }

  lemma OverlookedIsUnsafe()
    ensures !RoutesAreSafe(Overlooked()) && LiveRoute(Overlooked().tunnel, Overlooked().domains, 2, 7)
    ensures OwnerOf(Overlooked().tunnel, 2, 7) == 2
  {
    assert LiveRoute(Overlooked().tunnel, Overlooked().domains, 2, 7);
  }

  /** A torn save alone breaks the promise as well, every reply of the provider recorded. */
  lemma TornSaveBreaksRoutes()
    ensures
      var s := Run(Initial(), ToServing() + (Deployed(2, 81, true) + TornSave()));
      && !RoutesAreSafe(s) && s.torn && !s.lost && !s.dismantling
      && LiveRoute(s.tunnel, s.domains, 2, 7) && OwnerOf(s.tunnel, 2, 7) == 2 && s.stops == map[2 := Begun]
  {
    OverlookedReached();
    OverlookedIsUnsafe();
  }
}
