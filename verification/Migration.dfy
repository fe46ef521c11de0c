/**
  Moving a self-hosted workspace into the cloud.  Two stores take part: the workspace's own, which
  stages the documents and pauses everything else, and the directory shared by all workspaces, which
  is changed by one atomic batch.  Operators may call at any time, several at once, and every call
  may be cut off between two of its steps.
 */
module Migration {
  import opened Common

  type UserId = string
  type WorkspaceId = string
  type MachineId = string
  type CallId = nat
  type RequestId = nat

  datatype Key = Key(collection: string, id: string)

  /** A document; only domain documents use the host name. */
  datatype Value = Value(hostname: string, fields: string)

  datatype Row = Row(key: Key, value: Value)

  /** The digest of a bundle stands for the bundle. */
  datatype Bundle = Bundle(
    workspace: WorkspaceId,
    name: string,
    user: UserId,
    githubId: nat,
    token: Option<string>,
    installations: set<nat>,
    rows: seq<Row>)

  /** validateBundle refuses two documents of one key. */
  predicate Valid(b: Bundle) {
    forall i, j :: 0 <= i < j < |b.rows| ==> b.rows[i].key != b.rows[j].key
  }

  type Docs = map<Key, Value>

  /** The documents a store holds after the rows were put one after the other. */
  function DocsOf(rows: seq<Row>): Docs {
    if |rows| == 0 then map[] else DocsOf(rows[..|rows| - 1])[rows[|rows| - 1].key := rows[|rows| - 1].value]
  }

  function Machines(b: Bundle): set<MachineId> {
    set r | r in b.rows && r.key.collection == "machines" :: r.key.id
  }

  datatype Route = Route(workspace: WorkspaceId, domain: string)

  function DomainRows(b: Bundle): set<Row> {
    set r | r in b.rows && r.key.collection == "domains"
  }

  // ----- The directory -----

  datatype User = User(githubId: nat, token: Option<string>)

  datatype Directory = Directory(
    users: map<UserId, User>,
    workspaces: map<WorkspaceId, string>,
    members: map<WorkspaceId, map<UserId, bool>>,
    machines: map<MachineId, WorkspaceId>,
    domains: map<string, Route>,
    installations: set<(WorkspaceId, nat, UserId)>)

  /** Everybody with the user's id or GitHub identity is that user. */
  predicate IdentityFits(d: Directory, b: Bundle) {
    forall u :: u in d.users && (u == b.user || d.users[u].githubId == b.githubId) ==>
      u == b.user && d.users[u].githubId == b.githubId
  }

  /** A workspace that exists belongs to the user alone; `true` marks an owner. */
  predicate OwnerFits(d: Directory, b: Bundle) {
    b.workspace in d.workspaces ==> b.workspace in d.members && d.members[b.workspace] == map[b.user := true]
  }

  predicate MachinesFit(d: Directory, b: Bundle) {
    forall m :: m in Machines(b) && m in d.machines ==> d.machines[m] == b.workspace
  }

  /** Host names and domain ids are free, or already lead to the same domain of this workspace. */
  predicate DomainsFit(d: Directory, b: Bundle) {
    forall r, h ::
      r in DomainRows(b) && h in d.domains && (h == r.value.hostname || d.domains[h].domain == r.key.id) ==>
        h == r.value.hostname && d.domains[h] == Route(b.workspace, r.key.id)
  }

  predicate HostsDistinct(b: Bundle) {
    forall r, q :: r in DomainRows(b) && q in DomainRows(b) && r.value.hostname == q.value.hostname ==> r == q
  }

  /** The constraints of the tables let the whole batch through. */
  predicate BatchFits(d: Directory, b: Bundle) {
    && (forall u :: u in d.users && u != b.user ==> d.users[u].githubId != b.githubId)
    && MachinesFit(d, b) && DomainsFit(d, b) && HostsDistinct(b)
  }

  function NewRoutes(b: Bundle): map<string, Route>
    requires HostsDistinct(b)
  {
    map r | r in DomainRows(b) :: r.value.hostname := Route(b.workspace, r.key.id)
  }

  /** The one batch: rows that exist are kept, but for a missing token of the user. */
  function Batch(d: Directory, b: Bundle): Directory
    requires HostsDistinct(b)
  {
    var user :=
      if b.user !in d.users then User(b.githubId, b.token)
      else d.users[b.user].(token := if d.users[b.user].token.Some? then d.users[b.user].token else b.token);
    var members := if b.workspace in d.members then d.members[b.workspace] else map[];
    Directory(
      d.users[b.user := user],
      if b.workspace in d.workspaces then d.workspaces else d.workspaces[b.workspace := b.name],
      d.members[b.workspace := if b.user in members then members else members[b.user := true]],
      d.machines + (map m | m in Machines(b) :: b.workspace),
      d.domains + NewRoutes(b),
      d.installations + set i | i in b.installations :: (b.workspace, i, b.user))
  }

  // ----- The workspace -----

  datatype Marker = Marker(bundle: Bundle, active: bool)

  /** How far an operator's call has come; `seen` is the marker as the staging handler read it. */
  datatype Step =
    | Begun | Owned | Inspected | Cleared
    | Staging(seen: Option<Marker>)
    | Staged | Batched | Ended

  datatype Call = Call(bundle: Bundle, step: Step)

  /** `docs` are the documents of the collections that staging wants empty.  `ordinary` holds the other
      requests and alarm passes under way, `carried` those that were under way at the last staging.
      `batched` lists the bundles whose batch was committed. */
  datatype State = State(
    workspace: WorkspaceId,
    docs: Docs,
    marker: Option<Marker>,
    directory: Directory,
    calls: map<CallId, Call>,
    ordinary: set<RequestId>,
    carried: set<RequestId>,
    batched: set<Bundle>)

  datatype Event =
    | Begin(call: CallId, bundle: Bundle)
    | CheckOwner(call: CallId)
    | CheckStatus(call: CallId)
    | CheckRoutes(call: CallId)
    | ReadMarker(call: CallId)
    | Stage(call: CallId)
    | CommitBatch(call: CallId)
    | Activate(call: CallId)
    | Drop(call: CallId)
    | Admit(request: RequestId)
    | Write(request: RequestId, key: Key, value: Option<Value>)
    | Finish(request: RequestId)
    | OtherDirectory(directory: Directory)

  function Initial(workspace: WorkspaceId, directory: Directory): State {
    State(workspace, map[], None, directory, map[], {}, {}, {})
  }

  predicate Paused(s: State) {
    s.marker.Some? && !s.marker.value.active
  }

  function Goto(s: State, call: CallId, step: Step): State
    requires call in s.calls
  {
    s.(calls := s.calls[call := s.calls[call].(step := step)])
  }

  predicate At(s: State, call: CallId, step: Step) {
    call in s.calls && s.calls[call].step == step
  }

  /** The staging handler, with the marker it read before its awaits. */
  function StageStep(s: State, call: CallId): State {
    if call !in s.calls || !s.calls[call].step.Staging? then s
    else
      var b, seen := s.calls[call].bundle, s.calls[call].step.seen;
      if seen.Some? then Goto(s, call, if seen.value.bundle == b then Staged else Ended)
      else if s.docs != map[] then Goto(s, call, Ended)
      else Goto(s, call, Staged).(docs := DocsOf(b.rows), marker := Some(Marker(b, false)), carried := s.ordinary)
  }

  function CallStep(s: State, e: Event): State {
    match e
    case Begin(call, b) =>
      if call in s.calls || b.workspace != s.workspace || !Valid(b) then s
      else s.(calls := s.calls[call := Call(b, Begun)])
    case CheckOwner(call) =>
      if !At(s, call, Begun) then s
      else
        var b := s.calls[call].bundle;
        Goto(s, call, if IdentityFits(s.directory, b) && OwnerFits(s.directory, b) then Owned else Ended)
    case CheckStatus(call) =>
      if !At(s, call, Owned) then s
      else if s.marker.None? then Goto(s, call, if s.docs == map[] then Inspected else Ended)
      else
        var same := s.marker.value.bundle == s.calls[call].bundle;
        Goto(s, call, if same && !s.marker.value.active then Inspected else Ended)
    case CheckRoutes(call) =>
      if !At(s, call, Inspected) then s
      else
        var b := s.calls[call].bundle;
        Goto(s, call, if MachinesFit(s.directory, b) && DomainsFit(s.directory, b) then Cleared else Ended)
    case ReadMarker(call) => if At(s, call, Cleared) then Goto(s, call, Staging(s.marker)) else s
    case Stage(call) => StageStep(s, call)
    case CommitBatch(call) =>
      if !At(s, call, Staged) then s
      else
        var b := s.calls[call].bundle;
        if !BatchFits(s.directory, b) then Goto(s, call, Ended)
        else Goto(s, call, Batched).(directory := Batch(s.directory, b), batched := s.batched + {b})
    case Activate(call) =>
      if !At(s, call, Batched) then s
      else if s.marker.None? || s.marker.value.bundle != s.calls[call].bundle then Goto(s, call, Ended)
      else Goto(s, call, Ended).(marker := Some(s.marker.value.(active := true)))
    case Drop(call) => s.(calls := s.calls - {call})
    case _ => s
  }

  /** Other requests, the alarm, and other users of the directory. */
  function OtherStep(s: State, e: Event): State {
    match e
    case Admit(r) => if Paused(s) then s else s.(ordinary := s.ordinary + {r})
    case Write(r, key, value) =>
      if r !in s.ordinary then s
      else s.(docs := Written(s.docs, key, value))
    case Finish(r) => s.(ordinary := s.ordinary - {r})
    case OtherDirectory(d) => s.(directory := d)
    case _ => s
  }

  predicate Other(e: Event) {
    e.Admit? || e.Write? || e.Finish? || e.OtherDirectory?
  }

  function Apply(s: State, e: Event): State {
    if Other(e) then OtherStep(s, e) else CallStep(s, e)
  }

  function Run(s: State, events: seq<Event>): State
    decreases |events|
  {
    if |events| == 0 then s else Run(Apply(s, events[0]), events[1..])
  }

  // ----- Safety -----

  /** An active workspace has its bundle in the directory; a paused one holds the bundle's documents
      and nothing else, unless a request was under way when it was staged. */
  predicate Inv(s: State) {
    && (forall c :: c in s.calls && s.calls[c].step.Batched? ==> s.calls[c].bundle in s.batched)
    && (s.marker.Some? && s.marker.value.active ==> s.marker.value.bundle in s.batched)
    && (Paused(s) ==> s.ordinary <= s.carried)
    && (Paused(s) && s.carried == {} ==> s.docs == DocsOf(s.marker.value.bundle.rows))
  }

  lemma ApplyInv(s: State, e: Event)
    requires Inv(s)
    ensures Inv(Apply(s, e))
  {}

  lemma {:induction false} RunInv(s: State, events: seq<Event>)
    requires Inv(s)
    ensures Inv(Run(s, events))
    decreases |events|
  {
    if |events| > 0 {
      ApplyInv(s, events[0]);
      RunInv(Apply(s, events[0]), events[1..]);
    }
  }

  /** In every run, with any number of operators, bundles and other requests: the workspace is active
      only for a bundle whose directory batch was committed. */
  lemma ActiveIsInDirectory(workspace: WorkspaceId, directory: Directory, events: seq<Event>)
    ensures
      var s := Run(Initial(workspace, directory), events);
      s.marker.Some? && s.marker.value.active ==> s.marker.value.bundle in s.batched
  {
    RunInv(Initial(workspace, directory), events);
  }

  /** While the workspace is paused, nothing else runs and it holds exactly the documents of the bundle,
      if no other request was under way when it was staged. */
  lemma PausedIsFrozen(workspace: WorkspaceId, directory: Directory, events: seq<Event>)
    ensures
      var s := Run(Initial(workspace, directory), events);
      Paused(s) && s.carried == {} ==> s.docs == DocsOf(s.marker.value.bundle.rows) && s.ordinary == {}
  {
    RunInv(Initial(workspace, directory), events);
  }

  function Stored(docs: Docs, key: Key): Option<Value> {
    if key in docs then Some(docs[key]) else None
  }

  function Written(docs: Docs, key: Key, value: Option<Value>): Docs {
    if value.Some? then docs[key := value.value] else docs - {key}
  }

  /** Any change of a document, added, replaced or deleted, is made to the paused store exactly by the
      requests under way, all of which were under way at staging; apart from them only a handler that
      stages another bundle into an empty store changes it. */
  lemma CarriedRequestsIntrude(workspace: WorkspaceId, directory: Directory, events: seq<Event>, e: Event)
    requires Paused(Run(Initial(workspace, directory), events))
    ensures
      var s := Run(Initial(workspace, directory), events);
      && s.ordinary <= s.carried
      && (Apply(s, e).docs != s.docs && !e.Write? ==> e.Stage? && s.docs == map[])
      && (e.Write? ==>
            (Apply(s, e).docs != s.docs <==> e.request in s.ordinary && Stored(s.docs, e.key) != e.value))
  {
    RunInv(Initial(workspace, directory), events);
    var s := Run(Initial(workspace, directory), events);
    if e.Write? { WriteChanges(s.docs, e.key, e.value); }
  }

  lemma WriteChanges(docs: Docs, key: Key, value: Option<Value>)
    ensures Written(docs, key, value) != docs <==> Stored(docs, key) != value
  {
    var t := Written(docs, key, value);
    assert Stored(t, key) == value;
    if Stored(docs, key) == value { assert t == docs; }
  }

  // ----- When another bundle takes over -----

  lemma {:induction false} RowsFillDocs(rows: seq<Row>)
    ensures forall k :: k in DocsOf(rows) <==> exists i :: 0 <= i < |rows| && rows[i].key == k
    ensures DocsOf(rows) == map[] <==> rows == []
    decreases |rows|
  {
    if |rows| > 0 {
      var n := |rows| - 1;
      RowsFillDocs(rows[..n]);
      assert rows[n].key in DocsOf(rows);
      forall k
        ensures k in DocsOf(rows) <==> exists i :: 0 <= i < |rows| && rows[i].key == k
      {
        if k in DocsOf(rows) && k != rows[n].key {
          var i :| 0 <= i < |rows[..n]| && rows[..n][i].key == k;
          assert rows[i].key == k;
        }
        if i :| 0 <= i < |rows| && rows[i].key == k {
          if i < n { assert rows[..n][i].key == k; }
        }
      }
    }
  }

  /** A marker gives way to one of another bundle exactly when a staging handler of that bundle saw no
      marker before its awaits and finds no documents after them. */
  lemma ReplacedIff(s: State, e: Event)
    requires s.marker.Some?
    ensures
      (Apply(s, e).marker.None? || Apply(s, e).marker.value.bundle != s.marker.value.bundle)
      <==>
      && e.Stage? && e.call in s.calls && s.calls[e.call].step == Staging(None)
      && s.docs == map[] && s.calls[e.call].bundle != s.marker.value.bundle
  {}

  /** So a bundle with at least one document is never replaced while the workspace is paused, if no
      other request was under way when it was staged. */
  lemma PausedBundleStays(workspace: WorkspaceId, directory: Directory, events: seq<Event>, e: Event)
    requires
      var s := Run(Initial(workspace, directory), events);
      Paused(s) && s.carried == {} && s.marker.value.bundle.rows != []
    ensures
      var s := Run(Initial(workspace, directory), events);
      Apply(s, e).marker.Some? && Apply(s, e).marker.value.bundle == s.marker.value.bundle
  {
    RunInv(Initial(workspace, directory), events);
    var s := Run(Initial(workspace, directory), events);
    RowsFillDocs(s.marker.value.bundle.rows);
    ReplacedIff(s, e);
  }

  lemma Then(s: State, e: Event, t: State, rest: seq<Event>)
    requires Apply(s, e) == t
    ensures Run(s, [e] + rest) == Run(t, rest)
  {}

  lemma {:induction false} RunConcat(s: State, first: seq<Event>, second: seq<Event>)
    ensures Run(s, first + second) == Run(Run(s, first), second)
    decreases |first|
  {
    if |first| == 0 {
      assert first + second == second;
    } else {
      assert (first + second)[1..] == first[1..] + second;
      RunConcat(Apply(s, first[0]), first[1..], second);
    }
  }

  // ----- The batch -----

  /** Committing the batch twice is committing it once. */
  lemma BatchTwice(d: Directory, b: Bundle)
    requires HostsDistinct(b)
    ensures Batch(Batch(d, b), b) == Batch(d, b)
  {
    UsersTwice(d, b);
    MembersTwice(d, b);
    PlacesTwice(d, b);
  }

  lemma UsersTwice(d: Directory, b: Bundle)
    requires HostsDistinct(b)
    ensures
      var once := Batch(d, b);
      Batch(once, b).users == once.users && Batch(once, b).workspaces == once.workspaces
  {
    var users := Batch(d, b).users;
    assert users[b.user := users[b.user]] == users;
  }

  lemma MembersTwice(d: Directory, b: Bundle)
    requires HostsDistinct(b)
    ensures Batch(Batch(d, b), b).members == Batch(d, b).members
  {
    var members := Batch(d, b).members;
    assert b.user in members[b.workspace];
    assert members[b.workspace := members[b.workspace]] == members;
  }

  lemma PlacesTwice(d: Directory, b: Bundle)
    requires HostsDistinct(b)
    ensures
      var once := Batch(d, b);
      var twice := Batch(once, b);
      && twice.machines == once.machines && twice.domains == once.domains
      && twice.installations == once.installations
  {}

  /** What an import asks of the directory before it begins. */
  predicate Importable(d: Directory, b: Bundle) {
    IdentityFits(d, b) && OwnerFits(d, b) && BatchFits(d, b)
    && (b.workspace !in d.workspaces ==> b.workspace !in d.members)
  }

  /** An import that was allowed is still allowed once its batch is committed. */
  lemma StillImportable(d: Directory, b: Bundle)
    requires Importable(d, b) && DomainIdsDistinct(b)
    ensures Importable(Batch(d, b), b)
  {
    var t := Batch(d, b);
    assert t.members[b.workspace] == map[b.user := true];
    forall r, h | r in DomainRows(b) && h in t.domains && (h == r.value.hostname || t.domains[h].domain == r.key.id)
      ensures h == r.value.hostname && t.domains[h] == Route(b.workspace, r.key.id)
    {
      if h in NewRoutes(b) {
        var q :| q in DomainRows(b) && q.value.hostname == h;
        assert t.domains[h] == Route(b.workspace, q.key.id);
      }
    }
  }

  predicate DomainIdsDistinct(b: Bundle) {
    forall r, q :: r in DomainRows(b) && q in DomainRows(b) && r.key.id == q.key.id ==> r == q
  }

  /** Documents of one collection have different ids, because their keys differ. */
  lemma ValidDomainIds(b: Bundle)
    requires Valid(b)
    ensures DomainIdsDistinct(b)
  {}

  // ----- Retries of one bundle converge -----

  /** Steps of calls that import `b`, cut off anywhere. */
  predicate Retry(e: Event, b: Bundle) {
    !Other(e) && (e.Begin? ==> e.bundle == b)
  }

  /** Everything that retries of `b` from directory `d` can leave behind. */
  predicate RetryInv(s: State, d: Directory, b: Bundle)
    requires HostsDistinct(b)
  {
    && (forall c :: c in s.calls ==> CallFits(s, s.calls[c], b))
    && (s.directory == d || s.directory == Batch(d, b))
    && (forall c :: c in s.calls && s.calls[c].step.Batched? ==> s.directory == Batch(d, b))
    && (match s.marker
        case None => s.docs == map[] && s.directory == d
        case Some(m) => m.bundle == b && s.docs == DocsOf(b.rows) && (m.active ==> s.directory == Batch(d, b)))
  }

  predicate CallFits(s: State, c: Call, b: Bundle) {
    && c.bundle == b
    && (c.step.Staged? || c.step.Batched? ==> s.marker.Some?)
    && (c.step.Staging? && c.step.seen.Some? ==> c.step.seen.value.bundle == b && s.marker.Some?)
  }

  lemma RetryStage(s: State, c: CallId, d: Directory, b: Bundle)
    requires HostsDistinct(b) && RetryInv(s, d, b)
    ensures RetryInv(StageStep(s, c), d, b)
  {
    if c in s.calls && s.calls[c].step.Staging? {
      assert CallFits(s, s.calls[c], b);
      if s.calls[c].step.seen.Some? || s.docs != map[] {
        RetryGoto(s, c, Staged, d, b);
        RetryGoto(s, c, Ended, d, b);
      } else {
        StoredInv(s, c, d, b);
      }
    }
  }

  lemma RetryGoto(s: State, c: CallId, step: Step, d: Directory, b: Bundle)
    requires HostsDistinct(b) && RetryInv(s, d, b) && c in s.calls && (step.Staged? || step.Ended?)
    ensures step.Ended? || s.marker.Some? ==> RetryInv(Goto(s, c, step), d, b)
  {}

  lemma StoredInv(s: State, c: CallId, d: Directory, b: Bundle)
    requires HostsDistinct(b) && RetryInv(s, d, b) && c in s.calls && s.docs == map[]
    requires s.marker.None? || DocsOf(b.rows) == map[]
    ensures
      var t := Goto(s, c, Staged).(docs := DocsOf(b.rows), marker := Some(Marker(b, false)), carried := s.ordinary);
      RetryInv(t, d, b)
  {}

  lemma RetryCommit(s: State, c: CallId, d: Directory, b: Bundle)
    requires HostsDistinct(b) && RetryInv(s, d, b)
    ensures RetryInv(CallStep(s, CommitBatch(c)), d, b)
  {
    if At(s, c, Staged) {
      if BatchFits(s.directory, b) {
        BatchTwice(d, b);
        CommittedInv(s, Goto(s, c, Batched).(directory := Batch(d, b), batched := s.batched + {b}), c, d, b);
      } else {
        assert CallStep(s, CommitBatch(c)) == Goto(s, c, Ended);
      }
    }
  }

  lemma CommittedInv(s: State, t: State, c: CallId, d: Directory, b: Bundle)
    requires HostsDistinct(b) && RetryInv(s, d, b) && At(s, c, Staged)
    requires t == Goto(s, c, Batched).(directory := Batch(d, b), batched := t.batched)
    ensures RetryInv(t, d, b)
  {}

  lemma RetryActivate(s: State, c: CallId, d: Directory, b: Bundle)
    requires HostsDistinct(b) && RetryInv(s, d, b)
    ensures RetryInv(CallStep(s, Activate(c)), d, b)
  {}

  /** Steps that only read move one call. */
  lemma RetryReads(s: State, e: Event, d: Directory, b: Bundle)
    requires HostsDistinct(b) && RetryInv(s, d, b) && Retry(e, b) && !e.Stage? && !e.CommitBatch? && !e.Activate?
    ensures RetryInv(CallStep(s, e), d, b)
  {
    var t := CallStep(s, e);
    assert t == s.(calls := t.calls);
    forall c | c in t.calls
      ensures CallFits(t, t.calls[c], b) && (t.calls[c].step.Batched? ==> s.calls[c].step.Batched?)
    {
      if c in s.calls && t.calls[c] == s.calls[c] { assert CallFits(s, s.calls[c], b); }
    }
  }

  lemma RetryStep(s: State, e: Event, d: Directory, b: Bundle)
    requires HostsDistinct(b) && RetryInv(s, d, b) && Retry(e, b)
    ensures RetryInv(Apply(s, e), d, b)
  {
    match e
    case Stage(c) => RetryStage(s, c, d, b);
    case CommitBatch(c) => RetryCommit(s, c, d, b);
    case Activate(c) => RetryActivate(s, c, d, b);
    case _ => RetryReads(s, e, d, b);
  }

  lemma {:induction false} RetryRun(s: State, events: seq<Event>, d: Directory, b: Bundle)
    requires HostsDistinct(b) && RetryInv(s, d, b) && forall i :: 0 <= i < |events| ==> Retry(events[i], b)
    ensures RetryInv(Run(s, events), d, b)
    decreases |events|
  {
    if |events| > 0 {
      RetryStep(s, events[0], d, b);
      RetryRun(Apply(s, events[0]), events[1..], d, b);
    }
  }

  /** However often the import of a bundle was cut off and retried, once the workspace is active both
      stores are in one and the same state. */
  lemma RetriesConverge(d: Directory, b: Bundle, events: seq<Event>)
    requires HostsDistinct(b) && forall i :: 0 <= i < |events| ==> Retry(events[i], b)
    requires var m := Run(Initial(b.workspace, d), events).marker; m.Some? && m.value.active
    ensures
      var s := Run(Initial(b.workspace, d), events);
      s.docs == DocsOf(b.rows) && s.marker == Some(Marker(b, true)) && s.directory == Batch(d, b)
  {
    RetryRun(Initial(b.workspace, d), events, d, b);
  }

  /** One call of an operator, cut off nowhere. */
  function WholeCall(c: CallId, b: Bundle): seq<Event> {
    [Begin(c, b)] + ([CheckOwner(c)] + ([CheckStatus(c)] + ([CheckRoutes(c)] + LastSteps(c))))
  }

  function LastSteps(c: CallId): seq<Event> {
    [ReadMarker(c)] + ([Stage(c)] + ([CommitBatch(c)] + ([Activate(c)] + [])))
  }

  /** A call that has ended changes nothing any more. */
  lemma EndedSteps(s: State, c: CallId)
    requires At(s, c, Ended)
    ensures Apply(s, CheckRoutes(c)) == s && Apply(s, ReadMarker(c)) == s && Apply(s, Stage(c)) == s
    ensures Apply(s, CommitBatch(c)) == s && Apply(s, Activate(c)) == s
  {}

  lemma EndedStays(s: State, c: CallId)
    requires At(s, c, Ended)
    ensures Run(s, [CheckRoutes(c)] + LastSteps(c)) == s
  {
    EndedSteps(s, c);
    Then(s, Activate(c), s, []);
    Then(s, CommitBatch(c), s, [Activate(c)] + []);
    Then(s, Stage(c), s, [CommitBatch(c)] + ([Activate(c)] + []));
    Then(s, ReadMarker(c), s, [Stage(c)] + ([CommitBatch(c)] + ([Activate(c)] + [])));
    Then(s, CheckRoutes(c), s, LastSteps(c));
  }

  /** The final state of an import. */
  predicate Imported(s: State, d: Directory, b: Bundle)
    requires HostsDistinct(b)
  {
    s.docs == DocsOf(b.rows) && s.marker == Some(Marker(b, true)) && s.directory == Batch(d, b)
  }

  /** From a cleared call to the active workspace. */
  lemma LastStepsFinish(s: State, c: CallId, d: Directory, b: Bundle)
    requires HostsDistinct(b) && RetryInv(s, d, b) && At(s, c, Cleared)
    requires BatchFits(d, b) && BatchFits(Batch(d, b), b)
    ensures Imported(Run(s, LastSteps(c)), d, b)
  {
    var r := Goto(s, c, Staging(s.marker));
    RetryStep(s, ReadMarker(c), d, b);
    assert Apply(s, ReadMarker(c)) == r;
    StagingFinishes(r, c, d, b);
    Then(s, ReadMarker(c), r, [Stage(c)] + ([CommitBatch(c)] + ([Activate(c)] + [])));
  }

  lemma StagingFinishes(s: State, c: CallId, d: Directory, b: Bundle)
    requires HostsDistinct(b) && RetryInv(s, d, b) && At(s, c, Staging(s.marker))
    requires BatchFits(d, b) && BatchFits(Batch(d, b), b)
    ensures Imported(Run(s, [Stage(c)] + ([CommitBatch(c)] + ([Activate(c)] + []))), d, b)
  {
    var t := Apply(s, Stage(c));
    RetryStep(s, Stage(c), d, b);
    assert t == StageStep(s, c);
    assert At(t, c, Staged);
    StagedFinishes(t, c, d, b);
    Then(s, Stage(c), t, [CommitBatch(c)] + ([Activate(c)] + []));
  }

  lemma CommitEffect(s: State, c: CallId, d: Directory, b: Bundle)
    requires At(s, c, Staged) && s.calls[c].bundle == b && BatchFits(s.directory, b)
    requires Batch(s.directory, b) == Batch(d, b)
    ensures Apply(s, CommitBatch(c)) == Goto(s, c, Batched).(directory := Batch(d, b), batched := s.batched + {b})
  {}

  lemma ActivateEffect(s: State, c: CallId, b: Bundle)
    requires At(s, c, Batched) && s.calls[c].bundle == b && s.marker.Some? && s.marker.value.bundle == b
    ensures Apply(s, Activate(c)) == Goto(s, c, Ended).(marker := Some(Marker(b, true)))
  {}

  lemma StagedFinishes(s: State, c: CallId, d: Directory, b: Bundle)
    requires HostsDistinct(b) && RetryInv(s, d, b) && At(s, c, Staged)
    requires BatchFits(d, b) && BatchFits(Batch(d, b), b)
    ensures Imported(Run(s, [CommitBatch(c)] + ([Activate(c)] + [])), d, b)
  {
    BatchTwice(d, b);
    assert s.calls[c].bundle == b;
    var t := Goto(s, c, Batched).(directory := Batch(d, b), batched := s.batched + {b});
    CommitEffect(s, c, d, b);
    var u := Goto(t, c, Ended).(marker := Some(Marker(b, true)));
    ActivateEffect(t, c, b);
    Then(t, Activate(c), u, []);
    Then(s, CommitBatch(c), t, [Activate(c)] + []);
  }

  /** After any number of calls that were cut off anywhere, one more that is not finishes the import. */
  lemma RetryFinishes(d: Directory, b: Bundle, events: seq<Event>, c: CallId)
    requires Valid(b) && Importable(d, b) && forall i :: 0 <= i < |events| ==> Retry(events[i], b)
    requires c !in Run(Initial(b.workspace, d), events).calls
    ensures
      var t := Run(Run(Initial(b.workspace, d), events), WholeCall(c, b));
      Imported(t, d, b)
  {
    RetryRun(Initial(b.workspace, d), events, d, b);
    WorkspaceStays(Initial(b.workspace, d), events);
    ValidDomainIds(b);
    StillImportable(d, b);
    WholeCallFinishes(Run(Initial(b.workspace, d), events), d, b, c);
  }

  lemma {:induction false} WorkspaceStays(s: State, events: seq<Event>)
    ensures Run(s, events).workspace == s.workspace
    decreases |events|
  {
    if |events| > 0 { WorkspaceStays(Apply(s, events[0]), events[1..]); }
  }

  lemma WholeCallFinishes(s: State, d: Directory, b: Bundle, c: CallId)
    requires Valid(b) && Importable(d, b) && Importable(Batch(d, b), b) && RetryInv(s, d, b) && c !in s.calls
      && s.workspace == b.workspace
    ensures
      var t := Run(s, WholeCall(c, b));
      Imported(t, d, b)
  {
    var s1 := s.(calls := s.calls[c := Call(b, Begun)]);
    var s2 := Goto(s1, c, Owned);
    var rest := [CheckStatus(c)] + ([CheckRoutes(c)] + LastSteps(c));
    RetryStep(s, Begin(c, b), d, b);
    RetryStep(s1, CheckOwner(c), d, b);
    assert Apply(s1, CheckOwner(c)) == s2;
    OwnedFinishes(s2, d, b, c);
    Then(s1, CheckOwner(c), s2, rest);
    Then(s, Begin(c, b), s1, [CheckOwner(c)] + rest);
  }

  lemma OwnedFinishes(s: State, d: Directory, b: Bundle, c: CallId)
    requires Importable(d, b) && Importable(Batch(d, b), b) && RetryInv(s, d, b) && At(s, c, Owned)
    ensures
      var t := Run(s, [CheckStatus(c)] + ([CheckRoutes(c)] + LastSteps(c)));
      Imported(t, d, b)
  {
    var t := Apply(s, CheckStatus(c));
    RetryStep(s, CheckStatus(c), d, b);
    Then(s, CheckStatus(c), t, [CheckRoutes(c)] + LastSteps(c));
    if At(t, c, Inspected) {
      InspectedFinishes(t, d, b, c);
    } else {
      assert At(t, c, Ended) && t.marker == s.marker && s.marker.Some? && s.marker.value.active;
      EndedStays(t, c);
    }
  }

  lemma InspectedFinishes(s: State, d: Directory, b: Bundle, c: CallId)
    requires Importable(d, b) && Importable(Batch(d, b), b) && RetryInv(s, d, b) && At(s, c, Inspected)
    ensures
      var t := Run(s, [CheckRoutes(c)] + LastSteps(c));
      Imported(t, d, b)
  {
    var t := Goto(s, c, Cleared);
    assert Apply(s, CheckRoutes(c)) == t;
    RetryStep(s, CheckRoutes(c), d, b);
    LastStepsFinish(t, c, d, b);
    Then(s, CheckRoutes(c), t, LastSteps(c));
  }

  // ----- A request under way intrudes, and a bundle without documents is replaced -----

  function Nowhere(): Directory {
    Directory(map[], map[], map[], map[], map[], {})
  }

  function Empty(name: string): Bundle {
    Bundle("w", name, "u", 1, None, {}, [])
  }

  /** From its beginning to where its staging handler has read the marker. */
  function ToStaging(c: CallId, b: Bundle): seq<Event> {
    [Begin(c, b)] + ([CheckOwner(c)] + ([CheckStatus(c)] + ([CheckRoutes(c)] + ([ReadMarker(c)] + []))))
  }

  function CallAt(s: State, c: CallId, b: Bundle, step: Step): State {
    s.(calls := s.calls[c := Call(b, step)])
  }

  /** A workspace of which neither store knows anything. */
  predicate Fresh(s: State) {
    s.directory == Nowhere() && s.marker.None? && s.docs == map[]
  }

  lemma Checked(s: State, c: CallId, b: Bundle, e: Event, from: Step, to: Step)
    requires Fresh(s)
    requires
      || (e == CheckOwner(c) && from == Begun && to == Owned)
      || (e == CheckStatus(c) && from == Owned && to == Inspected)
      || (e == CheckRoutes(c) && from == Inspected && to == Cleared)
      || (e == ReadMarker(c) && from == Cleared && to == Staging(None))
    ensures Apply(CallAt(s, c, b, from), e) == CallAt(s, c, b, to)
  {}

  lemma ToStagingEffect(s: State, c: CallId, b: Bundle)
    requires c !in s.calls && s.workspace == b.workspace && Valid(b) && Fresh(s)
    ensures Run(s, ToStaging(c, b)) == CallAt(s, c, b, Staging(None))
  {
    Checked(s, c, b, ReadMarker(c), Cleared, Staging(None));
    Then(CallAt(s, c, b, Cleared), ReadMarker(c), CallAt(s, c, b, Staging(None)), []);
    Checked(s, c, b, CheckRoutes(c), Inspected, Cleared);
    Then(CallAt(s, c, b, Inspected), CheckRoutes(c), CallAt(s, c, b, Cleared), [ReadMarker(c)] + []);
    Checked(s, c, b, CheckStatus(c), Owned, Inspected);
    Then(CallAt(s, c, b, Owned), CheckStatus(c), CallAt(s, c, b, Inspected), [CheckRoutes(c)] + ([ReadMarker(c)] + []));
    Checked(s, c, b, CheckOwner(c), Begun, Owned);
    var rest := [CheckStatus(c)] + ([CheckRoutes(c)] + ([ReadMarker(c)] + []));
    Then(CallAt(s, c, b, Begun), CheckOwner(c), CallAt(s, c, b, Owned), rest);
    BeginEffect(s, c, b);
    Then(s, Begin(c, b), CallAt(s, c, b, Begun), [CheckOwner(c)] + rest);
  }

  lemma BeginEffect(s: State, c: CallId, b: Bundle)
    requires c !in s.calls && s.workspace == b.workspace && Valid(b)
    ensures Apply(s, Begin(c, b)) == CallAt(s, c, b, Begun)
  {}

  /** A request is admitted, the bundle is staged, and only then the request writes. */
  function Intrusion(b: Bundle, key: Key, value: Option<Value>): seq<Event> {
    [Admit(1)] + (ToStaging(1, b) + ([Stage(1)] + ([Write(1, key, value)] + [])))
  }

  /** Whatever the bundle, a request that was under way can make any change to the paused store. */
  lemma CarriedWriteHappens(b: Bundle, key: Key, value: Option<Value>)
    requires Valid(b)
    ensures
      var s := Run(Initial(b.workspace, Nowhere()), Intrusion(b, key, value));
      s.marker == Some(Marker(b, false)) && s.docs == Written(DocsOf(b.rows), key, value)
  {
    var s0 := Initial(b.workspace, Nowhere());
    var s1 := s0.(ordinary := {1});
    assert Apply(s0, Admit(1)) == s1;
    var last := [Stage(1)] + ([Write(1, key, value)] + []);
    Then(s0, Admit(1), s1, ToStaging(1, b) + last);
    RunConcat(s1, ToStaging(1, b), last);
    ToStagingEffect(s1, 1, b);
    StagedAndWritten(CallAt(s1, 1, b, Staging(None)), b, key, value);
  }

  lemma StagedAndWritten(s: State, b: Bundle, key: Key, value: Option<Value>)
    requires 1 in s.calls && s.calls[1] == Call(b, Staging(None)) && s.docs == map[] && s.ordinary == {1}
    ensures
      var t := Run(s, [Stage(1)] + ([Write(1, key, value)] + []));
      t.marker == Some(Marker(b, false)) && t.docs == Written(DocsOf(b.rows), key, value)
  {
    var t := Apply(s, Stage(1));
    assert t == StageStep(s, 1);
    Then(t, Write(1, key, value), Apply(t, Write(1, key, value)), []);
    Then(s, Stage(1), t, [Write(1, key, value)] + []);
  }

  /** Two operators import different bundles without documents at the same time. */
  function TwoOperators(): seq<Event> {
    ToStaging(1, Empty("first")) + (ToStaging(2, Empty("second"))
    + ([Stage(1)] + ([CommitBatch(1)] + ([Activate(1)] + ([Stage(2)] + [])))))
  }

  /** The workspace is active for the first bundle, and then paused for the second. */
  lemma EmptyBundleIsReplaced()
    ensures
      var s := Run(Initial("w", Nowhere()), TwoOperators());
      s.marker == Some(Marker(Empty("second"), false)) && Empty("first") in s.batched
  {
    var s0 := Initial("w", Nowhere());
    ToStagingEffect(s0, 1, Empty("first"));
    var s1 := Run(s0, ToStaging(1, Empty("first")));
    ToStagingEffect(s1, 2, Empty("second"));
    var s2 := Run(s1, ToStaging(2, Empty("second")));
    var last := [Stage(1)] + ([CommitBatch(1)] + ([Activate(1)] + ([Stage(2)] + [])));
    RunConcat(s1, ToStaging(2, Empty("second")), last);
    RunConcat(s0, ToStaging(1, Empty("first")), ToStaging(2, Empty("second")) + last);
    SecondTakesOver(s2);
  }

  lemma SecondTakesOver(s: State)
    requires s.marker.None? && s.docs == map[] && s.directory == Nowhere()
    requires 1 in s.calls && s.calls[1] == Call(Empty("first"), Staging(None))
    requires 2 in s.calls && s.calls[2] == Call(Empty("second"), Staging(None))
    ensures
      var t := Run(s, [Stage(1)] + ([CommitBatch(1)] + ([Activate(1)] + ([Stage(2)] + []))));
      t.marker == Some(Marker(Empty("second"), false)) && Empty("first") in t.batched
  {
    StageEmpty(s, 1, "first");
    var a := Apply(s, Stage(1));
    var b := Apply(a, CommitBatch(1));
    CommitEmpty(a);
    var c := Apply(b, Activate(1));
    ActivateEmpty(b);
    StageEmpty(c, 2, "second");
    var d := Apply(c, Stage(2));
    Then(c, Stage(2), d, []);
    Then(b, Activate(1), c, [Stage(2)] + []);
    Then(a, CommitBatch(1), b, [Activate(1)] + ([Stage(2)] + []));
    Then(s, Stage(1), a, [CommitBatch(1)] + ([Activate(1)] + ([Stage(2)] + [])));
  }

  lemma StageEmpty(s: State, c: CallId, name: string)
    requires c in s.calls && s.calls[c] == Call(Empty(name), Staging(None)) && s.docs == map[]
    ensures
      var t := Apply(s, Stage(c));
      && t.marker == Some(Marker(Empty(name), false)) && t.docs == map[] && t.directory == s.directory
      && t.batched == s.batched
      && t.calls == s.calls[c := Call(Empty(name), Staged)]
  {}

  lemma CommitEmpty(s: State)
    requires 1 in s.calls && s.calls[1] == Call(Empty("first"), Staged) && s.directory == Nowhere()
    ensures
      var t := Apply(s, CommitBatch(1));
      && t.marker == s.marker && t.docs == s.docs && Empty("first") in t.batched
      && t.calls == s.calls[1 := Call(Empty("first"), Batched)]
  {}

  lemma ActivateEmpty(s: State)
    requires 1 in s.calls && s.calls[1] == Call(Empty("first"), Batched)
    requires s.marker == Some(Marker(Empty("first"), false)) && Empty("first") in s.batched
    ensures
      var t := Apply(s, Activate(1));
      && t.marker == Some(Marker(Empty("first"), true)) && t.docs == s.docs && t.batched == s.batched
      && t.calls == s.calls[1 := Call(Empty("first"), Ended)]
  {}

  // ----- The workspace's store, changed in place -----

  class WorkspaceStore {
    var docs: Docs
    var marker: Option<Marker>

    constructor ()
      ensures docs == map[] && marker == None
    {
      docs := map[];
      marker := None;
    }

    /** `s` describes this store. */
    ghost predicate Describes(s: State)
      reads this
    {
      s.docs == docs && s.marker == marker
    }

    /** The staging transaction, with the marker that was read before the awaits. */
    method StageBundle(b: Bundle, seen: Option<Marker>, ghost s: State, ghost call: CallId) returns (ok: bool)
      requires Describes(s) && At(s, call, Staging(seen)) && s.calls[call].bundle == b
      modifies this
      ensures Describes(Apply(s, Stage(call)))
      ensures ok <==> At(Apply(s, Stage(call)), call, Staged)
    {
      if seen.Some? {
        return seen.value.bundle == b;
      }
      if docs != map[] {
        return false;
      }
      var i := 0;
      while i < |b.rows|
        invariant 0 <= i <= |b.rows|
        invariant docs == DocsOf(b.rows[..i])
        invariant marker == s.marker
      {
        assert b.rows[..i + 1][..i] == b.rows[..i];
        docs := docs[b.rows[i].key := b.rows[i].value];
        i := i + 1;
      }
      assert b.rows[..i] == b.rows;
      marker := Some(Marker(b, false));
      return true;
    }

    method ActivateBundle(b: Bundle, ghost s: State, ghost call: CallId) returns (ok: bool)
      requires Describes(s) && At(s, call, Batched) && s.calls[call].bundle == b
      modifies this
      ensures Describes(Apply(s, Activate(call)))
      ensures ok <==> s.marker.Some? && s.marker.value.bundle == b
    {
      if marker.None? || marker.value.bundle != b {
        return false;
      }
      marker := Some(marker.value.(active := true));
      return true;
    }
  }
}
