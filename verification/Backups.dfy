/**
  Backups, restores and retention of databases.  User requests and uploads act between any two awaits
  of the alarm, which works on copies of the documents it listed when its pass began.
 */
module Backups {
  import opened Common

  type OpId = nat
  type DbId = nat
  type ServiceId = nat
  type Digest = string

  datatype Kind = Backup | Restore(source: OpId, target: DbId)

  datatype Status = Queued | Provisioning | Running | Succeeded | Failed | Expiring | Expired

  /** Documents are listed in the order of their ids.  A stored object is named after the backup that
      uploads it; `key` is that backup once the name has been assigned. */
  datatype Op = Op(
    kind: Kind,
    database: DbId,
    status: Status,
    key: Option<OpId>,
    hasJob: bool,
    checksum: Option<Digest>,
    cleanup: bool,
    created: int,
    updated: int)
  {
    predicate Active() {
      status.Queued? || status.Provisioning? || status.Running?
    }

    /** A backup that will never be restored again. */
    predicate Dead() {
      status.Failed? || status.Expiring? || status.Expired?
    }
  }

  type Ops = map<OpId, Op>

  /** `Ready` is healthy with its probe cleaned up. */
  datatype DbStatus = Settling | Ready | Broken | Deleting

  datatype Database = Database(status: DbStatus, restore: Option<OpId>)

  // ----- Guards -----

  predicate ActiveOn(ops: Ops, id: OpId, db: DbId) {
    id in ops && ops[id].database == db && ops[id].Active()
  }

  predicate Busy(ops: Ops, db: DbId) {
    exists id :: id in ops && ActiveOn(ops, id, db)
  }

  predicate Restores(ops: Ops, id: OpId, source: OpId) {
    id in ops && ops[id].kind.Restore? && ops[id].kind.source == source && ops[id].Active()
  }

  /** An active restore reads this backup. */
  predicate InUse(ops: Ops, source: OpId) {
    exists id :: id in ops && Restores(ops, id, source)
  }

  predicate IsTarget(ops: Ops, id: OpId, db: DbId) {
    id in ops && ops[id].kind.Restore? && ops[id].kind.target == db
  }

  /** An operation reads or fills this database. */
  predicate Touches(ops: Ops, id: OpId, db: DbId) {
    id in ops && (ops[id].database == db || IsTarget(ops, id, db))
  }

  predicate IsCopy(ops: Ops, id: OpId, db: DbId) {
    id in ops && ops[id].database == db && ops[id].kind.Backup? && ops[id].status.Succeeded?
  }

  predicate RestoreSucceeded(ops: Ops, d: Database) {
    d.restore.Some? ==> d.restore.value in ops && ops[d.restore.value].status.Succeeded?
  }

  // ----- Retention -----

  /** Newest first, and in listed order where the times are equal. */
  predicate Newer(ops: Ops, a: OpId, b: OpId)
    requires a in ops && b in ops
  {
    ops[a].created > ops[b].created || (ops[a].created == ops[b].created && a < b)
  }

  predicate ByAge(ops: Ops, ids: seq<OpId>)
    requires forall x :: x in ids ==> x in ops
  {
    forall i, j :: 0 <= i < j < |ids| ==> Newer(ops, ids[i], ids[j])
  }

  function Insert(ops: Ops, id: OpId, ids: seq<OpId>): (r: seq<OpId>)
    requires id in ops && forall x :: x in ids ==> x in ops
    ensures forall x :: x in r <==> x == id || x in ids
  {
    if |ids| == 0 || Newer(ops, id, ids[0]) then [id] + ids
    else [ids[0]] + Insert(ops, id, ids[1..])
  }

  lemma {:induction false} InsertByAge(ops: Ops, id: OpId, ids: seq<OpId>)
    requires id in ops && (forall x :: x in ids ==> x in ops) && ByAge(ops, ids) && id !in ids
    ensures ByAge(ops, Insert(ops, id, ids))
    decreases |ids|
  {
    if |ids| > 0 && !Newer(ops, id, ids[0]) {
      InsertByAge(ops, id, ids[1..]);
      var r := Insert(ops, id, ids[1..]);
      forall j | 0 <= j < |r|
        ensures Newer(ops, ids[0], r[j])
      {
        assert r[j] in r;
        assert r[j] == id || r[j] in ids[1..];
      }
    }
  }

  /** The successful copies of a database with ids below `n`, newest first. */
  function Copies(ops: Ops, db: DbId, n: nat): (r: seq<OpId>)
    ensures forall x: OpId :: x in r <==> x < n && IsCopy(ops, x, db)
    decreases n
  {
    if n == 0 then []
    else if IsCopy(ops, n - 1, db) then Insert(ops, n - 1, Copies(ops, db, n - 1))
    else Copies(ops, db, n - 1)
  }

  lemma {:induction false} CopiesByAge(ops: Ops, db: DbId, n: nat)
    ensures ByAge(ops, Copies(ops, db, n))
    decreases n
  {
    if n > 0 {
      CopiesByAge(ops, db, n - 1);
      if IsCopy(ops, n - 1, db) { InsertByAge(ops, n - 1, Copies(ops, db, n - 1)); }
    }
  }

  function Surplus(ops: Ops, db: DbId, keep: nat, n: nat): seq<OpId> {
    var copies := Copies(ops, db, n);
    if keep <= |copies| then copies[keep..] else []
  }

  function Expire(op: Op, now: int): Op {
    op.(status := Expiring, updated := now)
  }

  /** The listed copies expire, unless a restore reads them. */
  function ExpireUnused(ops: Ops, ids: seq<OpId>, now: int): Ops {
    map id | id in ops :: if id in ids && !InUse(ops, id) then Expire(ops[id], now) else ops[id]
  }

  /** Retention of one database: copies past the newest `keep` expire, unless a restore reads them. */
  function Retained(ops: Ops, db: DbId, keep: nat, n: nat, now: int): Ops {
    ExpireUnused(ops, Surplus(ops, db, keep, n), now)
  }

  /** The copies that rank above one in age order. */
  function Above(ops: Ops, db: DbId, id: OpId): set<OpId>
    requires id in ops
  {
    set x | x in ops && IsCopy(ops, x, db) && Newer(ops, x, id)
  }

  /** The position of a copy in the sorted list is its rank. */
  lemma RankIsPosition(ops: Ops, db: DbId, n: nat, k: nat)
    requires (forall x :: x in ops ==> x < n) && k < |Copies(ops, db, n)|
    ensures Copies(ops, db, n)[k] in ops && |Above(ops, db, Copies(ops, db, n)[k])| == k
  {
    var copies := Copies(ops, db, n);
    CopiesByAge(ops, db, n);
    var id := copies[k];
    assert id in copies;
    assert forall x :: x in Above(ops, db, id) ==> x in copies;
    forall x | x in copies
      ensures x in copies[..k] <==> x in Above(ops, db, id)
    {
      var i :| 0 <= i < |copies| && copies[i] == x;
      if i < k { assert Newer(ops, copies[i], copies[k]); assert copies[..k][i] == x; }
      if i > k { assert Newer(ops, copies[k], copies[i]); }
    }
    assert Above(ops, db, id) == Members(copies[..k]);
    DistinctMembers(copies[..k]);
  }

  /** Retention expires a copy exactly when `keep` other copies rank above it and no active restore
      reads it; everything else stays as it is. */
  lemma RetentionIff(ops: Ops, db: DbId, keep: nat, n: nat, now: int, id: OpId)
    requires (forall x :: x in ops ==> x < n) && IsCopy(ops, id, db)
    ensures
      var after := Retained(ops, db, keep, n, now);
      && id in after
      && (after[id].status.Expiring? <==> |Above(ops, db, id)| >= keep && !InUse(ops, id))
      && (!after[id].status.Expiring? ==> after[id] == ops[id])
  {
    var copies := Copies(ops, db, n);
    CopiesByAge(ops, db, n);
    assert id in copies;
    var k :| 0 <= k < |copies| && copies[k] == id;
    RankIsPosition(ops, db, n, k);
    if k >= keep { assert copies[keep..][k - keep] == id; }
    if id in Surplus(ops, db, keep, n) {
      var j :| 0 <= j < |copies[keep..]| && copies[keep..][j] == id;
      assert copies[keep + j] == id;
      assert keep + j == k;
    }
  }

  /** The newest `keep` copies outlive any number of retention passes with nothing between them. */
  lemma NewestSurvive(ops: Ops, db: DbId, keep: nat, n: nat, now: int)
    requires forall x :: x in ops ==> x < n
    ensures
      var copies := Copies(ops, db, n);
      forall k :: 0 <= k < |copies| && k < keep ==>
        copies[k] in ops && IsCopy(Retained(ops, db, keep, n, now), copies[k], db)
  {
    var copies := Copies(ops, db, n);
    forall k | 0 <= k < |copies| && k < keep
      ensures copies[k] in ops && IsCopy(Retained(ops, db, keep, n, now), copies[k], db)
    {
      assert copies[k] in copies;
      RankIsPosition(ops, db, n, k);
      RetentionIff(ops, db, keep, n, now, copies[k]);
    }
  }

  // ----- State -----

  /** An upload that was admitted and has not returned. */
  datatype Upload = Upload(id: OpId, digest: Digest)

  /** The running pass of the alarm: copies of the documents it still has to work on, or of those
      whose objects it deletes. */
  datatype Pass =
    | Resting
    | Looping(copies: Ops)
    | Cleaned(copies: Ops, id: OpId, revision: int)
    | Heading(copies: Ops, id: OpId, copy: Op)
    | Sweeping(copies: Ops)
    | Swept(copies: Ops, id: OpId, copy: Op)

  datatype State = State(
    now: int,
    rows: nat,
    ops: Ops,
    objects: map<OpId, Digest>,
    databases: map<DbId, Database>,
    retained: set<DbId>,
    usedDatabases: set<DbId>,
    bindings: map<ServiceId, DbId>,
    policies: map<DbId, nat>,
    uploads: set<Upload>,
    pass: Pass)

  function Initial(now: int): State {
    State(now, 0, map[], map[], map[], {}, {}, map[], map[], {}, Resting)
  }

  datatype Event =
    | Tick(later: nat)
    // users
    | QueueBackup(db: DbId)
    | RequestRestore(source: OpId, db: DbId, target: DbId)
    | DeleteBackup(source: OpId, db: DbId)
    | SetPolicy(db: DbId, keep: nat)
    // transfers
    | StartUpload(id: OpId, digest: Digest)
    | LandUpload(upload: Upload)
    | FinishUpload(upload: Upload)
    // the alarm
    | BeginPass
    | CleanUp(id: OpId)
    | FinishCleanUp
    | Provision(id: OpId)
    | Start(id: OpId)
    | Check(id: OpId)
    | Complete(found: bool)
    | FailOp(id: OpId)
    | Skip(id: OpId)
    | Retain(db: DbId)
    | BeginSweep
    | DeleteObject(id: OpId)
    | FinishSweep
    | Crash
    // databases
    | CreateDatabase(db: DbId, services: set<ServiceId>)
    | Settle(db: DbId, status: DbStatus)
    | Attach(service: ServiceId, db: DbId)
    | RemoveDatabase(db: DbId)
    | FinishRemoval(db: DbId)

  predicate Known(s: State, db: DbId) {
    db in s.databases || db in s.retained
  }

  function PutOp(s: State, id: OpId, op: Op): State {
    s.(ops := s.ops[id := op.(updated := s.now)])
  }

  function AddOp(s: State, op: Op): State {
    s.(ops := s.ops[s.rows := op], rows := s.rows + 1)
  }

  predicate MayBackUp(s: State, db: DbId) {
    && db in s.databases && s.databases[db].status.Ready?
    && RestoreSucceeded(s.ops, s.databases[db])
    && !Busy(s.ops, db)
  }

  predicate MayRestore(s: State, source: OpId, db: DbId) {
    Known(s, db) && IsCopy(s.ops, source, db) && !Busy(s.ops, db)
  }

  predicate MayDelete(s: State, source: OpId, db: DbId) {
    && Known(s, db) && source in s.ops
    && s.ops[source].database == db && s.ops[source].kind.Backup? && !s.ops[source].Active()
    && !InUse(s.ops, source)
  }

  function UserStep(s: State, e: Event): State {
    match e
    case QueueBackup(db) =>
      if MayBackUp(s, db) then AddOp(s, Op(Backup, db, Queued, None, false, None, false, s.now, s.now)) else s
    case RequestRestore(source, db, target) =>
      if MayRestore(s, source, db) && target !in s.usedDatabases
      then
        var b := s.ops[source];
        AddOp(s, Op(Restore(source, target), db, Provisioning, b.key, false, b.checksum, false, s.now, s.now))
        .(usedDatabases := s.usedDatabases + {target})
      else s
    case DeleteBackup(source, db) =>
      if MayDelete(s, source, db) then s.(ops := s.ops[source := Expire(s.ops[source], s.now)]) else s
    case SetPolicy(db, keep) => if Known(s, db) && keep > 0 then s.(policies := s.policies[db := keep]) else s
    case _ => s
  }

  /** The object store creates an object only where none exists. */
  function TransferStep(s: State, e: Event): State {
    match e
    case StartUpload(id, digest) =>
      if id in s.ops && s.ops[id].kind.Backup? && s.ops[id].status.Running? && s.ops[id].checksum.None?
      then s.(uploads := s.uploads + {Upload(id, digest)}) else s
    case LandUpload(u) =>
      if u in s.uploads && u.id !in s.objects then s.(objects := s.objects[u.id := u.digest]) else s
    case FinishUpload(u) =>
      if u !in s.uploads || u.id !in s.ops then s
      else
        var t := s.(uploads := s.uploads - {u});
        if u.id !in s.objects || s.objects[u.id] != u.digest then t
        else if s.ops[u.id].status.Running? then PutOp(t, u.id, s.ops[u.id].(checksum := Some(u.digest)))
        else if s.ops[u.id].status.Succeeded? && s.ops[u.id].checksum == Some(u.digest) then t
        else PutOp(t, u.id, s.ops[u.id].(cleanup := true))
    case _ => s
  }

  function Work(ops: Ops): Ops {
    map id | id in ops && (ops[id].Active() || ops[id].cleanup) :: ops[id]
  }

  function DatabaseOf(op: Op): DbId {
    if op.kind.Restore? then op.kind.target else op.database
  }

  /** One operation of the pass. */
  function LoopStep(s: State, e: Event): State
    requires s.pass.Looping?
  {
    var copies := s.pass.copies;
    match e
    case CleanUp(id) =>
      if id !in copies || !copies[id].cleanup then s
      else
        var b := copies[id];
        s.(pass := Cleaned(copies - {id}, id, b.updated),
           objects := if b.kind.Backup? && b.Dead() && b.key.Some? then s.objects - {b.key.value} else s.objects)
    case Provision(id) =>
      if id in copies && !copies[id].cleanup && copies[id].status.Provisioning? && copies[id].kind.Restore?
         && copies[id].kind.target !in s.databases
      then
        s.(databases := s.databases[copies[id].kind.target := Database(Settling, Some(id))],
           pass := Looping(copies - {id}))
      else s
    case Start(id) =>
      if id in copies && !copies[id].cleanup && (copies[id].status.Provisioning? || copies[id].status.Queued?)
         && DatabaseOf(copies[id]) in s.databases && s.databases[DatabaseOf(copies[id])].status.Ready?
      then
        var key := if copies[id].key.Some? then copies[id].key else Some(id);
        var b := copies[id].(status := Running, hasJob := true, key := key);
        PutOp(s, id, b).(pass := Looping(copies[id := b]))
      else s
    case Check(id) =>
      if id in copies && !copies[id].cleanup && copies[id].status.Running? && id in s.ops
      then s.(pass := Heading(copies - {id}, id, s.ops[id])) else s
    case FailOp(id) =>
      if id in copies && !copies[id].cleanup && id in s.ops
      then PutOp(s, id, s.ops[id].(status := Failed, cleanup := s.ops[id].hasJob)).(pass := Looping(copies - {id}))
      else s
    case Skip(id) => s.(pass := Looping(copies - {id}))
    case BeginSweep =>
      s.(pass := Sweeping(map id | id in s.ops && s.ops[id].status.Expiring? :: s.ops[id]))
    case _ => s
  }

  /** The steps of the pass that follow an await inside an operation. */
  function AwaitedStep(s: State, e: Event): State {
    match e
    case FinishCleanUp =>
      if !s.pass.Cleaned? || s.pass.id !in s.ops then s
      else
        var t := s.(pass := Looping(s.pass.copies));
        if s.ops[s.pass.id].updated != s.pass.revision then t
        else PutOp(t, s.pass.id, s.ops[s.pass.id].(cleanup := false))
    case Complete(found) =>
      if !s.pass.Heading? || s.pass.id !in s.ops then s
      else
        var b := s.pass.copy;
        var t := s.(pass := Looping(s.pass.copies));
        if !found || b.key.None? || b.key.value !in s.objects
           || (b.checksum.Some? && b.checksum.value != s.objects[b.key.value])
        then PutOp(t, s.pass.id, s.ops[s.pass.id].(status := Failed, cleanup := s.ops[s.pass.id].hasJob))
        else PutOp(t, s.pass.id, b.(checksum := Some(s.objects[b.key.value]), status := Succeeded, cleanup := true))
    case DeleteObject(id) =>
      if s.pass.Sweeping? && id in s.pass.copies
      then
        var old' := s.pass.copies[id];
        s.(objects := if old'.key.Some? then s.objects - {old'.key.value} else s.objects,
           pass := Swept(s.pass.copies - {id}, id, old'))
      else s
    case FinishSweep =>
      if s.pass.Swept? then PutOp(s, s.pass.id, s.pass.copy.(status := Expired)).(pass := Sweeping(s.pass.copies))
      else if s.pass.Sweeping? then s.(pass := Resting)
      else s
    case Retain(db) =>
      if s.pass.Looping? && db in s.policies
      then s.(ops := Retained(s.ops, db, s.policies[db], s.rows, s.now)) else s
    case BeginPass => if s.pass.Resting? then s.(pass := Looping(Work(s.ops))) else s
    case Crash => s.(pass := Resting)
    case _ => s
  }

  predicate MayBind(s: State, service: ServiceId, db: DbId) {
    && db in s.databases && RestoreSucceeded(s.ops, s.databases[db]) && !s.databases[db].status.Deleting?
    && (service in s.bindings ==> s.bindings[service] == db)
  }

  predicate MayRemove(s: State, db: DbId) {
    && db in s.databases
    && (forall id :: id in s.ops && Touches(s.ops, id, db) ==> !s.ops[id].Active())
    && (forall id :: id in s.ops && s.ops[id].database == db && s.ops[id].kind.Backup? ==>
          !s.ops[id].status.Succeeded? && !s.ops[id].status.Expiring?)
  }

  function DatabaseStep(s: State, e: Event): State {
    match e
    case CreateDatabase(db, services) =>
      if db in s.usedDatabases || (exists v :: v in services && v in s.bindings) then s
      else
        s.(databases := s.databases[db := Database(Settling, None)], usedDatabases := s.usedDatabases + {db},
           bindings := s.bindings + (map v | v in services :: db))
    case Settle(db, status) =>
      if db in s.databases && !s.databases[db].status.Deleting? && !status.Deleting?
      then s.(databases := s.databases[db := s.databases[db].(status := status)]) else s
    case Attach(service, db) =>
      if MayBind(s, service, db) then s.(bindings := s.bindings[service := db]) else s
    case RemoveDatabase(db) =>
      if MayRemove(s, db) then s.(databases := s.databases[db := s.databases[db].(status := Deleting)]) else s
    case FinishRemoval(db) =>
      if db in s.databases && s.databases[db].status.Deleting?
      then
        s.(databases := s.databases - {db}, retained := s.retained + {db}, policies := s.policies - {db},
           bindings := map v | v in s.bindings && s.bindings[v] != db :: s.bindings[v])
      else s
    case _ => s
  }

  predicate UserEvent(e: Event) {
    e.QueueBackup? || e.RequestRestore? || e.DeleteBackup? || e.SetPolicy?
  }

  predicate TransferEvent(e: Event) {
    e.StartUpload? || e.LandUpload? || e.FinishUpload?
  }

  predicate LoopEvent(e: Event) {
    e.CleanUp? || e.Provision? || e.Start? || e.Check? || e.FailOp? || e.Skip? || e.BeginSweep?
  }

  predicate DatabaseEvent(e: Event) {
    e.CreateDatabase? || e.Settle? || e.Attach? || e.RemoveDatabase? || e.FinishRemoval?
  }

  function Apply(s: State, e: Event): State {
    if e.Tick? then s.(now := s.now + e.later)
    else if UserEvent(e) then UserStep(s, e)
    else if TransferEvent(e) then TransferStep(s, e)
    else if LoopEvent(e) then (if s.pass.Looping? then LoopStep(s, e) else s)
    else if DatabaseEvent(e) then DatabaseStep(s, e)
    else AwaitedStep(s, e)
  }

  function Run(s: State, events: seq<Event>): State
    decreases |events|
  {
    if |events| == 0 then s else Run(Apply(s, events[0]), events[1..])
  }

  // ----- Invariant -----

  /** What no step changes about an operation. */
  predicate SameOp(a: Op, b: Op) {
    a.kind == b.kind && a.database == b.database && a.created == b.created
  }

  predicate BackupShape(b: Op, id: OpId) {
    && (b.key.Some? ==> b.key.value == id)
    && !b.status.Provisioning?
    && (b.status.Queued? ==> b.checksum.None?)
    && (b.status.Running? || b.status.Succeeded? ==> b.key.Some?)
  }

  predicate RestoreShape(ops: Ops, b: Op) {
    && b.kind.Restore? && b.kind.source in ops && ops[b.kind.source].kind.Backup?
    && ops[b.kind.source].database == b.database
    && b.key == Some(b.kind.source)
    && !b.status.Queued? && !b.status.Expiring? && !b.status.Expired?
  }

  predicate OpInv(ops: Ops, id: OpId)
    requires id in ops
  {
    && (ops[id].Active() ==> !ops[id].cleanup)
    && (if ops[id].kind.Backup? then BackupShape(ops[id], id) else RestoreShape(ops, ops[id]))
  }

  /** The source of an active restore is a successful copy, with the checksum the restore expects. */
  predicate SourceInv(ops: Ops, id: OpId)
    requires id in ops
  {
    ops[id].kind.Restore? && ops[id].Active() ==>
      && ops[id].kind.source in ops
      && ops[ops[id].kind.source].status.Succeeded?
      && ops[id].checksum == ops[ops[id].kind.source].checksum
  }

  /** A successful copy has its object, and the object is what the checksum says. */
  predicate ObjectInv(ops: Ops, objects: map<OpId, Digest>, id: OpId)
    requires id in ops
  {
    ops[id].kind.Backup? && ops[id].status.Succeeded? ==> id in objects && ops[id].checksum == Some(objects[id])
  }

  predicate OpsInv(ops: Ops, objects: map<OpId, Digest>) {
    forall id :: id in ops ==> OpInv(ops, id) && SourceInv(ops, id) && ObjectInv(ops, objects, id)
  }

  /** What an unfinished operation keeps until the pass itself moves it on. */
  predicate SameActive(b: Op, c: Op) {
    && b.status == c.status && b.key == c.key && b.hasJob == c.hasJob
    && (b.status.Queued? || b.kind.Restore? ==> b.checksum == c.checksum)
  }

  /** A copy the pass works on agrees with its document where it matters. */
  predicate CopyInv(ops: Ops, id: OpId, b: Op) {
    && id in ops && SameOp(b, ops[id])
    && (b.cleanup <==> !b.Active())
    && (b.Active() ==> SameActive(b, ops[id]))
    && (b.Dead() ==> ops[id].Dead())
    && (b.status.Succeeded? ==> !ops[id].Active())
    && (b.kind.Backup? && b.key.Some? ==> b.key == Some(id))
  }

  predicate CopiesInv(ops: Ops, copies: Ops) {
    forall id :: id in copies ==> CopyInv(ops, id, copies[id])
  }

  /** A document listed for expiry. */
  predicate SweepInv(ops: Ops, id: OpId, b: Op) {
    && id in ops && SameOp(b, ops[id]) && b.kind.Backup? && b.Dead() && ops[id].Dead()
    && (b.key.Some? ==> b.key == Some(id))
  }

  predicate SweepsInv(ops: Ops, copies: Ops) {
    forall id :: id in copies ==> SweepInv(ops, id, copies[id])
  }

  predicate PassInv(ops: Ops, pass: Pass) {
    match pass
    case Resting => true
    case Looping(copies) => CopiesInv(ops, copies)
    case Cleaned(copies, id, _) => id in ops && !ops[id].Active() && CopiesInv(ops, copies)
    case Heading(copies, id, copy) =>
      && id in ops && copy.status.Running? && !copy.cleanup && SameOp(copy, ops[id]) && SameActive(copy, ops[id])
      && id !in copies && CopiesInv(ops, copies)
    case Sweeping(copies) => SweepsInv(ops, copies)
    case Swept(copies, id, copy) => SweepInv(ops, id, copy) && SweepsInv(ops, copies)
  }

  ghost predicate OneActive(ops: Ops) {
    forall a, b, db :: ActiveOn(ops, a, db) && ActiveOn(ops, b, db) ==> a == b
  }

  /** A database filled by a restore is worked on only after that restore succeeded, and no two
      restores fill the same one. */
  ghost predicate TargetInv(ops: Ops) {
    && (forall r, x {:trigger IsTarget(ops, r, ops[x].database)} :: x in ops && IsTarget(ops, r, ops[x].database) ==>
          ops[r].status.Succeeded?)
    && (forall a, b, db :: IsTarget(ops, a, db) && IsTarget(ops, b, db) ==> a == b)
  }

  /** A database knows the restore that fills it. */
  ghost predicate FillsInv(ops: Ops, databases: map<DbId, Database>) {
    forall db :: db in databases ==>
      && (forall r: OpId :: IsTarget(ops, r, db) ==> databases[db].restore == Some(r))
      && (databases[db].restore.Some? ==> IsTarget(ops, databases[db].restore.value, db))
  }

  /** Nothing works on this database, and it has no successful copy to restore. */
  ghost predicate Unworked(ops: Ops, db: DbId) {
    && (forall id :: Touches(ops, id, db) ==> !ops[id].Active())
    && (forall id :: !IsCopy(ops, id, db))
  }

  ghost predicate DeletingInv(ops: Ops, databases: map<DbId, Database>) {
    forall db :: db in databases && databases[db].status.Deleting? ==> Unworked(ops, db)
  }

  predicate BindingsInv(ops: Ops, databases: map<DbId, Database>, bindings: map<ServiceId, DbId>) {
    forall v :: v in bindings ==> bindings[v] in databases && RestoreSucceeded(ops, databases[bindings[v]])
  }

  predicate UsedInv(s: State) {
    && (forall id :: id in s.ops ==> id < s.rows && s.ops[id].database in s.usedDatabases)
    && (forall id :: id in s.ops && s.ops[id].kind.Restore? ==> s.ops[id].kind.target in s.usedDatabases)
    && (forall db :: db in s.databases ==> db in s.usedDatabases)
    && (forall db :: db in s.retained ==> db in s.usedDatabases)
    && (forall u :: u in s.uploads ==> u.id in s.ops && s.ops[u.id].kind.Backup? && !s.ops[u.id].status.Queued?)
  }

  ghost predicate Inv(s: State) {
    && OpsInv(s.ops, s.objects)
    && OneActive(s.ops) && TargetInv(s.ops)
    && PassInv(s.ops, s.pass)
    && FillsInv(s.ops, s.databases) && DeletingInv(s.ops, s.databases) && BindingsInv(s.ops, s.databases, s.bindings)
    && UsedInv(s)
  }

  // ----- How operations may change -----

  /** One operation moves on: nothing wakes up, nothing dead comes back, a success ends only by
      expiring. */
  predicate Evolves(a: Op, b: Op) {
    && SameOp(a, b)
    && (b.Active() ==> a.Active() && !b.cleanup)
    && (a.Dead() ==> b.Dead())
    && (a.status.Succeeded? ==> b.status.Succeeded? || (b.Dead() && a.kind.Backup?))
    && (b.status.Succeeded? && !a.status.Succeeded? ==> a.status.Running?)
    && (a.status.Succeeded? && b.status.Succeeded? ==> b.checksum == a.checksum)
    && (b.kind.Restore? && b.Active() ==> b.checksum == a.checksum)
    && (b.status.Queued? ==> a.status.Queued?)
  }

  predicate AllEvolve(before: Ops, after: Ops) {
    before.Keys == after.Keys && forall id :: id in before ==> Evolves(before[id], after[id])
  }

  /** No successful copy that an active restore reads is given up. */
  predicate KeepsSources(before: Ops, after: Ops) {
    forall id :: id in before && id in after && before[id].status.Succeeded? && InUse(before, id) ==>
      after[id].status.Succeeded?
  }

  lemma EvolvedShape(before: Ops, after: Ops, objects: map<OpId, Digest>, objects': map<OpId, Digest>)
    requires OpsInv(before, objects) && AllEvolve(before, after) && KeepsSources(before, after)
    requires forall id :: id in after ==> OpInv(after, id) && ObjectInv(after, objects', id)
    ensures OpsInv(after, objects')
  {}

  lemma EvolvedLocks(before: Ops, after: Ops)
    requires OneActive(before) && TargetInv(before) && AllEvolve(before, after)
    ensures OneActive(after) && TargetInv(after)
  {
    assert forall a, db :: ActiveOn(after, a, db) ==> ActiveOn(before, a, db);
    assert forall r, db :: IsTarget(after, r, db) <==> IsTarget(before, r, db);
    forall r, x | x in after && IsTarget(after, r, after[x].database)
      ensures after[r].status.Succeeded?
    {
      assert IsTarget(before, r, before[x].database);
    }
  }

  lemma EvolvedDatabases(before: Ops, after: Ops, databases: map<DbId, Database>, bindings: map<ServiceId, DbId>)
    requires FillsInv(before, databases) && DeletingInv(before, databases) && BindingsInv(before, databases, bindings)
    requires AllEvolve(before, after)
    ensures FillsInv(after, databases) && DeletingInv(after, databases) && BindingsInv(after, databases, bindings)
  {
    assert forall r, db :: IsTarget(after, r, db) <==> IsTarget(before, r, db);
    forall db | db in databases && databases[db].status.Deleting?
      ensures Unworked(after, db)
    {
      assert Unworked(before, db);
      assert forall id :: Touches(after, id, db) ==> Touches(before, id, db);
      forall id ensures !IsCopy(after, id, db) {
        assert IsCopy(after, id, db) ==> Touches(before, id, db);
        assert !IsCopy(before, id, db);
      }
    }
    forall v | v in bindings
      ensures RestoreSucceeded(after, databases[bindings[v]])
    {
      var d := databases[bindings[v]];
      if d.restore.Some? { assert IsTarget(before, d.restore.value, bindings[v]); }
    }
  }

  /** Everything but the pass, for steps that only move operations on. */
  lemma EvolveInv(s: State, t: State)
    requires Inv(s) && AllEvolve(s.ops, t.ops) && KeepsSources(s.ops, t.ops)
    requires t.databases == s.databases && t.bindings == s.bindings && t.rows == s.rows
    requires t.usedDatabases == s.usedDatabases && t.retained == s.retained
    requires forall u :: u in t.uploads ==>
      u in s.uploads || (u.id in t.ops && t.ops[u.id].kind.Backup? && !t.ops[u.id].status.Queued?)
    requires forall id :: id in t.ops ==> OpInv(t.ops, id) && ObjectInv(t.ops, t.objects, id)
    requires PassInv(t.ops, t.pass)
    ensures Inv(t)
  {
    EvolvedShape(s.ops, t.ops, s.objects, t.objects);
    EvolvedLocks(s.ops, t.ops);
    EvolvedDatabases(s.ops, t.ops, s.databases, s.bindings);
  }

  /** One operation changes; the pass and the objects may change with it. */
  lemma ChangeInv(s: State, t: State, id: OpId, op: Op)
    requires Inv(s) && id in s.ops && t.ops == s.ops[id := op] && Evolves(s.ops[id], op)
    requires s.ops[id].status.Succeeded? && InUse(s.ops, id) ==> op.status.Succeeded?
    requires if op.kind.Backup? then BackupShape(op, id) else RestoreShape(s.ops, op)
    requires forall x :: x in s.ops && x != id ==> ObjectInv(s.ops, t.objects, x)
    requires ObjectInv(t.ops, t.objects, id)
    requires t.databases == s.databases && t.bindings == s.bindings && t.rows == s.rows
    requires t.usedDatabases == s.usedDatabases && t.retained == s.retained && t.uploads <= s.uploads
    requires PassInv(t.ops, t.pass)
    ensures Inv(t)
  {
    forall x | x in t.ops
      ensures OpInv(t.ops, x) && ObjectInv(t.ops, t.objects, x)
    {
      assert OpInv(s.ops, x);
      if x != id { assert ObjectInv(s.ops, t.objects, x); }
    }
    EvolveInv(s, t);
  }

  /** Copies of other documents still agree when one document changes. */
  lemma OtherCopies(ops: Ops, copies: Ops, id: OpId, op: Op)
    requires CopiesInv(ops, copies) && id !in copies
    ensures CopiesInv(ops[id := op], copies)
  {}

  /** A copy still agrees with a document that only moved on outside the pass. */
  lemma SameCopies(ops: Ops, copies: Ops, id: OpId, op: Op)
    requires CopiesInv(ops, copies) && id in ops && Evolves(ops[id], op)
    requires ops[id].Active() ==> SameActive(ops[id], op)
    ensures CopiesInv(ops[id := op], copies)
  {}

  lemma SamePass(s: State, id: OpId, op: Op)
    requires PassInv(s.ops, s.pass) && id in s.ops && Evolves(s.ops[id], op)
    requires s.ops[id].Active() ==> SameActive(s.ops[id], op)
    ensures PassInv(s.ops[id := op], s.pass)
  {}

  // ----- Users -----

  /** A new operation that no copy of the pass knows. */
  lemma AddedInv(s: State, op: Op, targets: set<DbId>)
    requires Inv(s) && op.Active() && !op.cleanup && !Busy(s.ops, op.database) && op.database in s.usedDatabases
    requires if op.kind.Backup? then BackupShape(op, s.rows) else RestoreShape(s.ops, op)
    requires op.kind.Restore? ==>
      && s.ops[op.kind.source].status.Succeeded? && op.checksum == s.ops[op.kind.source].checksum
      && op.kind.target !in s.usedDatabases && targets == {op.kind.target}
    requires op.kind.Backup? ==> targets == {}
    requires forall r :: IsTarget(s.ops, r, op.database) ==> s.ops[r].status.Succeeded?
    requires op.database in s.databases ==> !s.databases[op.database].status.Deleting?
    ensures Inv(AddOp(s, op).(usedDatabases := s.usedDatabases + targets))
  {
    var t := AddOp(s, op).(usedDatabases := s.usedDatabases + targets);
    assert s.rows !in s.ops;
    AddedOps(s, op);
    AddedLocks(s, op);
    AddedDatabases(s, op);
    AddedPass(s, op);
  }

  lemma AddedOps(s: State, op: Op)
    requires OpsInv(s.ops, s.objects) && s.rows !in s.ops && op.Active() && !op.cleanup
    requires if op.kind.Backup? then BackupShape(op, s.rows) else RestoreShape(s.ops, op)
    requires op.kind.Restore? ==>
      s.ops[op.kind.source].status.Succeeded? && op.checksum == s.ops[op.kind.source].checksum
    ensures OpsInv(s.ops[s.rows := op], s.objects)
  {}

  lemma AddedLocks(s: State, op: Op)
    requires OneActive(s.ops) && TargetInv(s.ops) && s.rows !in s.ops && !Busy(s.ops, op.database)
    requires forall id :: id in s.ops ==> s.ops[id].database in s.usedDatabases
    requires forall id :: id in s.ops && s.ops[id].kind.Restore? ==> s.ops[id].kind.target in s.usedDatabases
    requires op.database in s.usedDatabases && (op.kind.Restore? ==> op.kind.target !in s.usedDatabases)
    requires forall r :: IsTarget(s.ops, r, op.database) ==> s.ops[r].status.Succeeded?
    ensures OneActive(s.ops[s.rows := op]) && TargetInv(s.ops[s.rows := op])
  {
    var t := s.ops[s.rows := op];
    assert forall a, db :: ActiveOn(t, a, db) && a != s.rows ==> ActiveOn(s.ops, a, db);
    assert forall r, db :: IsTarget(t, r, db) && r != s.rows ==> IsTarget(s.ops, r, db);
    assert forall a :: !ActiveOn(s.ops, a, op.database);
    forall r, x | x in t && IsTarget(t, r, t[x].database)
      ensures t[r].status.Succeeded?
    {
      if r != s.rows {
        if x != s.rows { assert IsTarget(s.ops, r, s.ops[x].database); }
      }
    }
  }

  lemma AddedDatabases(s: State, op: Op)
    requires FillsInv(s.ops, s.databases) && DeletingInv(s.ops, s.databases)
      && BindingsInv(s.ops, s.databases, s.bindings)
    requires s.rows !in s.ops && op.Active() && UsedInv(s) && (op.kind.Restore? ==> op.kind.target !in s.usedDatabases)
    requires op.database in s.databases ==> !s.databases[op.database].status.Deleting?
    ensures
      var t := s.ops[s.rows := op];
      FillsInv(t, s.databases) && DeletingInv(t, s.databases) && BindingsInv(t, s.databases, s.bindings)
  {
    var t := s.ops[s.rows := op];
    assert forall r, db :: IsTarget(t, r, db) && db in s.databases <==> IsTarget(s.ops, r, db) && db in s.databases;
    forall db | db in s.databases && s.databases[db].status.Deleting?
      ensures Unworked(t, db)
    {
      assert Unworked(s.ops, db);
      assert forall id :: Touches(t, id, db) ==> Touches(s.ops, id, db);
      assert forall id :: IsCopy(t, id, db) ==> IsCopy(s.ops, id, db);
    }
  }

  lemma AddedPass(s: State, op: Op)
    requires PassInv(s.ops, s.pass) && s.rows !in s.ops
    ensures PassInv(s.ops[s.rows := op], s.pass)
  {}

  lemma BackupInv(s: State, db: DbId)
    requires Inv(s)
    ensures Inv(UserStep(s, QueueBackup(db)))
  {
    if MayBackUp(s, db) {
      var t := AddOp(s, Op(Backup, db, Queued, None, false, None, false, s.now, s.now));
      AddedInv(s, Op(Backup, db, Queued, None, false, None, false, s.now, s.now), {});
      assert t.(usedDatabases := s.usedDatabases + {}) == t;
    }
  }

  lemma RequestInv(s: State, source: OpId, db: DbId, target: DbId)
    requires Inv(s)
    ensures Inv(UserStep(s, RequestRestore(source, db, target)))
  {
    if MayRestore(s, source, db) && target !in s.usedDatabases {
      var b := s.ops[source];
      assert OpInv(s.ops, source);
      assert forall r :: IsTarget(s.ops, r, s.ops[source].database) ==> s.ops[r].status.Succeeded?;
      assert Unworked(s.ops, db) ==> !IsCopy(s.ops, source, db);
      AddedInv(s, Op(Restore(source, target), db, Provisioning, b.key, false, b.checksum, false, s.now, s.now),
        {target});
    }
  }

  lemma DeleteInv(s: State, source: OpId, db: DbId)
    requires Inv(s)
    ensures Inv(UserStep(s, DeleteBackup(source, db)))
  {
    if MayDelete(s, source, db) {
      var op := Expire(s.ops[source], s.now);
      assert OpInv(s.ops, source);
      SamePass(s, source, op);
      assert forall x :: x in s.ops && x != source ==> ObjectInv(s.ops, s.objects, x);
      ChangeInv(s, UserStep(s, DeleteBackup(source, db)), source, op);
    }
  }

  lemma UserInv(s: State, e: Event)
    requires Inv(s)
    ensures Inv(UserStep(s, e))
  {
    match e
    case QueueBackup(db) => BackupInv(s, db);
    case RequestRestore(source, db, target) => RequestInv(s, source, db, target);
    case DeleteBackup(source, db) => DeleteInv(s, source, db);
    case SetPolicy(_, _) =>
    case _ =>
  }

  // ----- Transfers -----

  lemma LandInv(s: State, u: Upload)
    requires Inv(s)
    ensures Inv(TransferStep(s, LandUpload(u)))
  {}

  lemma UploadedInv(s: State, t: State, id: OpId, op: Op)
    requires Inv(s) && id in s.ops && s.ops[id].kind.Backup? && !s.ops[id].status.Queued?
    requires
      || (s.ops[id].status.Running? && exists d :: op == s.ops[id].(checksum := Some(d), updated := s.now))
      || (!s.ops[id].Active() && op == s.ops[id].(cleanup := true, updated := s.now))
    requires t == s.(ops := s.ops[id := op], uploads := t.uploads) && t.uploads <= s.uploads
    ensures Inv(t)
  {
    assert OpInv(s.ops, id) && ObjectInv(s.ops, s.objects, id);
    SamePass(s, id, op);
    assert forall x :: x in s.ops && x != id ==> ObjectInv(s.ops, s.objects, x);
    ChangeInv(s, t, id, op);
  }

  lemma FinishUploadInv(s: State, u: Upload)
    requires Inv(s)
    ensures Inv(TransferStep(s, FinishUpload(u)))
  {
    var t := TransferStep(s, FinishUpload(u));
    if u in s.uploads {
      assert OpInv(s.ops, u.id);
      if u.id !in s.objects || s.objects[u.id] != u.digest
        || (s.ops[u.id].status.Succeeded? && s.ops[u.id].checksum == Some(u.digest))
      {
        UploadsInv(s, s.uploads - {u});
      } else {
        UploadedInv(s, t, u.id, t.ops[u.id]);
      }
    }
  }

  /** Uploads that are admitted or return, and nothing else. */
  lemma UploadsInv(s: State, uploads: set<Upload>)
    requires Inv(s)
    requires forall u :: u in uploads && u !in s.uploads ==>
      u.id in s.ops && s.ops[u.id].kind.Backup? && !s.ops[u.id].status.Queued?
    ensures Inv(s.(uploads := uploads))
  {}

  lemma StartUploadInv(s: State, id: OpId, digest: Digest)
    requires Inv(s)
    ensures Inv(TransferStep(s, StartUpload(id, digest)))
  {
    if id in s.ops && s.ops[id].kind.Backup? && s.ops[id].status.Running? && s.ops[id].checksum.None? {
      UploadsInv(s, s.uploads + {Upload(id, digest)});
    }
  }

  lemma TransferInv(s: State, e: Event)
    requires Inv(s)
    ensures Inv(TransferStep(s, e))
  {
    match e
    case StartUpload(id, digest) => StartUploadInv(s, id, digest);
    case LandUpload(u) => LandInv(s, u);
    case FinishUpload(u) => FinishUploadInv(s, u);
    case _ =>
  }

  // ----- The pass -----

  lemma CleanUpInv(s: State, id: OpId)
    requires Inv(s) && s.pass.Looping?
    ensures Inv(LoopStep(s, CleanUp(id)))
  {
    var t := LoopStep(s, CleanUp(id));
    if id !in s.pass.copies || !s.pass.copies[id].cleanup { return; }
    assert CopyInv(s.ops, id, s.pass.copies[id]);
    forall x | x in s.ops
      ensures ObjectInv(s.ops, t.objects, x) && OpInv(s.ops, x)
    {
      assert ObjectInv(s.ops, s.objects, x);
    }
    EvolveInv(s, t);
  }

  lemma ProvisionInv(s: State, id: OpId)
    requires Inv(s) && s.pass.Looping?
    ensures Inv(LoopStep(s, Provision(id)))
  {
    if id in s.pass.copies && !s.pass.copies[id].cleanup && s.pass.copies[id].status.Provisioning?
      && s.pass.copies[id].kind.Restore? && s.pass.copies[id].kind.target !in s.databases
    {
      assert CopyInv(s.ops, id, s.pass.copies[id]) && OpInv(s.ops, id);
      var target := s.ops[id].kind.target;
      assert IsTarget(s.ops, id, target);
      var t := s.(pass := Looping(s.pass.copies - {id}));
      PassOnly(s, t.pass);
      ProvisionedInv(t, id, target);
    }
  }

  /** The database that a restore fills appears. */
  lemma ProvisionedInv(s: State, id: OpId, target: DbId)
    requires Inv(s) && IsTarget(s.ops, id, target) && target !in s.databases
    ensures Inv(s.(databases := s.databases[target := Database(Settling, Some(id))]))
  {
    var t := s.(databases := s.databases[target := Database(Settling, Some(id))]);
    assert forall db :: db in t.databases && db != target ==> db in s.databases && t.databases[db] == s.databases[db];
    assert FillsInv(t.ops, t.databases);
    assert DeletingInv(t.ops, t.databases);
  }

  /** The pass goes on, and nothing else changes. */
  lemma PassOnly(s: State, pass: Pass)
    requires Inv(s) && PassInv(s.ops, pass)
    ensures Inv(s.(pass := pass))
  {}

  lemma StartInv(s: State, id: OpId)
    requires Inv(s) && s.pass.Looping?
    ensures Inv(LoopStep(s, Start(id)))
  {
    var t := LoopStep(s, Start(id));
    if t == s { return; }
    StartedInv(s, t, id, s.pass.copies);
  }

  lemma StartedInv(s: State, t: State, id: OpId, copies: Ops)
    requires Inv(s) && CopiesInv(s.ops, copies) && id in copies && !copies[id].cleanup
    requires copies[id].status.Provisioning? || copies[id].status.Queued?
    requires
      var key := if copies[id].key.Some? then copies[id].key else Some(id);
      var b := copies[id].(status := Running, hasJob := true, key := key);
      t == PutOp(s, id, b).(pass := Looping(copies[id := b]))
    ensures Inv(t)
  {
    assert CopyInv(s.ops, id, copies[id]) && OpInv(s.ops, id);
    var rest := copies - {id};
    OtherCopies(s.ops, rest, id, t.ops[id]);
    forall x | x in t.pass.copies
      ensures CopyInv(t.ops, x, t.pass.copies[x])
    {
      if x != id { assert x in rest && CopyInv(t.ops, x, rest[x]); }
    }
    assert forall x :: x in s.ops && x != id ==> ObjectInv(s.ops, s.objects, x);
    ChangeInv(s, t, id, t.ops[id]);
  }

  lemma CheckInv(s: State, id: OpId)
    requires Inv(s) && s.pass.Looping?
    ensures Inv(LoopStep(s, Check(id)))
  {
    if id in s.pass.copies && !s.pass.copies[id].cleanup && s.pass.copies[id].status.Running? && id in s.ops {
      assert CopyInv(s.ops, id, s.pass.copies[id]) && OpInv(s.ops, id);
      PassOnly(s, Heading(s.pass.copies - {id}, id, s.ops[id]));
    }
  }

  lemma FailedInv(s: State, t: State, id: OpId, copies: Ops)
    requires Inv(s) && id in s.ops && s.ops[id].Active() && CopiesInv(s.ops, copies) && id !in copies
    requires t == PutOp(s, id, s.ops[id].(status := Failed, cleanup := s.ops[id].hasJob)).(pass := Looping(copies))
    ensures Inv(t)
  {
    assert OpInv(s.ops, id);
    OtherCopies(s.ops, copies, id, t.ops[id]);
    assert forall x :: x in s.ops && x != id ==> ObjectInv(s.ops, s.objects, x);
    ChangeInv(s, t, id, t.ops[id]);
  }

  lemma FailOpInv(s: State, id: OpId)
    requires Inv(s) && s.pass.Looping?
    ensures Inv(LoopStep(s, FailOp(id)))
  {
    var t := LoopStep(s, FailOp(id));
    if t == s { return; }
    assert CopyInv(s.ops, id, s.pass.copies[id]);
    FailedInv(s, t, id, s.pass.copies - {id});
  }

  lemma LoopInv(s: State, e: Event)
    requires Inv(s) && s.pass.Looping?
    ensures Inv(LoopStep(s, e))
  {
    match e
    case CleanUp(id) => CleanUpInv(s, id);
    case Provision(id) => ProvisionInv(s, id);
    case Start(id) => StartInv(s, id);
    case Check(id) => CheckInv(s, id);
    case FailOp(id) => FailOpInv(s, id);
    case Skip(id) => PassOnly(s, Looping(s.pass.copies - {id}));
    case BeginSweep => BeginSweepInv(s);
    case _ =>
  }

  lemma BeginSweepInv(s: State)
    requires Inv(s)
    ensures Inv(s.(pass := Sweeping(map id | id in s.ops && s.ops[id].status.Expiring? :: s.ops[id])))
  {
    forall id | id in s.ops && s.ops[id].status.Expiring?
      ensures SweepInv(s.ops, id, s.ops[id])
    {
      assert OpInv(s.ops, id);
    }
    PassOnly(s, Sweeping(map id | id in s.ops && s.ops[id].status.Expiring? :: s.ops[id]));
  }

  lemma FinishCleanUpInv(s: State)
    requires Inv(s)
    ensures Inv(AwaitedStep(s, FinishCleanUp))
  {
    if s.pass.Cleaned? {
      if s.ops[s.pass.id].updated == s.pass.revision {
        CleanedInv(s, AwaitedStep(s, FinishCleanUp), s.pass.id, s.pass.copies);
      } else {
        PassOnly(s, Looping(s.pass.copies));
      }
    }
  }

  lemma CleanedInv(s: State, t: State, id: OpId, copies: Ops)
    requires Inv(s) && id in s.ops && !s.ops[id].Active() && CopiesInv(s.ops, copies)
    requires t == PutOp(s, id, s.ops[id].(cleanup := false)).(pass := Looping(copies))
    ensures Inv(t)
  {
    assert OpInv(s.ops, id) && ObjectInv(s.ops, s.objects, id);
    SameCopies(s.ops, copies, id, t.ops[id]);
    assert forall x :: x in s.ops && x != id ==> ObjectInv(s.ops, s.objects, x);
    ChangeInv(s, t, id, t.ops[id]);
  }

  lemma CompleteInv(s: State, found: bool)
    requires Inv(s)
    ensures Inv(AwaitedStep(s, Complete(found)))
  {
    var t := AwaitedStep(s, Complete(found));
    if t == s { return; }
    var id := s.pass.id;
    assert OpInv(s.ops, id);
    if t.ops[id].status.Failed? {
      FailedInv(s, t, id, s.pass.copies);
    } else {
      OtherCopies(s.ops, s.pass.copies, id, t.ops[id]);
      assert forall x :: x in s.ops && x != id ==> ObjectInv(s.ops, s.objects, x);
      ChangeInv(s, t, id, t.ops[id]);
    }
  }

  lemma SweepingInv(s: State, id: OpId)
    requires Inv(s)
    ensures Inv(AwaitedStep(s, DeleteObject(id)))
  {}

  lemma SweptInv(s: State)
    requires Inv(s)
    ensures Inv(AwaitedStep(s, FinishSweep))
  {
    if s.pass.Swept? {
      ExpiredInv(s, AwaitedStep(s, FinishSweep), s.pass.id, s.pass.copy, s.pass.copies);
    } else if s.pass.Sweeping? {
      PassOnly(s, Resting);
    }
  }

  lemma ExpiredInv(s: State, t: State, id: OpId, copy: Op, copies: Ops)
    requires Inv(s) && SweepInv(s.ops, id, copy) && SweepsInv(s.ops, copies)
    requires t == PutOp(s, id, copy.(status := Expired)).(pass := Sweeping(copies))
    ensures Inv(t)
  {
    assert OpInv(s.ops, id);
    assert forall x :: x in s.ops && x != id ==> ObjectInv(s.ops, s.objects, x);
    ChangeInv(s, t, id, t.ops[id]);
  }

  lemma RetainInv(s: State, db: DbId)
    requires Inv(s) && s.pass.Looping? && db in s.policies
    ensures Inv(s.(ops := Retained(s.ops, db, s.policies[db], s.rows, s.now)))
  {
    var t := s.(ops := Retained(s.ops, db, s.policies[db], s.rows, s.now));
    RetainedOps(s.ops, db, s.policies[db], s.rows, s.now, s.objects);
    EvolveInv(s, t);
  }

  lemma RetainedOps(ops: Ops, db: DbId, keep: nat, n: nat, now: int, objects: map<OpId, Digest>)
    requires OpsInv(ops, objects)
    ensures
      var after := Retained(ops, db, keep, n, now);
      && AllEvolve(ops, after) && KeepsSources(ops, after)
      && (forall id :: id in after ==> OpInv(after, id) && ObjectInv(after, objects, id))
      && (forall id :: id in after && ops[id].Active() ==> after[id] == ops[id])
  {
    var after := Retained(ops, db, keep, n, now);
    assert forall id :: id in ops ==> after[id].kind == ops[id].kind && after[id].database == ops[id].database;
    forall id | id in after
      ensures Evolves(ops[id], after[id]) && OpInv(after, id) && ObjectInv(after, objects, id)
      ensures ops[id].Active() ==> after[id] == ops[id]
    {
      assert OpInv(ops, id) && ObjectInv(ops, objects, id);
      assert id in Surplus(ops, db, keep, n) ==> id in Copies(ops, db, n);
    }
  }

  lemma AwaitedInv(s: State, e: Event)
    requires Inv(s)
    ensures Inv(AwaitedStep(s, e))
  {
    match e
    case FinishCleanUp => FinishCleanUpInv(s);
    case Complete(found) => CompleteInv(s, found);
    case DeleteObject(id) => SweepingInv(s, id);
    case FinishSweep => SweptInv(s);
    case Retain(db) => if s.pass.Looping? && db in s.policies { RetainInv(s, db); }
    case BeginPass => BeginPassInv(s);
    case Crash => PassOnly(s, Resting);
    case _ =>
  }

  lemma BeginPassInv(s: State)
    requires Inv(s)
    ensures Inv(AwaitedStep(s, BeginPass))
  {
    assert forall id :: id in s.ops ==> OpInv(s.ops, id);
    PassOnly(s, Looping(Work(s.ops)));
  }

  // ----- Databases -----

  lemma CreateInv(s: State, db: DbId, services: set<ServiceId>)
    requires Inv(s)
    ensures Inv(DatabaseStep(s, CreateDatabase(db, services)))
  {
    var t := DatabaseStep(s, CreateDatabase(db, services));
    if t == s { return; }
    assert forall r :: !IsTarget(s.ops, r, db);
    forall v | v in t.bindings
      ensures t.bindings[v] in t.databases && RestoreSucceeded(t.ops, t.databases[t.bindings[v]])
    {
      if v !in services { assert v in s.bindings; }
    }
    assert FillsInv(t.ops, t.databases);
  }

  lemma SettleInv(s: State, db: DbId, status: DbStatus)
    requires Inv(s)
    ensures Inv(DatabaseStep(s, Settle(db, status)))
  {}

  lemma AttachInv(s: State, service: ServiceId, db: DbId)
    requires Inv(s)
    ensures Inv(DatabaseStep(s, Attach(service, db)))
  {}

  lemma RemoveInv(s: State, db: DbId)
    requires Inv(s)
    ensures Inv(DatabaseStep(s, RemoveDatabase(db)))
  {}

  lemma FinishRemovalInv(s: State, db: DbId)
    requires Inv(s)
    ensures Inv(DatabaseStep(s, FinishRemoval(db)))
  {}

  lemma DatabaseInv(s: State, e: Event)
    requires Inv(s) && DatabaseEvent(e)
    ensures Inv(DatabaseStep(s, e))
  {
    match e
    case CreateDatabase(db, services) => CreateInv(s, db, services);
    case Settle(db, status) => SettleInv(s, db, status);
    case Attach(service, db) => AttachInv(s, service, db);
    case RemoveDatabase(db) => RemoveInv(s, db);
    case FinishRemoval(db) => FinishRemovalInv(s, db);
  }

  // ----- Every run -----

  lemma ApplyInv(s: State, e: Event)
    requires Inv(s)
    ensures Inv(Apply(s, e))
  {
    if e.Tick? {
    } else if UserEvent(e) { UserInv(s, e); }
    else if TransferEvent(e) { TransferInv(s, e); }
    else if LoopEvent(e) { if s.pass.Looping? { LoopInv(s, e); } }
    else if DatabaseEvent(e) { DatabaseInv(s, e); }
    else { AwaitedInv(s, e); }
  }

  lemma {:induction false} RunInv(s: State, events: seq<Event>)
    requires Inv(s)
    ensures Inv(Run(s, events))
    decreases |events|
  {
    if |events| > 0 {
      ApplyInv(s, events[0]);
      RunInv(Apply(s, events[0]), events[1..]);
    }
  }

  // ----- What backups promise -----

  /** In every run, an active restore reads a successful copy whose stored object is still there and
      is the one the restore expects. */
  lemma RestoresReadTheirSource(now: int, events: seq<Event>, id: OpId)
    requires
      var s := Run(Initial(now), events);
      id in s.ops && s.ops[id].kind.Restore? && s.ops[id].Active()
    ensures
      var s := Run(Initial(now), events);
      var source := s.ops[id].kind.source;
      && IsCopy(s.ops, source, s.ops[id].database)
      && s.ops[id].key == Some(source) && source in s.objects && s.ops[id].checksum == Some(s.objects[source])
  {
    RunInv(Initial(now), events);
    var s := Run(Initial(now), events);
    var source := s.ops[id].kind.source;
    assert OpInv(s.ops, id) && SourceInv(s.ops, id) && ObjectInv(s.ops, s.objects, source);
  }

  /** No step whatsoever removes or replaces the object of a successful copy. */
  lemma CopiesKeepTheirObject(s: State, e: Event, id: OpId, db: DbId)
    requires Inv(s) && IsCopy(s.ops, id, db)
    ensures id in s.objects && id in Apply(s, e).objects && Apply(s, e).objects[id] == s.objects[id]
  {
    assert ObjectInv(s.ops, s.objects, id);
    StepKeepsObject(s, e, id);
  }

  lemma StepKeepsObject(s: State, e: Event, id: OpId)
    requires PassInv(s.ops, s.pass) && id in s.ops && s.ops[id].status.Succeeded? && id in s.objects
    ensures id in Apply(s, e).objects && Apply(s, e).objects[id] == s.objects[id]
  {
    if e.Tick? {
    } else if UserEvent(e) {
      UserKeepsObjects(s, e);
    } else if TransferEvent(e) {
      TransferKeepsObject(s, e, id);
    } else if LoopEvent(e) {
      if s.pass.Looping? { LoopKeepsObject(s, e, id); }
    } else if DatabaseEvent(e) {
      DatabaseKeepsObjects(s, e);
    } else {
      AwaitedKeepsObject(s, e, id);
    }
  }

  lemma UserKeepsObjects(s: State, e: Event)
    ensures UserStep(s, e).objects == s.objects
  {}

  lemma DatabaseKeepsObjects(s: State, e: Event)
    ensures DatabaseStep(s, e).objects == s.objects
  {}

  lemma TransferKeepsObject(s: State, e: Event, id: OpId)
    requires id in s.objects
    ensures id in TransferStep(s, e).objects && TransferStep(s, e).objects[id] == s.objects[id]
  {}

  lemma LoopKeepsObject(s: State, e: Event, id: OpId)
    requires s.pass.Looping? && CopiesInv(s.ops, s.pass.copies) && id in s.ops && s.ops[id].status.Succeeded?
      && id in s.objects
    ensures id in LoopStep(s, e).objects && LoopStep(s, e).objects[id] == s.objects[id]
  {}

  lemma AwaitedKeepsObject(s: State, e: Event, id: OpId)
    requires s.pass.Sweeping? ==> SweepsInv(s.ops, s.pass.copies)
    requires id in s.ops && s.ops[id].status.Succeeded? && id in s.objects
    ensures id in AwaitedStep(s, e).objects && AwaitedStep(s, e).objects[id] == s.objects[id]
  {
    if e.DeleteObject? && s.pass.Sweeping? && e.id in s.pass.copies {
      assert SweepInv(s.ops, e.id, s.pass.copies[e.id]);
    }
  }

  /** At most one unfinished operation reads or fills a database. */
  lemma OneOperationPerDatabase(now: int, events: seq<Event>, a: OpId, b: OpId, db: DbId)
    requires
      var s := Run(Initial(now), events);
      Touches(s.ops, a, db) && Touches(s.ops, b, db) && s.ops[a].Active() && s.ops[b].Active()
    ensures a == b
  {
    RunInv(Initial(now), events);
    var s := Run(Initial(now), events);
    assert IsTarget(s.ops, b, s.ops[a].database) ==> s.ops[b].status.Succeeded?;
    assert IsTarget(s.ops, a, s.ops[b].database) ==> s.ops[a].status.Succeeded?;
    if s.ops[a].database == db {
      assert ActiveOn(s.ops, a, db) && ActiveOn(s.ops, b, db);
    }
  }

  /** No service is bound to a database whose restore has not succeeded, and every binding leads to a
      database that exists. */
  lemma BindingsWaitForRestore(now: int, events: seq<Event>)
    ensures
      var s := Run(Initial(now), events);
      forall v :: v in s.bindings ==>
        s.bindings[v] in s.databases && RestoreSucceeded(s.ops, s.databases[s.bindings[v]])
  {
    RunInv(Initial(now), events);
  }

  /** While a database is being removed, nothing reads or fills it and no copy of it can be restored. */
  lemma RemovalIsLocked(now: int, events: seq<Event>, db: DbId)
    requires
      var s := Run(Initial(now), events);
      db in s.databases && s.databases[db].status.Deleting?
    ensures Unworked(Run(Initial(now), events).ops, db)
  {
    RunInv(Initial(now), events);
  }

  lemma UserEvolves(s: State, e: Event, id: OpId)
    requires id in s.ops && OpInv(s.ops, id) && s.rows !in s.ops && UserEvent(e)
    ensures id in UserStep(s, e).ops && Evolves(s.ops[id], UserStep(s, e).ops[id])
  {}

  lemma OtherTransfers(s: State, e: Event, id: OpId)
    requires id in s.ops && TransferEvent(e) && !(e.FinishUpload? && e.upload in s.uploads && e.upload.id == id)
    ensures id in TransferStep(s, e).ops && TransferStep(s, e).ops[id] == s.ops[id]
  {}

  lemma TransferEvolves(s: State, e: Event, id: OpId)
    requires id in s.ops && OpInv(s.ops, id) && TransferEvent(e)
    requires forall u :: u in s.uploads && u.id == id ==> s.ops[id].kind.Backup? && !s.ops[id].status.Queued?
    ensures id in TransferStep(s, e).ops && Evolves(s.ops[id], TransferStep(s, e).ops[id])
  {
    if !(e.FinishUpload? && e.upload in s.uploads && e.upload.id == id) { OtherTransfers(s, e, id); }
  }

  lemma LoopEvolves(s: State, e: Event, id: OpId)
    requires id in s.ops && OpInv(s.ops, id) && s.pass.Looping? && LoopEvent(e)
    requires id in s.pass.copies ==> CopyInv(s.ops, id, s.pass.copies[id])
    ensures id in LoopStep(s, e).ops && Evolves(s.ops[id], LoopStep(s, e).ops[id])
  {}

  lemma RetainEvolves(s: State, db: DbId, id: OpId)
    requires id in s.ops && OpInv(s.ops, id)
    ensures id in AwaitedStep(s, Retain(db)).ops && Evolves(s.ops[id], AwaitedStep(s, Retain(db)).ops[id])
  {
    if s.pass.Looping? && db in s.policies {
      assert id in Surplus(s.ops, db, s.policies[db], s.rows) ==> id in Copies(s.ops, db, s.rows);
    }
  }

  lemma CompleteEvolves(s: State, found: bool, id: OpId)
    requires id in s.ops && OpInv(s.ops, id)
    requires s.pass.Heading? && s.pass.id == id ==>
      s.pass.copy.status.Running? && SameOp(s.pass.copy, s.ops[id]) && SameActive(s.pass.copy, s.ops[id])
    ensures id in AwaitedStep(s, Complete(found)).ops && Evolves(s.ops[id], AwaitedStep(s, Complete(found)).ops[id])
  {}

  lemma SweepEvolves(s: State, id: OpId)
    requires id in s.ops && OpInv(s.ops, id)
    requires s.pass.Swept? && s.pass.id == id ==> SweepInv(s.ops, id, s.pass.copy)
    ensures id in AwaitedStep(s, FinishSweep).ops && Evolves(s.ops[id], AwaitedStep(s, FinishSweep).ops[id])
  {}

  lemma CleanUpEvolves(s: State, id: OpId)
    requires id in s.ops && OpInv(s.ops, id)
    ensures id in AwaitedStep(s, FinishCleanUp).ops && Evolves(s.ops[id], AwaitedStep(s, FinishCleanUp).ops[id])
  {}

  lemma AwaitedEvolves(s: State, e: Event, id: OpId)
    requires id in s.ops && OpInv(s.ops, id) && PassInv(s.ops, s.pass)
    ensures id in AwaitedStep(s, e).ops && Evolves(s.ops[id], AwaitedStep(s, e).ops[id])
  {
    match e
    case Retain(db) => RetainEvolves(s, db, id);
    case Complete(found) => CompleteEvolves(s, found, id);
    case FinishSweep => SweepEvolves(s, id);
    case FinishCleanUp => CleanUpEvolves(s, id);
    case _ => OthersKeepOps(s, e);
  }

  lemma OthersKeepOps(s: State, e: Event)
    requires !e.Retain? && !e.Complete? && !e.FinishSweep? && !e.FinishCleanUp?
    ensures AwaitedStep(s, e).ops == s.ops
  {}

  /** Finished operations never wake up: a successful restore stays successful, a successful copy ends
      only by expiring, and what failed or expired can never be restored again. */
  lemma StepEvolves(s: State, e: Event, id: OpId)
    requires Inv(s) && id in s.ops
    ensures id in Apply(s, e).ops && Evolves(s.ops[id], Apply(s, e).ops[id])
  {
    assert OpInv(s.ops, id) && s.rows !in s.ops;
    if s.pass.Looping? && id in s.pass.copies { assert CopyInv(s.ops, id, s.pass.copies[id]); }
    ShapedEvolves(s, e, id);
  }

  lemma ShapedEvolves(s: State, e: Event, id: OpId)
    requires id in s.ops && OpInv(s.ops, id) && s.rows !in s.ops && PassInv(s.ops, s.pass)
    requires s.pass.Looping? && id in s.pass.copies ==> CopyInv(s.ops, id, s.pass.copies[id])
    requires forall u :: u in s.uploads && u.id == id ==> s.ops[id].kind.Backup? && !s.ops[id].status.Queued?
    ensures id in Apply(s, e).ops && Evolves(s.ops[id], Apply(s, e).ops[id])
  {
    if e.Tick? {
    } else if UserEvent(e) { UserEvolves(s, e, id); }
    else if TransferEvent(e) { TransferEvolves(s, e, id); }
    else if LoopEvent(e) { if s.pass.Looping? { LoopEvolves(s, e, id); } }
    else if !DatabaseEvent(e) { AwaitedEvolves(s, e, id); }
  }

  lemma {:induction false} EndsStay(s: State, events: seq<Event>, id: OpId)
    requires Inv(s) && id in s.ops && !s.ops[id].Active()
    ensures
      var t := Run(s, events);
      && id in t.ops && !t.ops[id].Active()
      && (s.ops[id].Dead() ==> t.ops[id].Dead())
      && (s.ops[id].kind.Restore? ==> t.ops[id].kind.Restore? && t.ops[id].status == s.ops[id].status)
    decreases |events|
  {
    if |events| > 0 {
      ApplyInv(s, events[0]);
      StepEvolves(s, events[0], id);
      assert OpInv(s.ops, id) && OpInv(Apply(s, events[0]).ops, id);
      EndsStay(Apply(s, events[0]), events[1..], id);
    }
  }

  /** A copy stops being restorable for one of two reasons: its owner deletes it, or retention finds
      that at least `keep` other copies rank above it. */
  lemma ExpiryHasACause(s: State, e: Event, id: OpId, db: DbId)
    requires Inv(s) && IsCopy(s.ops, id, db) && !IsCopy(Apply(s, e).ops, id, db)
    ensures
      && !InUse(s.ops, id)
      && (e == DeleteBackup(id, db)
          || (e == Retain(db) && db in s.policies && |Above(s.ops, db, id)| >= s.policies[db]))
  {
    StepEvolves(s, e, id);
    if UserEvent(e) {
      UserKeepsCopy(s, e, id, db);
    } else if TransferEvent(e) {
      TransferKeepsCopy(s, e, id, db);
    } else if LoopEvent(e) {
      if s.pass.Looping? { LoopKeepsCopy(s, e, id, db); }
    } else if e.Retain? && s.pass.Looping? && e.db in s.policies {
      RetainsOwnCopies(s, e.db, id, db);
      if e.db == db { RetentionIff(s.ops, db, s.policies[db], s.rows, s.now, id); }
    } else if !DatabaseEvent(e) {
      AwaitedKeepsCopy(s, e, id, db);
    }
  }

  lemma UserKeepsCopy(s: State, e: Event, id: OpId, db: DbId)
    requires IsCopy(s.ops, id, db) && s.rows !in s.ops && UserEvent(e)
    ensures IsCopy(UserStep(s, e).ops, id, db) || (e == DeleteBackup(id, db) && !InUse(s.ops, id))
  {}

  lemma TransferKeepsCopy(s: State, e: Event, id: OpId, db: DbId)
    requires IsCopy(s.ops, id, db) && TransferEvent(e)
    ensures IsCopy(TransferStep(s, e).ops, id, db)
  {}

  lemma LoopKeepsCopy(s: State, e: Event, id: OpId, db: DbId)
    requires Inv(s) && IsCopy(s.ops, id, db) && s.pass.Looping? && LoopEvent(e)
    ensures IsCopy(LoopStep(s, e).ops, id, db)
  {
    if id in s.pass.copies { assert CopyInv(s.ops, id, s.pass.copies[id]); }
    LoopKeepsFinished(s, e, id);
  }

  lemma LoopKeepsFinished(s: State, e: Event, id: OpId)
    requires s.pass.Looping? && LoopEvent(e) && id in s.ops && !s.ops[id].Active()
    requires id in s.pass.copies ==> CopyInv(s.ops, id, s.pass.copies[id])
    ensures id in LoopStep(s, e).ops && LoopStep(s, e).ops[id] == s.ops[id]
  {}

  /** Retention of one database leaves the copies of another alone. */
  lemma RetainsOwnCopies(s: State, db: DbId, id: OpId, other: DbId)
    requires IsCopy(s.ops, id, other) && s.pass.Looping? && db in s.policies
    ensures db != other ==> IsCopy(AwaitedStep(s, Retain(db)).ops, id, other)
  {
    assert id in Surplus(s.ops, db, s.policies[db], s.rows) ==> id in Copies(s.ops, db, s.rows);
  }

  lemma AwaitedKeepsCopy(s: State, e: Event, id: OpId, db: DbId)
    requires PassInv(s.ops, s.pass) && IsCopy(s.ops, id, db) && !e.Retain?
    ensures IsCopy(AwaitedStep(s, e).ops, id, db)
  {
    match e
    case Complete(found) => CompleteKeepsCopy(s, found, id, db);
    case FinishSweep => SweepKeepsCopy(s, id, db);
    case FinishCleanUp => CleanUpKeepsCopy(s, id, db);
    case _ => OthersKeepOps(s, e);
  }

  lemma CompleteKeepsCopy(s: State, found: bool, id: OpId, db: DbId)
    requires IsCopy(s.ops, id, db)
    requires s.pass.Heading? && s.pass.id == id ==> s.ops[id].Active()
    ensures IsCopy(AwaitedStep(s, Complete(found)).ops, id, db)
  {}

  lemma SweepKeepsCopy(s: State, id: OpId, db: DbId)
    requires IsCopy(s.ops, id, db)
    requires s.pass.Swept? && s.pass.id == id ==> s.ops[id].Dead()
    ensures IsCopy(AwaitedStep(s, FinishSweep).ops, id, db)
  {}

  lemma CleanUpKeepsCopy(s: State, id: OpId, db: DbId)
    requires IsCopy(s.ops, id, db)
    ensures IsCopy(AwaitedStep(s, FinishCleanUp).ops, id, db)
  {}

  // ----- The handlers, in place -----

  class BackupStore {
    var ops: Ops
    var rows: nat
    var databases: map<DbId, Database>

    constructor ()
      ensures ops == map[] && rows == 0 && databases == map[]
    {
      ops := map[];
      rows := 0;
      databases := map[];
    }

    /** `s` describes this store. */
    ghost predicate Describes(s: State)
      reads this
    {
      s.ops == ops && s.rows == rows && s.databases == databases
    }

    method IsBusy(db: DbId) returns (busy: bool)
      ensures busy <==> Busy(ops, db)
    {
      busy := exists id :: id in ops && ops[id].database == db && ops[id].Active();
      assert forall id :: id in ops && ops[id].database == db && ops[id].Active() ==> ActiveOn(ops, id, db);
      assert busy ==> Busy(ops, db);
      assert Busy(ops, db) ==> busy;
    }

    method Queue(db: DbId, now: int, ghost s: State) returns (accepted: bool)
      requires Describes(s) && s.now == now && db in databases
      modifies this
      ensures Describes(UserStep(s, QueueBackup(db)))
      ensures accepted <==> MayBackUp(s, db)
    {
      var d := databases[db];
      if d.restore.Some? && (d.restore.value !in ops || !ops[d.restore.value].status.Succeeded?) {
        return false;
      }
      if !d.status.Ready? {
        return false;
      }
      var busy := IsBusy(db);
      if busy {
        return false;
      }
      ops := ops[rows := Op(Backup, db, Queued, None, false, None, false, now, now)];
      rows := rows + 1;
      return true;
    }

    method RequestRestoreOf(source: OpId, db: DbId, target: DbId, now: int, ghost s: State) returns (accepted: bool)
      requires Describes(s) && s.now == now && Known(s, db) && target !in s.usedDatabases
      modifies this
      ensures Describes(UserStep(s, RequestRestore(source, db, target)))
      ensures accepted <==> MayRestore(s, source, db)
    {
      if source !in ops || ops[source].database != db || !ops[source].kind.Backup? || !ops[source].status.Succeeded? {
        return false;
      }
      var busy := IsBusy(db);
      if busy {
        return false;
      }
      var b := ops[source];
      ops := ops[rows := Op(Restore(source, target), db, Provisioning, b.key, false, b.checksum, false, now, now)];
      rows := rows + 1;
      return true;
    }

    method Delete(source: OpId, db: DbId, now: int, ghost s: State) returns (accepted: bool)
      requires Describes(s) && s.now == now && Known(s, db)
      modifies this
      ensures Describes(UserStep(s, DeleteBackup(source, db)))
      ensures accepted <==> MayDelete(s, source, db)
    {
      if source !in ops || ops[source].database != db || !ops[source].kind.Backup? || ops[source].Active() {
        return false;
      }
      var inUse := exists id :: id in ops && ops[id].kind.Restore? && ops[id].kind.source == source && ops[id].Active();
      assert forall id :: id in ops ==>
        (Restores(ops, id, source) <==> ops[id].kind.Restore? && ops[id].kind.source == source && ops[id].Active());
      assert inUse <==> InUse(ops, source);
      if inUse {
        return false;
      }
      ops := ops[source := ops[source].(status := Expiring, updated := now)];
      return true;
    }

    /** Retention of one database. */
    method Retain(db: DbId, keep: nat, now: int)
      modifies this`ops
      ensures ops == Retained(old(ops), db, keep, rows, now)
    {
      var copies := Copies(ops, db, rows);
      CopiesByAge(ops, db, rows);
      var surplus := if keep <= |copies| then copies[keep..] else [];
      SurplusCopies(ops, db, keep, rows);
      assert forall i :: 0 <= i < |surplus| ==> IsCopy(ops, surplus[i], db);
      ExpireAll(surplus, now);
    }

    /** The loop over the copies past the newest ones. */
    method ExpireAll(ids: seq<OpId>, now: int)
      requires forall i :: 0 <= i < |ids| ==> ids[i] in ops && !ops[ids[i]].Active()
      requires forall i, j :: 0 <= i < j < |ids| ==> ids[i] != ids[j]
      modifies this`ops
      ensures ops == ExpireUnused(old(ops), ids, now)
    {
      ghost var before := ops;
      var i := 0;
      while i < |ids|
        invariant 0 <= i <= |ids|
        invariant ops == ExpireUnused(before, ids[..i], now)
      {
        var id := ids[i];
        assert ids[..i + 1] == ids[..i] + [id];
        ExpireOneMore(before, ids[..i], id, now);
        if !InUse(ops, id) {
          ops := ops[id := Expire(ops[id], now)];
        }
        i := i + 1;
      }
      assert ids[..i] == ids;
    }
  }

  lemma SurplusCopies(ops: Ops, db: DbId, keep: nat, n: nat)
    ensures
      var ids := Surplus(ops, db, keep, n);
      && (forall i :: 0 <= i < |ids| ==> IsCopy(ops, ids[i], db))
      && (forall i, j :: 0 <= i < j < |ids| ==> ids[i] != ids[j])
  {
    var copies := Copies(ops, db, n);
    CopiesByAge(ops, db, n);
    assert forall i :: 0 <= i < |copies| ==> copies[i] in copies;
  }

  lemma ExpireOneMore(ops: Ops, ids: seq<OpId>, id: OpId, now: int)
    requires id in ops && id !in ids && !ops[id].Active()
    requires forall x :: x in ids && x in ops ==> !ops[x].Active()
    ensures
      var t := ExpireUnused(ops, ids, now);
      && id in t
      && ExpireUnused(ops, ids + [id], now) == if InUse(t, id) then t else t[id := Expire(t[id], now)]
  {
    SameUse(ops, ExpireUnused(ops, ids, now), id);
  }

  /** Expiring copies does not change which copies are read by restores. */
  lemma SameUse(before: Ops, after: Ops, id: OpId)
    requires after.Keys == before.Keys
    requires forall x :: x in before ==>
      after[x] == before[x] || (after[x].kind == before[x].kind && !after[x].Active() && !before[x].Active())
    ensures InUse(after, id) == InUse(before, id)
  {}
}
