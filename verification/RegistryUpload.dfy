/**
  The resumable blob upload of the image registry: one upload document owned by a
  durable object, an object store shared by every request, and any number of requests
  in flight.  A request is interrupted at every await: between two of its actions any
  other request, the expiry alarm or a crash may act.
 */
module RegistryUpload {
  import opened Common

  type OperationId = nat
  type Digest = string
  type Hash = Bytes -> Digest

  const LEASE_MS := 120000
  const UPLOAD_TTL_MS := 86400000
  const MAX_CHUNK := 100 * 1024 * 1024
  const MAX_BLOB := 5 * 1024 * 1024 * 1024
  const MAX_CHUNKS := 512

  // ----- The upload document and its transactions -----

  datatype Chunk = Chunk(part: OperationId, size: nat)

  datatype Lease = Lease(id: OperationId, expires: int)

  datatype Upload = Upload(
    chunks: seq<Chunk>,
    size: nat,
    updated: int,
    operation: Option<Lease>,
    completed: Option<Digest>,
    cancelled: bool)
  {
    predicate Open() {
      completed.None? && !cancelled
    }

    /** The time before which the alarm leaves the upload alone. */
    function Expiry(): int {
      var idle := updated + UPLOAD_TTL_MS;
      if operation.Some? && operation.value.expires > idle then operation.value.expires else idle
    }
  }

  datatype Verb = Patch | Put(expected: Digest) | Delete

  /** `offset` is the start of Content-Range when the client sent one. */
  datatype Request = Request(verb: Verb, length: nat, offset: Option<nat>)

  /** What a request changes in the document while it owns the lease. */
  datatype Change = Keep | Push(length: nat) | Finish(digest: Digest) | Abandon

  predicate Closed(doc: Option<Upload>) {
    doc.None? || !doc.value.Open()
  }

  predicate Owns(doc: Option<Upload>, id: OperationId) {
    !Closed(doc) && doc.value.operation.Some? && doc.value.operation.value.id == id
  }

  function Admit(doc: Option<Upload>, id: OperationId, request: Request, now: int): Result<Upload> {
    if Closed(doc) then Fail(409)
    else if doc.value.operation.Some? && doc.value.operation.value.expires > now then Fail(409)
    else if request.offset.Some? && request.offset.value != doc.value.size then Fail(416)
    else if doc.value.size + request.length > MAX_BLOB || |doc.value.chunks| >= MAX_CHUNKS then Fail(413)
    else Ok(doc.value.(operation := Some(Lease(id, now + LEASE_MS)), updated := now))
  }

  function Changed(u: Upload, id: OperationId, change: Change): Upload {
    match change
    case Keep => u
    case Push(length) => u.(chunks := u.chunks + [Chunk(id, length)], size := u.size + length)
    case Finish(digest) => u.(completed := Some(digest), operation := None)
    case Abandon => u.(cancelled := true, operation := None)
  }

  function UpdateOwned(doc: Option<Upload>, id: OperationId, change: Change, now: int): Result<Upload> {
    if !Owns(doc, id) then Fail(409)
    else
      var u := Changed(doc.value, id, change);
      Ok(u.(updated := now,
            operation := if u.operation.Some? then Some(u.operation.value.(expires := now + LEASE_MS)) else None))
  }

  /** The last transaction of every request: give the lease back, if it is still ours. */
  function ReleaseLease(doc: Option<Upload>, id: OperationId, now: int): Option<Upload> {
    if doc.Some? && doc.value.operation.Some? && doc.value.operation.value.id == id
    then Some(doc.value.(operation := None, updated := now))
    else doc
  }

  function Expire(doc: Option<Upload>, now: int): Option<Upload> {
    if doc.Some? && doc.value.Expiry() <= now
    then Some(doc.value.(cancelled := true, operation := None))
    else doc
  }

  /** The durable object itself: the same transactions, changing the stored document in place. */
  class UploadObject {
    var upload: Option<Upload>

    constructor (now: int)
      ensures upload == Some(Upload([], 0, now, None, None, false))
    {
      upload := Some(Upload([], 0, now, None, None, false));
    }

    method Begin(id: OperationId, request: Request, now: int) returns (status: nat)
      modifies this
      ensures status == 0 <==> Admit(old(upload), id, request, now).Ok?
      ensures status == 0 ==> upload == Some(Admit(old(upload), id, request, now).value)
      ensures status != 0 ==> unchanged(this) && Admit(old(upload), id, request, now) == Fail(status)
    {
      if upload.None? || upload.value.completed.Some? || upload.value.cancelled {
        return 409;
      }
      var current := upload.value;
      if current.operation.Some? && current.operation.value.expires > now {
        return 409;
      }
      if request.offset.Some? && request.offset.value != current.size {
        return 416;
      }
      if current.size + request.length > MAX_BLOB || |current.chunks| >= MAX_CHUNKS {
        return 413;
      }
      current := current.(operation := Some(Lease(id, now + LEASE_MS)));
      current := current.(updated := now);
      upload := Some(current);
      return 0;
    }

    method Update(id: OperationId, change: Change, now: int) returns (status: nat)
      modifies this
      ensures status == 0 <==> UpdateOwned(old(upload), id, change, now).Ok?
      ensures status == 0 ==> upload == Some(UpdateOwned(old(upload), id, change, now).value)
      ensures status != 0 ==> unchanged(this) && UpdateOwned(old(upload), id, change, now) == Fail(status)
    {
      if upload.None? || upload.value.operation.None? || upload.value.operation.value.id != id
        || upload.value.cancelled || upload.value.completed.Some?
      {
        return 409;
      }
      var current := upload.value;
      match change {
        case Keep =>
        case Push(length) =>
          current := current.(chunks := current.chunks + [Chunk(id, length)]);
          current := current.(size := current.size + length);
        case Finish(digest) =>
          current := current.(completed := Some(digest));
          current := current.(operation := None);
        case Abandon =>
          current := current.(cancelled := true);
          current := current.(operation := None);
      }
      current := current.(updated := now);
      if current.operation.Some? {
        current := current.(operation := Some(current.operation.value.(expires := now + LEASE_MS)));
      }
      upload := Some(current);
      return 0;
    }

    method Release(id: OperationId, now: int)
      modifies this
      ensures upload == ReleaseLease(old(upload), id, now)
    {
      if upload.Some? && upload.value.operation.Some? && upload.value.operation.value.id == id {
        upload := Some(upload.value.(operation := None, updated := now));
      }
    }

    method ExpireIfDue(now: int) returns (due: bool)
      modifies this
      ensures upload == Expire(old(upload), now)
      ensures due <==> old(upload).Some? && old(upload).value.Expiry() <= now
    {
      due := false;
      if upload.Some? && upload.value.Expiry() <= now {
        upload := Some(upload.value.(cancelled := true, operation := None));
        due := true;
      }
    }
  }

  // ----- Object store -----

  /** Keys below one workspace; the first two kinds live below this upload's prefix. */
  datatype Key = Part(id: OperationId) | Assembled(id: OperationId) | Blob(digest: Digest)

  type Objects = map<Key, Bytes>

  predicate IsPage(page: set<Key>, objects: Objects) {
    page <= objects.Keys && forall k :: k in page ==> !k.Blob?
  }

  /** The bytes the chunks of an upload stand for, or None where a part is missing or damaged. */
  function Assembly(chunks: seq<Chunk>, objects: Objects): Option<Bytes> {
    if |chunks| == 0 then Some([])
    else
      var last := chunks[|chunks| - 1];
      var front := Assembly(chunks[..|chunks| - 1], objects);
      if front.Some? && Part(last.part) in objects && |objects[Part(last.part)]| == last.size
      then Some(front.value + objects[Part(last.part)])
      else None
  }

  /** The assembly loop of a PUT, with nothing interfering. */
  method Assemble(chunks: seq<Chunk>, objects: Objects) returns (data: Option<Bytes>)
    ensures data == Assembly(chunks, objects)
  {
    var bytes: Bytes := [];
    var i := 0;
    while i < |chunks|
      invariant 0 <= i <= |chunks|
      invariant Assembly(chunks[..i], objects) == Some(bytes)
    {
      assert chunks[..i + 1][..i] == chunks[..i];
      if Part(chunks[i].part) !in objects || |objects[Part(chunks[i].part)]| != chunks[i].size {
        MissingPart(chunks, i + 1, objects);
        return None;
      }
      bytes := bytes + objects[Part(chunks[i].part)];
      i := i + 1;
    }
    assert chunks[..i] == chunks;
    data := Some(bytes);
  }

  lemma {:induction false} MissingPart(chunks: seq<Chunk>, n: nat, objects: Objects)
    requires n <= |chunks| && Assembly(chunks[..n], objects).None?
    ensures Assembly(chunks, objects).None?
    decreases |chunks|
  {
    if n < |chunks| {
      assert chunks[..|chunks| - 1][..n] == chunks[..n];
      MissingPart(chunks[..|chunks| - 1], n, objects);
    } else {
      assert chunks[..n] == chunks;
    }
  }

  /** Deletes every object of this upload, one listed page at a time, and nothing else. */
  method RemovePrefix(objects: Objects, limit: nat) returns (rest: Objects)
    requires limit > 0
    ensures rest == map k | k in objects && k.Blob? :: objects[k]
  {
    rest := objects;
    var more := true;
    while more
      invariant rest.Keys <= objects.Keys
      invariant forall k :: k in rest ==> rest[k] == objects[k]
      invariant forall k :: k in objects && k.Blob? ==> k in rest
      invariant !more ==> forall k :: k in rest ==> k.Blob?
      decreases |rest|, more
    {
      var candidates := set k | k in rest && !k.Blob?;
      if candidates == {} {
        assert forall k :: k in rest && !k.Blob? ==> k in candidates;
        more := false;
      } else {
        // One page: at least one listed key, at most `limit`.
        var page := TakePage(candidates, limit);
        var before := rest;
        rest := rest - page;
        assert rest.Keys == before.Keys - page;
        var k :| k in page;
        assert k in before.Keys && k !in rest.Keys;
        SubsetSize(rest.Keys, before.Keys);
        assert |rest| == |rest.Keys| && |before| == |before.Keys|;
      }
    }
  }

  method TakePage(keys: set<Key>, limit: nat) returns (page: set<Key>)
    requires keys != {} && limit > 0
    ensures page != {} && page <= keys && |page| <= limit
    ensures |page| == limit || page == keys
  {
    page := {};
    while |page| < limit && page != keys
      invariant page <= keys && |page| <= limit
      decreases limit - |page|
    {
      var k :| k in keys && k !in page;
      page := page + {k};
    }
  }

  // ----- Requests in flight -----

  /** Where a request stands between two awaits. */
  datatype Phase =
    | Receiving                            // admitted; its body has not been stored yet
    | Stored(body: Bytes)                  // the part object was acknowledged
    | Assembling(next: nat, data: Bytes)   // chunks before `next` have been read and hashed
    | Fetching(next: nat, data: Bytes)     // lease renewed, chunk `next` is being read
    | Written(data: Bytes)                 // the assembled object was acknowledged
    | Verified(data: Bytes)                // the digest matched and the lease was renewed
    | Publishing(bytes: Bytes)             // the assembled object was read back
    | Published
    | Removing(listed: set<Key>)           // this request closed the upload and removes its parts
    | DroppingTemp | DroppingPart | Releasing  // the finally block

  /** `chunks` and `size` are the request's own copy of the document; `base` is the size it was
      admitted at.  A crashed request is not alive: its one pending store call may still land. */
  datatype Operation = Operation(
    request: Request,
    base: nat,
    chunks: seq<Chunk>,
    size: nat,
    phase: Phase,
    partCommitted: bool,
    alive: bool)

  /** One committed chunk: who stored it, and its bytes. */
  datatype Entry = Entry(part: OperationId, body: Bytes)

  datatype Alarm = Quiet | Purging(listed: set<Key>)

  /** `used` and `committed` are history: every operation id ever issued, and the bytes of every
      chunk ever committed, in order.  They outlive the document. */
  datatype State = State(
    now: int,
    upload: Option<Upload>,
    objects: Objects,
    ops: map<OperationId, Operation>,
    alarm: Alarm,
    used: set<OperationId>,
    committed: seq<Entry>)

  function Contents(log: seq<Entry>): Bytes {
    if |log| == 0 then [] else Contents(log[..|log| - 1]) + log[|log| - 1].body
  }

  function ChunksOf(log: seq<Entry>): (chunks: seq<Chunk>)
    ensures |chunks| == |log|
  {
    seq(|log|, i requires 0 <= i < |log| => Chunk(log[i].part, |log[i].body|))
  }

  function Initial(now: int, objects: Objects): State {
    State(now, Some(Upload([], 0, now, None, None, false)), objects, map[], Quiet, {}, [])
  }

  datatype Action =
    | Renew | Cancel | SkipBody | StorePart(body: Bytes) | Commit
    | RenewChunk | ReadChunk | StoreTemp | Verify | FetchTemp | PutBlob | Complete
    | ListPage(page: set<Key>) | DeletePage | EndRemoval
    | Throw | DropTemp | DropPart | Release | Crash

  datatype Event =
    | Tick(ms: nat)
    | OtherUpload(bytes: Bytes)
    | Arrive(id: OperationId, request: Request)
    | Act(id: OperationId, action: Action)
    | AlarmExpire | AlarmList(page: set<Key>) | AlarmDelete | AlarmFinish | AlarmCrash

  function Goto(s: State, id: OperationId, o: Operation, phase: Phase): State {
    s.(ops := s.ops[id := o.(phase := phase)])
  }

  /** A store call takes effect; a crashed request stops there, a live one goes on. */
  function Land(s: State, id: OperationId, o: Operation, objects: Objects, phase: Phase): State {
    s.(objects := objects,
       ops := if o.alive then s.ops[id := o.(phase := phase)] else s.ops - {id})
  }

  /** A transaction of updateOwned: `after` is where the request goes on success; a request that
      lost its lease throws into the finally block. */
  function Transact(s: State, id: OperationId, o: Operation, change: Change, after: Phase): State {
    match UpdateOwned(s.upload, id, change, s.now)
    case Ok(u) =>
      s.(upload := Some(u), ops := s.ops[id := o.(chunks := u.chunks, size := u.size, phase := after)])
    case Fail(_) => Goto(s, id, o, DroppingTemp)
  }

  function AfterBody(request: Request): Phase {
    if request.verb.Put? then Assembling(0, []) else DroppingTemp
  }

  function CommitPart(s: State, id: OperationId, o: Operation): State
    requires o.phase.Stored?
  {
    if Owns(s.upload, id)
    then Transact(s, id, o.(partCommitted := true), Push(o.request.length), AfterBody(o.request))
         .(committed := s.committed + [Entry(id, o.phase.body)])
    else Goto(s, id, o, DroppingTemp)
  }

  function ReadNext(s: State, id: OperationId, o: Operation): State
    requires o.phase.Fetching? && o.phase.next < |o.chunks|
  {
    var chunk := o.chunks[o.phase.next];
    if Part(chunk.part) in s.objects && |s.objects[Part(chunk.part)]| == chunk.size
    then Goto(s, id, o, Assembling(o.phase.next + 1, o.phase.data + s.objects[Part(chunk.part)]))
    else Goto(s, id, o, DroppingTemp)
  }

  /** One action of a request, or no change where the request is not ready for it. */
  function Perform(s: State, id: OperationId, o: Operation, action: Action, hash: Hash): State
    requires id in s.ops && s.ops[id] == o
  {
    match action
    // Store calls: also the last act of a crashed request.
    case StorePart(body) =>
      if o.phase.Receiving? && o.request.length > 0 && |body| == o.request.length && !o.request.verb.Delete?
      then Land(s, id, o, s.objects[Part(id) := body], Stored(body)) else s
    case StoreTemp =>
      if o.phase.Assembling? && o.phase.next == |o.chunks| && |o.phase.data| == o.size
      then Land(s, id, o, s.objects[Assembled(id) := o.phase.data], Written(o.phase.data)) else s
    case PutBlob =>
      if o.phase.Publishing? && o.request.verb.Put?
      then Land(s, id, o, s.objects[Blob(o.request.verb.expected) := o.phase.bytes], Published) else s
    case DeletePage =>
      if o.phase.Removing? then Land(s, id, o, s.objects - o.phase.listed, Removing({})) else s
    case DropTemp =>
      if o.phase.DroppingTemp? then Land(s, id, o, s.objects - {Assembled(id)}, DroppingPart) else s
    case DropPart =>
      if o.phase.DroppingPart?
      then Land(s, id, o, if o.partCommitted then s.objects else s.objects - {Part(id)}, Releasing) else s
    case _ =>
      if o.alive then PerformAlive(s, id, o, action, hash) else s
  }

  function PerformAlive(s: State, id: OperationId, o: Operation, action: Action, hash: Hash): State
    requires id in s.ops && s.ops[id] == o
  {
    match action
    case Renew =>
      if o.phase.Receiving? || o.phase.Fetching? then Transact(s, id, o, Keep, o.phase) else s
    case Cancel =>
      if o.phase.Receiving? && o.request.verb.Delete? then Transact(s, id, o, Abandon, Removing({})) else s
    case SkipBody =>
      if o.phase.Receiving? && o.request.length == 0 && !o.request.verb.Delete?
      then Goto(s, id, o, AfterBody(o.request)) else s
    case Commit => if o.phase.Stored? then CommitPart(s, id, o) else s
    case RenewChunk =>
      if o.phase.Assembling? && o.phase.next < |o.chunks|
      then Transact(s, id, o, Keep, Fetching(o.phase.next, o.phase.data)) else s
    case ReadChunk => if o.phase.Fetching? && o.phase.next < |o.chunks| then ReadNext(s, id, o) else s
    case Verify =>
      if o.phase.Written? && o.request.verb.Put?
      then if hash(o.phase.data) == o.request.verb.expected
           then Transact(s, id, o, Keep, Verified(o.phase.data))
           else Goto(s, id, o, DroppingTemp)
      else s
    case FetchTemp =>
      if o.phase.Verified?
      then Goto(s, id, o, if Assembled(id) in s.objects then Publishing(s.objects[Assembled(id)]) else DroppingTemp)
      else s
    case Complete =>
      if o.phase.Published? && o.request.verb.Put?
      then Transact(s, id, o, Finish(o.request.verb.expected), Removing({})) else s
    case ListPage(page) =>
      if o.phase.Removing? && IsPage(page, s.objects) then Goto(s, id, o, Removing(page)) else s
    case EndRemoval => if o.phase.Removing? then Goto(s, id, o, DroppingTemp) else s
    case Throw =>
      if o.phase.DroppingPart? || o.phase.Releasing? then s else Goto(s, id, o, DroppingTemp)
    case Release =>
      if o.phase.Releasing?
      then s.(upload := ReleaseLease(s.upload, id, s.now), ops := s.ops - {id}) else s
    case Crash => s.(ops := s.ops[id := o.(alive := false)])
    case _ => s
  }

  function Apply(s: State, e: Event, hash: Hash): State {
    match e
    case Tick(ms) => s.(now := s.now + ms)
    case OtherUpload(bytes) => s.(objects := s.objects[Blob(hash(bytes)) := bytes])
    case Arrive(id, request) =>
      if id in s.used || request.length > MAX_CHUNK then s
      else
        (match Admit(s.upload, id, request, s.now)
         case Ok(u) =>
           s.(upload := Some(u), used := s.used + {id},
              ops := s.ops[id := Operation(request, u.size, u.chunks, u.size, Receiving, false, true)])
         case Fail(_) => s)
    case Act(id, action) => if id in s.ops then Perform(s, id, s.ops[id], action, hash) else s
    case AlarmExpire =>
      if s.alarm.Quiet? && s.upload.Some? && s.upload.value.Expiry() <= s.now
      then s.(upload := Expire(s.upload, s.now), alarm := Purging({})) else s
    case AlarmList(page) =>
      if s.alarm.Purging? && IsPage(page, s.objects) then s.(alarm := Purging(page)) else s
    case AlarmDelete =>
      if s.alarm.Purging? then s.(objects := s.objects - s.alarm.listed, alarm := Purging({})) else s
    case AlarmFinish => if s.alarm.Purging? then s.(upload := None, alarm := Quiet) else s
    case AlarmCrash => s.(alarm := Quiet)
  }

  function Run(s: State, events: seq<Event>, hash: Hash): State
    decreases |events|
  {
    if |events| == 0 then s else Run(Apply(s, events[0], hash), events[1..], hash)
  }

  // ----- Invariant -----

  ghost predicate LogInv(s: State) {
    && (forall i :: 0 <= i < |s.committed| ==> s.committed[i].part in s.used)
    && (forall i, j :: 0 <= i < j < |s.committed| ==> s.committed[i].part != s.committed[j].part)
    && (s.upload.Some? ==>
          && s.upload.value.chunks == ChunksOf(s.committed)
          && s.upload.value.size == |Contents(s.committed)| <= MAX_BLOB
          && |s.upload.value.chunks| <= MAX_CHUNKS
          && (s.upload.value.operation.Some? ==>
                s.upload.value.operation.value.id in s.used && s.upload.value.Open()))
  }

  ghost predicate PartsInv(s: State) {
    forall i :: 0 <= i < |s.committed| ==>
      && (!Closed(s.upload) ==> Part(s.committed[i].part) in s.objects)
      && (Part(s.committed[i].part) in s.objects ==> s.objects[Part(s.committed[i].part)] == s.committed[i].body)
  }

  ghost predicate StoreInv(s: State, hash: Hash) {
    && (forall d :: Blob(d) in s.objects ==> hash(s.objects[Blob(d)]) == d)
    && (s.upload.Some? && s.upload.value.completed.Some? ==>
          var d := s.upload.value.completed.value;
          Blob(d) in s.objects && hash(Contents(s.committed)) == d)
  }

  ghost predicate AlarmInv(s: State) {
    s.alarm.Purging? ==> Closed(s.upload) && forall k :: k in s.alarm.listed ==> !k.Blob?
  }

  predicate WithinLimits(o: Operation) {
    o.base == o.size && o.size + o.request.length <= MAX_BLOB && |o.chunks| < MAX_CHUNKS && !o.partCommitted
  }

  ghost predicate PhaseInv(s: State, id: OperationId, o: Operation, hash: Hash)
    requires |o.chunks| <= |s.committed|
  {
    var seen := Contents(s.committed[..|o.chunks|]);
    match o.phase
    case Receiving => WithinLimits(o)
    case Stored(body) =>
      && WithinLimits(o) && |body| == o.request.length
      && (Owns(s.upload, id) ==> Part(id) in s.objects && s.objects[Part(id)] == body)
    case Assembling(next, data) => next <= |o.chunks| && data == Contents(s.committed[..next])
    case Fetching(next, data) => next < |o.chunks| && data == Contents(s.committed[..next])
    case Written(data) => data == seen && (Assembled(id) in s.objects ==> s.objects[Assembled(id)] == data)
    case Verified(data) =>
      && data == seen && o.request.verb.Put? && hash(data) == o.request.verb.expected
      && (Assembled(id) in s.objects ==> s.objects[Assembled(id)] == data)
    case Publishing(bytes) => bytes == seen && o.request.verb.Put? && hash(bytes) == o.request.verb.expected
    case Published =>
      o.request.verb.Put? && hash(seen) == o.request.verb.expected && Blob(o.request.verb.expected) in s.objects
    case Removing(listed) => Closed(s.upload) && forall k :: k in listed ==> !k.Blob?
    case _ => true
  }

  /** A request's copy of the document is a prefix of the log, and all of it while it owns the lease. */
  ghost predicate OpInv(s: State, id: OperationId, o: Operation, hash: Hash) {
    && id in s.used
    && |o.chunks| <= |s.committed|
    && o.chunks == ChunksOf(s.committed[..|o.chunks|])
    && o.size == |Contents(s.committed[..|o.chunks|])|
    && (o.request.offset.Some? ==> o.request.offset.value == o.base)
    && (Owns(s.upload, id) ==> |o.chunks| == |s.committed|)
    && (!o.partCommitted ==> forall i :: 0 <= i < |s.committed| ==> s.committed[i].part != id)
    && PhaseInv(s, id, o, hash)
  }

  ghost predicate OpsInv(s: State, hash: Hash) {
    forall id :: id in s.ops ==> OpInv(s, id, s.ops[id], hash)
  }

  ghost predicate Inv(s: State, hash: Hash) {
    LogInv(s) && PartsInv(s) && StoreInv(s, hash) && AlarmInv(s) && OpsInv(s, hash)
  }

  lemma InitialInv(now: int, objects: Objects, hash: Hash)
    requires forall k :: k in objects ==> k.Blob? && hash(objects[k]) == k.digest
    ensures Inv(Initial(now, objects), hash)
  {
    assert ChunksOf([]) == [];
  }

  // ----- What one step leaves alone -----

  /** What a step owes to a request it is not about. */
  ghost predicate Undisturbed(s: State, t: State, id: OperationId) {
    && s.used <= t.used
    && s.committed <= t.committed
    && (forall i :: |s.committed| <= i < |t.committed| ==> t.committed[i].part != id)
    && (Owns(t.upload, id) ==> Owns(s.upload, id) && s.committed == t.committed)
    && (Closed(s.upload) ==> Closed(t.upload))
    && (forall d :: Blob(d) in s.objects ==> Blob(d) in t.objects)
    && (Assembled(id) in t.objects ==>
          Assembled(id) in s.objects && t.objects[Assembled(id)] == s.objects[Assembled(id)])
    && (Owns(t.upload, id) && Part(id) in s.objects ==>
          Part(id) in t.objects && t.objects[Part(id)] == s.objects[Part(id)])
  }

  lemma UndisturbedOp(s: State, t: State, id: OperationId, o: Operation, hash: Hash)
    requires OpInv(s, id, o, hash) && Undisturbed(s, t, id)
    ensures OpInv(t, id, o, hash)
  {
    forall n | 0 <= n <= |s.committed|
      ensures t.committed[..n] == s.committed[..n]
    {
      assert t.committed[..n] == t.committed[..|s.committed|][..n];
    }
    assert t.committed[..|o.chunks|] == s.committed[..|o.chunks|];
  }

  /** Steps that leave the document, the objects and the log alone, and move one request. */
  lemma MoveOnly(s: State, id: OperationId, o: Operation, hash: Hash)
    requires Inv(s, hash) && OpInv(s, id, o, hash)
    ensures Inv(s.(ops := s.ops[id := o]), hash)
  {
    var t := s.(ops := s.ops[id := o]);
    forall k | k in t.ops
      ensures OpInv(t, k, t.ops[k], hash)
    {
      UndisturbedOp(s, t, k, t.ops[k], hash);
    }
  }

  // ----- Every step keeps the invariant -----

  lemma OwnerSeesWholeLog(s: State, id: OperationId, o: Operation, hash: Hash)
    requires Inv(s, hash) && OpInv(s, id, o, hash) && Owns(s.upload, id)
    ensures o.chunks == s.upload.value.chunks && o.size == s.upload.value.size
    ensures s.committed[..|o.chunks|] == s.committed
  {
    assert s.committed[..|s.committed|] == s.committed;
  }

  lemma GotoInv(s: State, id: OperationId, o: Operation, phase: Phase, hash: Hash)
    requires Inv(s, hash) && OpInv(s, id, o.(phase := phase), hash)
    ensures Inv(Goto(s, id, o, phase), hash)
  {
    MoveOnly(s, id, o.(phase := phase), hash);
  }

  /** A renewal of the lease, and the step it permits. */
  lemma KeepInv(s: State, id: OperationId, o: Operation, after: Phase, hash: Hash)
    requires Inv(s, hash) && OpInv(s, id, o.(phase := after), hash) && OpInv(s, id, o, hash)
    ensures Inv(Transact(s, id, o, Keep, after), hash)
  {
    if Owns(s.upload, id) {
      OwnerSeesWholeLog(s, id, o, hash);
      var t := s.(upload := Some(UpdateOwned(s.upload, id, Keep, s.now).value));
      forall k | k in t.ops || k == id
        ensures k in t.ops ==> OpInv(t, k, t.ops[k], hash)
        ensures OpInv(t, id, o.(phase := after), hash)
      {
        if k in t.ops { UndisturbedOp(s, t, k, t.ops[k], hash); }
        UndisturbedOp(s, t, id, o.(phase := after), hash);
      }
      MoveOnly(t, id, o.(phase := after), hash);
    } else {
      GotoInv(s, id, o, DroppingTemp, hash);
    }
  }

  /** Completion and cancellation close the upload; the log stays as it is. */
  lemma CloseInv(s: State, id: OperationId, o: Operation, change: Change, hash: Hash)
    requires Inv(s, hash) && OpInv(s, id, o, hash)
    requires change == Abandon || (change.Finish? && o.phase.Published? && o.request.verb == Put(change.digest))
    ensures Inv(Transact(s, id, o, change, Removing({})), hash)
  {
    if Owns(s.upload, id) {
      OwnerSeesWholeLog(s, id, o, hash);
      ClosedInv(s, id, change, hash);
      var t := s.(upload := Some(UpdateOwned(s.upload, id, change, s.now).value));
      UndisturbedOp(s, t, id, o.(phase := Releasing), hash);
      MoveOnly(t, id, o.(phase := Removing({})), hash);
    } else {
      GotoInv(s, id, o, DroppingTemp, hash);
    }
  }

  lemma ClosedInv(s: State, id: OperationId, change: Change, hash: Hash)
    requires Inv(s, hash) && Owns(s.upload, id)
    requires change == Abandon
      || (change.Finish? && Blob(change.digest) in s.objects && hash(Contents(s.committed)) == change.digest)
    ensures Inv(s.(upload := Some(UpdateOwned(s.upload, id, change, s.now).value)), hash)
  {
    BackgroundOps(s, s.(upload := Some(UpdateOwned(s.upload, id, change, s.now).value)), hash);
  }

  lemma ChunksOfExtended(log: seq<Entry>, e: Entry)
    ensures ChunksOf(log + [e]) == ChunksOf(log) + [Chunk(e.part, |e.body|)]
    ensures Contents(log + [e]) == Contents(log) + e.body
  {
    assert (log + [e])[..|log|] == log;
  }

  lemma CommitInv(s: State, id: OperationId, o: Operation, hash: Hash)
    requires Inv(s, hash) && OpInv(s, id, o, hash) && o.phase.Stored?
    ensures Inv(CommitPart(s, id, o), hash)
  {
    if Owns(s.upload, id) {
      OwnerSeesWholeLog(s, id, o, hash);
      var e := Entry(id, o.phase.body);
      var u := UpdateOwned(s.upload, id, Push(o.request.length), s.now).value;
      var t := s.(upload := Some(u), committed := s.committed + [e]);
      var mine := o.(partCommitted := true, chunks := u.chunks, size := u.size, phase := AfterBody(o.request));
      ChunksOfExtended(s.committed, e);
      assert t.committed[..|t.committed|] == t.committed;
      assert t.committed[..0] == [];
      forall k | k in t.ops && k != id
        ensures OpInv(t, k, t.ops[k], hash)
      {
        UndisturbedOp(s, t, k, t.ops[k], hash);
      }
      assert OpInv(t, id, mine, hash);
      MoveRest(t, id, mine, hash);
    } else {
      GotoInv(s, id, o, DroppingTemp, hash);
    }
  }

  /** MoveOnly where the request's own old entry need not fit the state any more. */
  lemma MoveRest(s: State, id: OperationId, o: Operation, hash: Hash)
    requires LogInv(s) && PartsInv(s) && StoreInv(s, hash) && AlarmInv(s)
    requires forall k :: k in s.ops && k != id ==> OpInv(s, k, s.ops[k], hash)
    requires OpInv(s, id, o, hash)
    ensures Inv(s.(ops := s.ops[id := o]), hash)
  {
    var t := s.(ops := s.ops[id := o]);
    forall k | k in t.ops
      ensures OpInv(t, k, t.ops[k], hash)
    {
      UndisturbedOp(s, t, k, t.ops[k], hash);
    }
  }

  /** A store call of request `id` that lands. */
  lemma LandInv(s: State, id: OperationId, o: Operation, objects: Objects, phase: Phase, hash: Hash)
    requires Inv(s, hash) && id in s.ops && s.ops[id] == o
    requires var t := s.(objects := objects);
      && PartsInv(t) && StoreInv(t, hash) && OpInv(t, id, o.(phase := phase), hash)
      && forall k :: k in s.ops && k != id ==> Undisturbed(s, t, k)
    ensures Inv(Land(s, id, o, objects, phase), hash)
  {
    var t := s.(objects := objects);
    forall k | k in s.ops && k != id
      ensures OpInv(t, k, t.ops[k], hash)
    {
      UndisturbedOp(s, t, k, t.ops[k], hash);
    }
    if o.alive {
      MoveRest(t, id, o.(phase := phase), hash);
    } else {
      var u := Land(s, id, o, objects, phase);
      forall k | k in u.ops
        ensures OpInv(u, k, u.ops[k], hash)
      {
        UndisturbedOp(t, u, k, u.ops[k], hash);
      }
    }
  }

  lemma StorePartInv(s: State, id: OperationId, o: Operation, body: Bytes, hash: Hash)
    requires Inv(s, hash) && id in s.ops && s.ops[id] == o
    requires o.phase.Receiving? && |body| == o.request.length
    ensures Inv(Land(s, id, o, s.objects[Part(id) := body], Stored(body)), hash)
  {
    LandInv(s, id, o, s.objects[Part(id) := body], Stored(body), hash);
  }

  lemma StoreTempInv(s: State, id: OperationId, o: Operation, hash: Hash)
    requires Inv(s, hash) && id in s.ops && s.ops[id] == o
    requires o.phase.Assembling? && o.phase.next == |o.chunks|
    ensures Inv(Land(s, id, o, s.objects[Assembled(id) := o.phase.data], Written(o.phase.data)), hash)
  {
    LandInv(s, id, o, s.objects[Assembled(id) := o.phase.data], Written(o.phase.data), hash);
  }

  lemma PutBlobInv(s: State, id: OperationId, o: Operation, hash: Hash)
    requires Inv(s, hash) && id in s.ops && s.ops[id] == o
    requires o.phase.Publishing? && o.request.verb.Put?
    ensures Inv(Land(s, id, o, s.objects[Blob(o.request.verb.expected) := o.phase.bytes], Published), hash)
  {
    var objects := s.objects[Blob(o.request.verb.expected) := o.phase.bytes];
    var t := s.(objects := objects);
    assert forall k: Key :: !k.Blob? ==> (k in objects <==> k in s.objects);
    assert forall k: Key :: !k.Blob? && k in objects ==> objects[k] == s.objects[k];
    assert PhaseInv(t, id, o.(phase := Published), hash);
    LandInv(s, id, o, objects, Published, hash);
  }

  lemma DeletePageInv(s: State, id: OperationId, o: Operation, hash: Hash)
    requires Inv(s, hash) && id in s.ops && s.ops[id] == o
    requires o.phase.Removing?
    ensures Inv(Land(s, id, o, s.objects - o.phase.listed, Removing({})), hash)
  {
    assert OpInv(s, id, o, hash);
    LandInv(s, id, o, s.objects - o.phase.listed, Removing({}), hash);
  }

  lemma DropTempInv(s: State, id: OperationId, o: Operation, hash: Hash)
    requires Inv(s, hash) && id in s.ops && s.ops[id] == o
    ensures Inv(Land(s, id, o, s.objects - {Assembled(id)}, DroppingPart), hash)
  {
    LandInv(s, id, o, s.objects - {Assembled(id)}, DroppingPart, hash);
  }

  /** Only a part that never entered the log is deleted by its own request. */
  lemma DropPartInv(s: State, id: OperationId, o: Operation, hash: Hash)
    requires Inv(s, hash) && id in s.ops && s.ops[id] == o
    ensures Inv(Land(s, id, o, if o.partCommitted then s.objects else s.objects - {Part(id)}, Releasing), hash)
  {
    assert OpInv(s, id, o, hash);
    if o.partCommitted {
      LandInv(s, id, o, s.objects, Releasing, hash);
    } else {
      DropOwnPart(s, id, hash);
      LandInv(s, id, o, s.objects - {Part(id)}, Releasing, hash);
    }
  }

  lemma DropOwnPart(s: State, id: OperationId, hash: Hash)
    requires PartsInv(s) && StoreInv(s, hash) && forall i :: 0 <= i < |s.committed| ==> s.committed[i].part != id
    ensures
      var t := s.(objects := s.objects - {Part(id)});
      PartsInv(t) && StoreInv(t, hash) && forall k :: k != id ==> Undisturbed(s, t, k)
  {}

  lemma ReadInv(s: State, id: OperationId, o: Operation, hash: Hash)
    requires Inv(s, hash) && id in s.ops && s.ops[id] == o
    ensures Inv(PerformAlive(s, id, o, ReadChunk, hash), hash)
  {
    if o.phase.Fetching? && o.phase.next < |o.chunks| {
      assert OpInv(s, id, o, hash);
      var chunk := o.chunks[o.phase.next];
      if Part(chunk.part) in s.objects && |s.objects[Part(chunk.part)]| == chunk.size {
        ReadFits(s, id, o, hash);
        GotoInv(s, id, o, Assembling(o.phase.next + 1, o.phase.data + s.objects[Part(chunk.part)]), hash);
      } else {
        GotoInv(s, id, o, DroppingTemp, hash);
      }
    }
  }

  /** The bytes read so far go on agreeing with the log. */
  lemma ReadFits(s: State, id: OperationId, o: Operation, hash: Hash)
    requires PartsInv(s) && OpInv(s, id, o, hash) && o.phase.Fetching?
    requires Part(o.chunks[o.phase.next].part) in s.objects
    ensures
      var next := Assembling(o.phase.next + 1, o.phase.data + s.objects[Part(o.chunks[o.phase.next].part)]);
      OpInv(s, id, o.(phase := next), hash)
  {
    var n := o.phase.next;
    assert s.committed[..n + 1][..n] == s.committed[..n];
    assert o.chunks[n] == ChunksOf(s.committed[..|o.chunks|])[n] == Chunk(s.committed[n].part, |s.committed[n].body|);
  }

  lemma ReleaseInv(s: State, id: OperationId, hash: Hash)
    requires Inv(s, hash)
    ensures Inv(s.(upload := ReleaseLease(s.upload, id, s.now), ops := s.ops - {id}), hash)
  {
    var t := s.(upload := ReleaseLease(s.upload, id, s.now), ops := s.ops - {id});
    forall k | k in t.ops
      ensures OpInv(t, k, t.ops[k], hash)
    {
      UndisturbedOp(s, t, k, t.ops[k], hash);
    }
  }

  predicate StoreCall(action: Action) {
    || action.StorePart? || action.StoreTemp? || action.PutBlob?
    || action.DeletePage? || action.DropTemp? || action.DropPart?
  }

  /** What an action of request `id` leaves behind keeps the invariant. */
  ghost predicate Keeps(s: State, id: OperationId, o: Operation, action: Action, hash: Hash)
    requires id in s.ops && s.ops[id] == o
  {
    Inv(Perform(s, id, o, action, hash), hash)
  }

  lemma WritesEffect(s: State, id: OperationId, o: Operation, body: Bytes, hash: Hash)
    requires id in s.ops && s.ops[id] == o
    ensures
      Perform(s, id, o, StorePart(body), hash)
      == if o.phase.Receiving? && o.request.length > 0 && |body| == o.request.length && !o.request.verb.Delete?
         then Land(s, id, o, s.objects[Part(id) := body], Stored(body)) else s
    ensures
      Perform(s, id, o, StoreTemp, hash)
      == if o.phase.Assembling? && o.phase.next == |o.chunks| && |o.phase.data| == o.size
         then Land(s, id, o, s.objects[Assembled(id) := o.phase.data], Written(o.phase.data)) else s
    ensures
      Perform(s, id, o, PutBlob, hash)
      == if o.phase.Publishing? && o.request.verb.Put?
         then Land(s, id, o, s.objects[Blob(o.request.verb.expected) := o.phase.bytes], Published) else s
  {}

  lemma DeletionsEffect(s: State, id: OperationId, o: Operation, hash: Hash)
    requires id in s.ops && s.ops[id] == o
    ensures
      Perform(s, id, o, DeletePage, hash)
      == if o.phase.Removing? then Land(s, id, o, s.objects - o.phase.listed, Removing({})) else s
    ensures
      Perform(s, id, o, DropTemp, hash)
      == if o.phase.DroppingTemp? then Land(s, id, o, s.objects - {Assembled(id)}, DroppingPart) else s
    ensures
      Perform(s, id, o, DropPart, hash)
      == if o.phase.DroppingPart?
         then Land(s, id, o, if o.partCommitted then s.objects else s.objects - {Part(id)}, Releasing) else s
  {}

  lemma WritesKeep(s: State, id: OperationId, o: Operation, body: Bytes, hash: Hash)
    requires Inv(s, hash) && id in s.ops && s.ops[id] == o
    ensures Keeps(s, id, o, StorePart(body), hash) && Keeps(s, id, o, StoreTemp, hash) && Keeps(s, id, o, PutBlob, hash)
  {
    WritesEffect(s, id, o, body, hash);
    if o.phase.Receiving? && |body| == o.request.length { StorePartInv(s, id, o, body, hash); }
    if o.phase.Assembling? && o.phase.next == |o.chunks| { StoreTempInv(s, id, o, hash); }
    if o.phase.Publishing? && o.request.verb.Put? { PutBlobInv(s, id, o, hash); }
  }

  lemma DeletionsKeep(s: State, id: OperationId, o: Operation, hash: Hash)
    requires Inv(s, hash) && id in s.ops && s.ops[id] == o
    ensures Keeps(s, id, o, DeletePage, hash) && Keeps(s, id, o, DropTemp, hash) && Keeps(s, id, o, DropPart, hash)
  {
    DeletionsEffect(s, id, o, hash);
    if o.phase.Removing? { DeletePageInv(s, id, o, hash); }
    DropTempInv(s, id, o, hash);
    DropPartInv(s, id, o, hash);
  }

  lemma StoreCallInv(s: State, id: OperationId, o: Operation, action: Action, hash: Hash)
    requires Inv(s, hash) && id in s.ops && s.ops[id] == o && StoreCall(action)
    ensures Keeps(s, id, o, action, hash)
  {
    DeletionsKeep(s, id, o, hash);
    WritesKeep(s, id, o, if action.StorePart? then action.body else [], hash);
  }

  lemma AliveInv(s: State, id: OperationId, o: Operation, action: Action, hash: Hash)
    requires Inv(s, hash) && id in s.ops && s.ops[id] == o && !StoreCall(action)
    ensures Inv(PerformAlive(s, id, o, action, hash), hash)
  {
    match action
    case Release => if o.phase.Releasing? { ReleaseInv(s, id, hash); }
    case Crash => CrashInv(s, id, o, hash);
    case ReadChunk => ReadInv(s, id, o, hash);
    case SkipBody => SkipBodyInv(s, id, o, hash);
    case FetchTemp => FetchTempInv(s, id, o, hash);
    case ListPage(page) => ListPageInv(s, id, o, page, hash);
    case EndRemoval => EndRemovalInv(s, id, o, hash);
    case Throw => ThrowInv(s, id, o, hash);
    case _ => TransactionInv(s, id, o, action, hash);
  }

  // Steps between two awaits that touch only the request's own copy.

  lemma CrashInv(s: State, id: OperationId, o: Operation, hash: Hash)
    requires Inv(s, hash) && id in s.ops && s.ops[id] == o
    ensures Inv(PerformAlive(s, id, o, Crash, hash), hash)
  {
    assert OpInv(s, id, o, hash);
    MoveOnly(s, id, o.(alive := false), hash);
  }

  lemma PerformInv(s: State, id: OperationId, o: Operation, action: Action, hash: Hash)
    requires Inv(s, hash) && id in s.ops && s.ops[id] == o
    ensures Inv(Perform(s, id, o, action, hash), hash)
  {
    if StoreCall(action) {
      StoreCallInv(s, id, o, action, hash);
    } else {
      assert Perform(s, id, o, action, hash) == if o.alive then PerformAlive(s, id, o, action, hash) else s;
      AliveInv(s, id, o, action, hash);
    }
  }

  lemma TransactionInv(s: State, id: OperationId, o: Operation, action: Action, hash: Hash)
    requires Inv(s, hash) && id in s.ops && s.ops[id] == o
    requires action.Renew? || action.Cancel? || action.Commit? || action.RenewChunk? || action.Verify?
      || action.Complete?
    ensures Inv(PerformAlive(s, id, o, action, hash), hash)
  {
    assert OpInv(s, id, o, hash);
    match action
    case Renew => KeepInv(s, id, o, o.phase, hash);
    case Cancel => CloseInv(s, id, o, Abandon, hash);
    case Commit => if o.phase.Stored? { CommitInv(s, id, o, hash); }
    case RenewChunk =>
      if o.phase.Assembling? && o.phase.next < |o.chunks| {
        KeepInv(s, id, o, Fetching(o.phase.next, o.phase.data), hash);
      }
    case Verify => VerifyInv(s, id, o, hash);
    case Complete =>
      if o.phase.Published? && o.request.verb.Put? { CloseInv(s, id, o, Finish(o.request.verb.expected), hash); }
  }

  lemma VerifyInv(s: State, id: OperationId, o: Operation, hash: Hash)
    requires Inv(s, hash) && OpInv(s, id, o, hash) && id in s.ops && s.ops[id] == o
    ensures Inv(PerformAlive(s, id, o, Verify, hash), hash)
  {
    if o.phase.Written? && o.request.verb.Put? {
      if hash(o.phase.data) == o.request.verb.expected {
        KeepInv(s, id, o, Verified(o.phase.data), hash);
      } else {
        GotoInv(s, id, o, DroppingTemp, hash);
      }
    }
  }

  lemma ThrowInv(s: State, id: OperationId, o: Operation, hash: Hash)
    requires Inv(s, hash) && id in s.ops && s.ops[id] == o
    ensures Inv(PerformAlive(s, id, o, Throw, hash), hash)
  {
    assert OpInv(s, id, o, hash);
    GotoInv(s, id, o, DroppingTemp, hash);
  }

  lemma EndRemovalInv(s: State, id: OperationId, o: Operation, hash: Hash)
    requires Inv(s, hash) && id in s.ops && s.ops[id] == o
    ensures Inv(PerformAlive(s, id, o, EndRemoval, hash), hash)
  {
    assert OpInv(s, id, o, hash);
    GotoInv(s, id, o, DroppingTemp, hash);
  }

  lemma SkipBodyInv(s: State, id: OperationId, o: Operation, hash: Hash)
    requires Inv(s, hash) && id in s.ops && s.ops[id] == o
    ensures Inv(PerformAlive(s, id, o, SkipBody, hash), hash)
  {
    assert OpInv(s, id, o, hash);
    assert s.committed[..0] == [];
    GotoInv(s, id, o, AfterBody(o.request), hash);
  }

  lemma FetchTempInv(s: State, id: OperationId, o: Operation, hash: Hash)
    requires Inv(s, hash) && id in s.ops && s.ops[id] == o
    ensures Inv(PerformAlive(s, id, o, FetchTemp, hash), hash)
  {
    if o.phase.Verified? {
      assert OpInv(s, id, o, hash);
      var next := if Assembled(id) in s.objects then Publishing(s.objects[Assembled(id)]) else DroppingTemp;
      GotoInv(s, id, o, next, hash);
    }
  }

  lemma ListPageInv(s: State, id: OperationId, o: Operation, page: set<Key>, hash: Hash)
    requires Inv(s, hash) && id in s.ops && s.ops[id] == o
    ensures Inv(PerformAlive(s, id, o, ListPage(page), hash), hash)
  {
    if o.phase.Removing? && IsPage(page, s.objects) {
      assert OpInv(s, id, o, hash);
      GotoInv(s, id, o, Removing(page), hash);
    }
  }

  lemma ArriveInv(s: State, id: OperationId, request: Request, hash: Hash)
    requires Inv(s, hash)
    ensures Inv(Apply(s, Arrive(id, request), hash), hash)
  {
    var t := Apply(s, Arrive(id, request), hash);
    if t != s {
      assert s.committed[..|s.committed|] == s.committed;
      forall k | k in t.ops
        ensures OpInv(t, k, t.ops[k], hash)
      {
        if k != id { UndisturbedOp(s, t, k, t.ops[k], hash); }
      }
    }
  }

  /** Steps of the clock, of other uploads and of the alarm disturb no request. */
  lemma BackgroundOps(s: State, t: State, hash: Hash)
    requires OpsInv(s, hash) && t.ops == s.ops && forall k :: k in s.ops ==> Undisturbed(s, t, k)
    ensures OpsInv(t, hash)
  {
    forall k | k in t.ops
      ensures OpInv(t, k, t.ops[k], hash)
    {
      UndisturbedOp(s, t, k, t.ops[k], hash);
    }
  }

  lemma OtherUploadInv(s: State, bytes: Bytes, hash: Hash)
    requires Inv(s, hash)
    ensures Inv(Apply(s, OtherUpload(bytes), hash), hash)
  {
    BackgroundOps(s, Apply(s, OtherUpload(bytes), hash), hash);
  }

  lemma AlarmExpireInv(s: State, hash: Hash)
    requires Inv(s, hash)
    ensures Inv(Apply(s, AlarmExpire, hash), hash)
  {
    BackgroundOps(s, Apply(s, AlarmExpire, hash), hash);
  }

  lemma AlarmDeleteInv(s: State, hash: Hash)
    requires Inv(s, hash)
    ensures Inv(Apply(s, AlarmDelete, hash), hash)
  {
    BackgroundOps(s, Apply(s, AlarmDelete, hash), hash);
  }

  lemma AlarmFinishInv(s: State, hash: Hash)
    requires Inv(s, hash)
    ensures Inv(Apply(s, AlarmFinish, hash), hash)
  {
    BackgroundOps(s, Apply(s, AlarmFinish, hash), hash);
  }

  lemma BackgroundInv(s: State, e: Event, hash: Hash)
    requires Inv(s, hash) && !e.Arrive? && !e.Act?
    ensures Inv(Apply(s, e, hash), hash)
  {
    match e
    case OtherUpload(bytes) => OtherUploadInv(s, bytes, hash);
    case AlarmExpire => AlarmExpireInv(s, hash);
    case AlarmDelete => AlarmDeleteInv(s, hash);
    case AlarmFinish => AlarmFinishInv(s, hash);
    case _ => BackgroundOps(s, Apply(s, e, hash), hash);
  }

  lemma ApplyInv(s: State, e: Event, hash: Hash)
    requires Inv(s, hash)
    ensures Inv(Apply(s, e, hash), hash)
  {
    match e
    case Arrive(id, request) => ArriveInv(s, id, request, hash);
    case Act(id, action) => if id in s.ops { PerformInv(s, id, s.ops[id], action, hash); }
    case _ => BackgroundInv(s, e, hash);
  }

  lemma {:induction false} RunInv(s: State, events: seq<Event>, hash: Hash)
    requires Inv(s, hash)
    ensures Inv(Run(s, events, hash), hash)
    decreases |events|
  {
    if |events| > 0 {
      ApplyInv(s, events[0], hash);
      RunInv(Apply(s, events[0], hash), events[1..], hash);
    }
  }

  // ----- What the protocol promises -----

  function TotalSize(chunks: seq<Chunk>): nat {
    if |chunks| == 0 then 0 else TotalSize(chunks[..|chunks| - 1]) + chunks[|chunks| - 1].size
  }

  lemma {:induction false} SizesAddUp(log: seq<Entry>)
    ensures TotalSize(ChunksOf(log)) == |Contents(log)|
  {
    if |log| > 0 {
      var n := |log| - 1;
      assert ChunksOf(log)[..n] == ChunksOf(log[..n]);
      SizesAddUp(log[..n]);
    }
  }

  /** Reading the parts of an open upload in order gives back the committed bytes. */
  lemma {:induction false} PartsAssemble(log: seq<Entry>, objects: Objects)
    requires forall i :: 0 <= i < |log| ==> Part(log[i].part) in objects && objects[Part(log[i].part)] == log[i].body
    ensures Assembly(ChunksOf(log), objects) == Some(Contents(log))
  {
    if |log| > 0 {
      var n := |log| - 1;
      assert ChunksOf(log)[..n] == ChunksOf(log[..n]);
      PartsAssemble(log[..n], objects);
    }
  }

  /** Over every run: each blob has its own digest; the size of the upload is the number of bytes
      committed; an open upload can always be assembled to exactly those bytes; and a completed one
      is published under the digest of exactly those bytes. */
  lemma UploadSafety(now: int, objects: Objects, events: seq<Event>, hash: Hash)
    requires forall k :: k in objects ==> k.Blob? && hash(objects[k]) == k.digest
    ensures
      var s := Run(Initial(now, objects), events, hash);
      && (forall d :: Blob(d) in s.objects ==> hash(s.objects[Blob(d)]) == d)
      && (s.upload.Some? ==>
            var u := s.upload.value;
            && u.size == TotalSize(u.chunks) == |Contents(s.committed)| <= MAX_BLOB
            && |u.chunks| == |s.committed| <= MAX_CHUNKS
            && (u.Open() ==> Assembly(u.chunks, s.objects) == Some(Contents(s.committed)))
            && (u.completed.Some? ==>
                  Blob(u.completed.value) in s.objects && hash(Contents(s.committed)) == u.completed.value))
  {
    InitialInv(now, objects, hash);
    RunInv(Initial(now, objects), events, hash);
    var s := Run(Initial(now, objects), events, hash);
    SizesAddUp(s.committed);
    if s.upload.Some? && s.upload.value.Open() {
      PartsAssemble(s.committed, s.objects);
    }
  }

  lemma OnlyCommitAppends(s: State, e: Event, hash: Hash)
    requires Apply(s, e, hash).committed != s.committed
    ensures e.Act? && e.action.Commit? && e.id in s.ops && s.ops[e.id].phase.Stored? && Owns(s.upload, e.id)
    ensures Apply(s, e, hash).committed == s.committed + [Entry(e.id, s.ops[e.id].phase.body)]
  {}

  lemma StoredByOwner(s: State, id: OperationId, hash: Hash)
    requires Inv(s, hash) && id in s.ops && s.ops[id].phase.Stored? && Owns(s.upload, id)
    ensures
      var o := s.ops[id];
      && |o.phase.body| == o.request.length
      && o.base == |Contents(s.committed)|
      && (o.request.offset.Some? ==> o.request.offset.value == o.base)
  {
    var o := s.ops[id];
    assert OpInv(s, id, o, hash);
    assert s.committed[..|o.chunks|] == s.committed;
  }

  /** Only the owner of the lease appends, at the size it was admitted at, the body it stored; a
      body sent with Content-Range lands exactly where that range starts. */
  lemma AppendsOnlyByOwner(s: State, e: Event, hash: Hash)
    requires Inv(s, hash) && Apply(s, e, hash).committed != s.committed
    ensures e.Act? && e.action.Commit? && e.id in s.ops && Owns(s.upload, e.id)
    ensures
      var o := s.ops[e.id];
      && o.phase.Stored? && |o.phase.body| == o.request.length
      && Apply(s, e, hash).committed == s.committed + [Entry(e.id, o.phase.body)]
      && Contents(Apply(s, e, hash).committed) == Contents(s.committed) + o.phase.body
      && o.base == |Contents(s.committed)|
      && (o.request.offset.Some? ==> o.request.offset.value == |Contents(s.committed)|)
  {
    OnlyCommitAppends(s, e, hash);
    StoredByOwner(s, e.id, hash);
    ChunksOfExtended(s.committed, Entry(e.id, s.ops[e.id].phase.body));
  }

  /** A lease leaves its owner by the owner's own act, by takeover after it expired, or by the
      alarm after the upload itself expired: never by the finally block of a stale request. */
  lemma LeaseStaysWithOwner(s: State, e: Event, id: OperationId, hash: Hash)
    requires Owns(s.upload, id) && !Owns(Apply(s, e, hash).upload, id)
    ensures
      || (e.Act? && e.id == id)
      || (e.Arrive? && e.id !in s.used && s.upload.value.operation.value.expires <= s.now)
      || (e.AlarmExpire? && s.upload.value.Expiry() <= s.now)
      || e.AlarmFinish?
  {}

  /** An admitted request shuts out every other one for two minutes, and no longer. */
  lemma LeaseShutsOut(
      doc: Option<Upload>, id: OperationId, request: Request, now: int, other: OperationId, again: Request, ms: nat)
    requires Admit(doc, id, request, now).Ok?
    requires again.offset.Some? ==> again.offset.value == doc.value.size
    requires doc.value.size + again.length <= MAX_BLOB
    ensures
      var u := Admit(doc, id, request, now).value;
      && (Admit(Some(u), other, again, now + ms).Ok? <==> ms >= 120000)
      && (ms < 120000 ==> Admit(Some(u), other, again, now + ms) == Fail(409))
      && Owns(Some(u), id)
  {}

  lemma StepMonotone(s: State, e: Event, hash: Hash)
    ensures
      var t := Apply(s, e, hash);
      && s.committed <= t.committed
      && (Closed(s.upload) ==> Closed(t.upload) && t.committed == s.committed)
  {}

  lemma StepKeepsCompletion(s: State, e: Event, hash: Hash)
    ensures
      var t := Apply(s, e, hash);
      && (s.upload.None? ==> t.upload.None?)
      && (s.upload.Some? && s.upload.value.completed.Some? ==> CompletedAs(t.upload, s.upload.value.completed.value))
  {}

  /** Completed under this digest, or removed by the alarm long after. */
  predicate CompletedAs(doc: Option<Upload>, d: Digest) {
    doc.None? || doc.value.completed == Some(d)
  }

  lemma RemovalListsNoBlob(s: State, hash: Hash)
    requires Inv(s, hash)
    ensures s.alarm.Purging? ==> forall d :: Blob(d) !in s.alarm.listed
    ensures forall id, d :: id in s.ops && s.ops[id].phase.Removing? ==> Blob(d) !in s.ops[id].phase.listed
  {
    forall id, d | id in s.ops && s.ops[id].phase.Removing?
      ensures Blob(d) !in s.ops[id].phase.listed
    {
      assert OpInv(s, id, s.ops[id], hash);
    }
  }

  lemma StepKeepsBlobs(s: State, e: Event, d: Digest, hash: Hash)
    requires s.alarm.Purging? ==> Blob(d) !in s.alarm.listed
    requires forall id :: id in s.ops && s.ops[id].phase.Removing? ==> Blob(d) !in s.ops[id].phase.listed
    requires Blob(d) in s.objects
    ensures Blob(d) in Apply(s, e, hash).objects
  {}

  /** The log only grows, a closed upload never opens or changes its log again, a completed one stays
      completed under the same digest until the alarm removes it for good, and a published blob is
      never taken back. */
  lemma {:induction false} LogOnlyGrows(s: State, events: seq<Event>, hash: Hash)
    requires Inv(s, hash)
    ensures
      var t := Run(s, events, hash);
      && s.committed <= t.committed
      && (Closed(s.upload) ==> Closed(t.upload) && t.committed == s.committed)
      && (s.upload.None? ==> t.upload.None?)
      && (s.upload.Some? && s.upload.value.completed.Some? ==> CompletedAs(t.upload, s.upload.value.completed.value))
      && (forall d :: Blob(d) in s.objects ==> Blob(d) in t.objects)
    decreases |events|
  {
    if |events| > 0 {
      var next := Apply(s, events[0], hash);
      StepMonotone(s, events[0], hash);
      StepKeepsCompletion(s, events[0], hash);
      RemovalListsNoBlob(s, hash);
      forall d | Blob(d) in s.objects
        ensures Blob(d) in next.objects
      {
        StepKeepsBlobs(s, events[0], d, hash);
      }
      ApplyInv(s, events[0], hash);
      LogOnlyGrows(next, events[1..], hash);
    }
  }

  lemma {:induction false} ContentsGrow(log: seq<Entry>, longer: seq<Entry>)
    requires log <= longer
    ensures |Contents(log)| <= |Contents(longer)|
    decreases |longer|
  {
    if |log| < |longer| {
      assert log <= longer[..|longer| - 1];
      ContentsGrow(log, longer[..|longer| - 1]);
    } else {
      assert log == longer;
    }
  }

  /** A client that repeats a chunk whose bytes were committed is refused, however much later:
      with Content-Range no body is appended twice. */
  lemma RepeatedChunkIsRefused(s: State, events: seq<Event>, id: OperationId, request: Request, hash: Hash)
    requires Inv(s, hash) && request.offset.Some? && request.offset.value < |Contents(s.committed)|
    ensures
      var t := Run(s, events, hash);
      Admit(t.upload, id, request, t.now).Fail?
  {
    RunInv(s, events, hash);
    LogOnlyGrows(s, events, hash);
    ContentsGrow(s.committed, Run(s, events, hash).committed);
  }

  function Cleanup(id: OperationId): seq<Event> {
    [Act(id, DropTemp), Act(id, DropPart), Act(id, Release)]
  }

  /** The finally block, from its start to its end. */
  lemma CleanupEffect(s: State, id: OperationId, hash: Hash)
    requires id in s.ops && s.ops[id].alive && s.ops[id].phase.DroppingTemp? && Owns(s.upload, id)
    ensures
      var mine := {Assembled(id)} + (if s.ops[id].partCommitted then {} else {Part(id)});
      Run(s, Cleanup(id), hash)
      == s.(objects := s.objects - mine, ops := s.ops - {id}, upload := ReleaseLease(s.upload, id, s.now))
  {
    var b := Apply(s, Act(id, DropTemp), hash);
    var c := Apply(b, Act(id, DropPart), hash);
    var d := Apply(c, Act(id, Release), hash);
    var tail := [Act(id, DropPart), Act(id, Release)];
    assert Cleanup(id)[1..] == tail;
    assert tail[1..] == [Act(id, Release)];
    assert Run(c, [Act(id, Release)], hash) == Run(d, [], hash) == d;
    assert Run(b, tail, hash) == d;
    assert d.ops == s.ops - {id};
    var mine := {Assembled(id)} + (if s.ops[id].partCommitted then {} else {Part(id)});
    assert d.objects == s.objects - mine;
  }

  /** A wrong digest loses nothing: the request ends, gives back its lease, and the upload is open
      with the same log and all of its parts. */
  lemma MismatchCanBeRetried(s: State, id: OperationId, hash: Hash)
    requires Inv(s, hash) && id in s.ops && s.ops[id].alive && Owns(s.upload, id)
    requires s.ops[id].phase.Written? && s.ops[id].request.verb.Put?
    requires hash(Contents(s.committed)) != s.ops[id].request.verb.expected
    ensures
      var t := Run(Apply(s, Act(id, Verify), hash), Cleanup(id), hash);
      && t.committed == s.committed && !Closed(t.upload) && t.upload.value.operation.None?
      && t.upload.value.chunks == s.upload.value.chunks
      && Assembly(t.upload.value.chunks, t.objects) == Some(Contents(s.committed))
  {
    assert s.ops[id].phase.data == Contents(s.committed) by {
      assert OpInv(s, id, s.ops[id], hash);
      assert s.committed[..|s.ops[id].chunks|] == s.committed;
    }
    var a := Apply(s, Act(id, Verify), hash);
    assert a == Goto(s, id, s.ops[id], DroppingTemp);
    CleanupEffect(a, id, hash);
    var t := Run(a, Cleanup(id), hash);
    ApplyInv(s, Act(id, Verify), hash);
    RunInv(a, Cleanup(id), hash);
    PartsAssemble(t.committed, t.objects);
  }

  // ----- Finalization goes through when nothing interferes -----

  function Reads(id: OperationId, n: nat): seq<Event> {
    if n == 0 then [] else [Act(id, RenewChunk), Act(id, ReadChunk)] + Reads(id, n - 1)
  }

  /** Request `id` owns the upload, has read its first `n` chunks, and is at `phase`. */
  ghost predicate At(s: State, id: OperationId, digest: Digest, phase: Phase) {
    && id in s.ops && s.ops[id].alive && Owns(s.upload, id) && s.ops[id].request.verb == Put(digest)
    && |s.ops[id].chunks| == |s.committed| && s.ops[id].phase == phase
  }

  ghost predicate PartsStored(objects: Objects, log: seq<Entry>) {
    forall i :: 0 <= i < |log| ==> Part(log[i].part) in objects && objects[Part(log[i].part)] == log[i].body
  }

  /** The request owns the upload, and sees its whole log and all of its parts. */
  ghost predicate Reading(s: State, id: OperationId, digest: Digest, phase: Phase, log: seq<Entry>) {
    && At(s, id, digest, phase) && s.committed == log && PartsStored(s.objects, log)
    && s.ops[id].chunks == s.upload.value.chunks == ChunksOf(log)
    && s.ops[id].size == s.upload.value.size == |Contents(log)|
  }

  lemma OwnerReads(s: State, id: OperationId, digest: Digest, phase: Phase, hash: Hash)
    requires Inv(s, hash) && At(s, id, digest, phase)
    ensures Reading(s, id, digest, phase, s.committed)
  {
    assert OpInv(s, id, s.ops[id], hash);
    assert s.committed[..|s.committed|] == s.committed;
  }

  lemma RenewOne(s: State, id: OperationId, digest: Digest, n: nat, log: seq<Entry>, hash: Hash)
    requires n < |log| && Reading(s, id, digest, Assembling(n, Contents(log[..n])), log)
    ensures Reading(Apply(s, Act(id, RenewChunk), hash), id, digest, Fetching(n, Contents(log[..n])), log)
  {}

  lemma FetchOne(s: State, id: OperationId, digest: Digest, n: nat, log: seq<Entry>, hash: Hash)
    requires n < |log| && Reading(s, id, digest, Fetching(n, Contents(log[..n])), log)
    ensures Reading(Apply(s, Act(id, ReadChunk), hash), id, digest, Assembling(n + 1, Contents(log[..n + 1])), log)
  {
    assert log[..n + 1][..n] == log[..n];
    assert s.ops[id].chunks[n] == Chunk(log[n].part, |log[n].body|);
    assert Apply(s, Act(id, ReadChunk), hash) == ReadNext(s, id, s.ops[id]);
  }

  /** The next `n` chunks renewed and read, one after the other. */
  function AfterReads(s: State, id: OperationId, n: nat, hash: Hash): State
    decreases n
  {
    if n == 0 then s
    else AfterReads(Apply(Apply(s, Act(id, RenewChunk), hash), Act(id, ReadChunk), hash), id, n - 1, hash)
  }

  lemma {:induction false} ReadsRun(s: State, id: OperationId, n: nat, hash: Hash)
    ensures Run(s, Reads(id, n), hash) == AfterReads(s, id, n, hash)
    decreases n
  {
    if n > 0 {
      RunTwo(s, Act(id, RenewChunk), Act(id, ReadChunk), Reads(id, n - 1), hash);
      ReadsRun(Apply(Apply(s, Act(id, RenewChunk), hash), Act(id, ReadChunk), hash), id, n - 1, hash);
    }
  }

  lemma {:induction false} ReadRest(s: State, id: OperationId, digest: Digest, n: nat, log: seq<Entry>, hash: Hash)
    requires n <= |log| && Reading(s, id, digest, Assembling(n, Contents(log[..n])), log)
    ensures Reading(AfterReads(s, id, |log| - n, hash), id, digest, Assembling(|log|, Contents(log)), log)
    decreases |log| - n
  {
    if n < |log| {
      RenewOne(s, id, digest, n, log, hash);
      var m := Apply(s, Act(id, RenewChunk), hash);
      FetchOne(m, id, digest, n, log, hash);
      ReadRest(Apply(m, Act(id, ReadChunk), hash), id, digest, n + 1, log, hash);
    } else {
      assert log[..n] == log;
    }
  }

  lemma RunTwo(s: State, a: Event, b: Event, rest: seq<Event>, hash: Hash)
    ensures Run(s, [a, b] + rest, hash) == Run(Apply(Apply(s, a, hash), b, hash), rest, hash)
  {
    assert ([a, b] + rest)[1..] == [b] + rest;
    assert ([b] + rest)[1..] == rest;
  }

  ghost predicate PublishedAs(t: State, log: seq<Entry>, d: Digest) {
    && t.committed == log
    && t.upload.Some? && t.upload.value.completed == Some(d) && !t.upload.value.cancelled
    && Blob(d) in t.objects && t.objects[Blob(d)] == Contents(log)
  }

  lemma FromPublished(s: State, id: OperationId, d: Digest, hash: Hash)
    requires At(s, id, d, Published) && Blob(d) in s.objects && s.objects[Blob(d)] == Contents(s.committed)
    ensures PublishedAs(Run(s, [Act(id, Complete)], hash), s.committed, d)
  {
    assert Run(s, [Act(id, Complete)], hash) == Run(Apply(s, Act(id, Complete), hash), [], hash);
  }

  lemma FromPublishing(s: State, id: OperationId, d: Digest, hash: Hash)
    requires At(s, id, d, Publishing(Contents(s.committed)))
    ensures PublishedAs(Run(s, [Act(id, PutBlob), Act(id, Complete)], hash), s.committed, d)
  {
    var t := Land(s, id, s.ops[id], s.objects[Blob(d) := Contents(s.committed)], Published);
    assert Apply(s, Act(id, PutBlob), hash) == t;
    FromPublished(t, id, d, hash);
    assert [Act(id, PutBlob), Act(id, Complete)][1..] == [Act(id, Complete)];
  }

  lemma FromVerified(s: State, id: OperationId, d: Digest, hash: Hash)
    requires At(s, id, d, Verified(Contents(s.committed)))
    requires Assembled(id) in s.objects && s.objects[Assembled(id)] == Contents(s.committed)
    ensures PublishedAs(Run(s, [Act(id, FetchTemp), Act(id, PutBlob), Act(id, Complete)], hash), s.committed, d)
  {
    var t := Goto(s, id, s.ops[id], Publishing(Contents(s.committed)));
    assert Apply(s, Act(id, FetchTemp), hash) == t;
    FromPublishing(t, id, d, hash);
    assert [Act(id, FetchTemp), Act(id, PutBlob), Act(id, Complete)][1..] == [Act(id, PutBlob), Act(id, Complete)];
  }

  function Finalize(id: OperationId): seq<Event> {
    [Act(id, StoreTemp), Act(id, Verify), Act(id, FetchTemp), Act(id, PutBlob), Act(id, Complete)]
  }

  lemma FromWritten(s: State, id: OperationId, d: Digest, hash: Hash)
    requires At(s, id, d, Written(Contents(s.committed))) && d == hash(Contents(s.committed))
    requires s.ops[id].chunks == s.upload.value.chunks
    requires Assembled(id) in s.objects && s.objects[Assembled(id)] == Contents(s.committed)
    ensures PublishedAs(Run(s, Finalize(id)[1..], hash), s.committed, d)
  {
    var t := Transact(s, id, s.ops[id], Keep, Verified(Contents(s.committed)));
    assert Apply(s, Act(id, Verify), hash) == t;
    FromVerified(t, id, d, hash);
    assert Finalize(id)[1..][1..] == [Act(id, FetchTemp), Act(id, PutBlob), Act(id, Complete)];
  }

  lemma FromAssembled(s: State, id: OperationId, d: Digest, hash: Hash)
    requires At(s, id, d, Assembling(|s.committed|, Contents(s.committed)))
    requires s.ops[id].chunks == s.upload.value.chunks && s.ops[id].size == |Contents(s.committed)|
    requires d == hash(Contents(s.committed))
    ensures PublishedAs(Run(s, Finalize(id), hash), s.committed, d)
  {
    var t := Land(s, id, s.ops[id], s.objects[Assembled(id) := Contents(s.committed)], Written(Contents(s.committed)));
    assert Apply(s, Act(id, StoreTemp), hash) == t;
    FromWritten(t, id, d, hash);
  }

  /** With no other request, alarm or crash in between, the digest of the committed bytes is
      accepted: the blob is published and the upload completed under it. */
  lemma FinalizationPublishes(s: State, id: OperationId, d: Digest, hash: Hash)
    requires Inv(s, hash) && At(s, id, d, Assembling(0, [])) && d == hash(Contents(s.committed))
    ensures PublishedAs(Run(Run(s, Reads(id, |s.committed|), hash), Finalize(id), hash), s.committed, d)
  {
    var log := s.committed;
    assert log[..0] == [];
    OwnerReads(s, id, d, Assembling(0, []), hash);
    ReadRest(s, id, d, 0, log, hash);
    ReadsRun(s, id, |log|, hash);
    FromAssembled(AfterReads(s, id, |log|, hash), id, d, hash);
  }
}
