/**
  Native jobs on Macs.  The agent starts a job, uploads an artifact and reports a result; its user
  may cancel it; the reconciler, working on copies of the jobs it listed, submits, observes and stops
  it.  Every handler reads the job again after its awaits.
 */
module AppleJobs {
  import opened Common

  type JobId = nat
  type Allocation = string
  type UploadId = nat

  datatype Status = Queued | Running | Cancelling | Succeeded | Failed | Cancelled | TimedOut | Interrupted

  predicate Active(status: Status) {
    status.Queued? || status.Running? || status.Cancelling?
  }

  predicate IsResult(status: Status) {
    status.Succeeded? || status.Failed? || status.Cancelled? || status.TimedOut?
  }

  /** `legacy` jobs were claimed directly and never had a scheduler job. */
  datatype Job = Job(
    status: Status,
    legacy: bool,
    allocation: Option<Allocation>,
    result: Option<Status>,
    artifact: bool,
    unconfirmed: bool)

  type Jobs = map<JobId, Job>

  datatype ClientStatus = AllocPending | AllocRunning | AllocComplete | AllocFailed | AllocLost

  datatype Pass = Resting | Looping(copies: Jobs)

  /** In-flight agent requests were admitted on what the job was then.  `stopped` holds the jobs whose
      stop returned, `completed` those with an allocation seen complete, `cancelRequested` those whose
      user asked to cancel while they were active, `recorded` how many results each job accepted. */
  datatype State = State(
    jobs: Jobs,
    starts: set<(JobId, Allocation)>,
    results: set<(JobId, Status)>,
    uploads: map<UploadId, JobId>,
    objects: set<JobId>,
    pass: Pass,
    stopped: set<JobId>,
    completed: set<JobId>,
    cancelRequested: set<JobId>,
    recorded: map<JobId, nat>)

  /** A store in which an earlier version left direct jobs running. */
  function Initial(legacy: set<JobId>): State {
    State(map id | id in legacy :: Job(Running, true, None, None, false, false),
          {}, {}, map[], {}, Resting, {}, {}, {}, map id | id in legacy :: 0)
  }

  datatype Event =
    | Submit(id: JobId)
    | CancelByUser(id: JobId)
    | BeginStart(id: JobId, allocation: Allocation)
    | FinishStart(id: JobId, allocation: Allocation)
    | BeginUpload(upload: UploadId, id: JobId)
    | LandUpload(upload: UploadId)
    | FinishUpload(upload: UploadId)
    | BeginResult(id: JobId, result: Status)
    | FinishResult(id: JobId, result: Status)
    | BeginPass
    | RetireLegacy(id: JobId)
    | StopReturned(id: JobId)
    | Observe(id: JobId, allocation: Allocation, status: ClientStatus)
    | SchedulerError(id: JobId)
    | ObserveNothing(id: JobId)
    | Skip(id: JobId)
    | EndPass

  /** What a finished allocation makes of a job. */
  function Outcome(status: ClientStatus, result: Option<Status>): Status {
    if status.AllocComplete? && result.Some? then result.value
    else if status.AllocFailed? then
      if result.Some? && (result.value.Failed? || result.value.TimedOut? || result.value.Cancelled?)
      then result.value else Failed
    else Interrupted
  }

  function Observed(j: Job, allocation: Allocation, status: ClientStatus): Job {
    if !(j.status.Queued? || j.status.Running?) then j
    else if status.AllocFailed? || status.AllocLost? || status.AllocComplete?
    then j.(allocation := Some(allocation), status := Outcome(status, j.result))
    else if status.AllocRunning? then j.(allocation := Some(allocation), status := Running)
    else j
  }

  predicate MayStart(j: Job, allocation: Allocation) {
    (j.status.Queued? || j.status.Running?) && (j.allocation.None? || j.allocation == Some(allocation))
  }

  predicate MayReport(j: Job) {
    j.status.Running? || j.status.Cancelling?
  }

  /** Requests of users and agents. */
  function RequestStep(s: State, e: Event): State {
    match e
    case Submit(id) =>
      if id in s.jobs then s
      else s.(jobs := s.jobs[id := Job(Queued, false, None, None, false, false)], recorded := s.recorded[id := 0])
    case CancelByUser(id) =>
      if id in s.jobs && Active(s.jobs[id].status)
      then s.(jobs := s.jobs[id := s.jobs[id].(status := Cancelling)], cancelRequested := s.cancelRequested + {id})
      else s
    case BeginStart(id, allocation) =>
      if id in s.jobs && !s.jobs[id].legacy && (s.jobs[id].status.Queued? || s.jobs[id].status.Running?)
      then s.(starts := s.starts + {(id, allocation)}) else s
    case FinishStart(id, allocation) =>
      if (id, allocation) !in s.starts || id !in s.jobs then s
      else
        var t := s.(starts := s.starts - {(id, allocation)});
        if MayStart(s.jobs[id], allocation)
        then t.(jobs := s.jobs[id := s.jobs[id].(status := Running, allocation := Some(allocation))]) else t
    case BeginResult(id, result) =>
      if id in s.jobs && MayReport(s.jobs[id]) && IsResult(result) then s.(results := s.results + {(id, result)}) else s
    case FinishResult(id, result) =>
      if (id, result) !in s.results || id !in s.jobs then s
      else
        var t := s.(results := s.results - {(id, result)});
        if MayReport(s.jobs[id]) && s.jobs[id].result.None?
        then t.(jobs := s.jobs[id := s.jobs[id].(result := Some(result))],
                recorded := s.recorded[id := (if id in s.recorded then s.recorded[id] else 0) + 1])
        else t
    case _ => s
  }

  /** The artifact of a job is stored under one name, however often it is uploaded. */
  function UploadStep(s: State, e: Event): State {
    match e
    case BeginUpload(upload, id) =>
      if upload !in s.uploads && id in s.jobs && MayReport(s.jobs[id])
      then s.(uploads := s.uploads[upload := id]) else s
    case LandUpload(upload) => if upload in s.uploads then s.(objects := s.objects + {s.uploads[upload]}) else s
    case FinishUpload(upload) =>
      if upload !in s.uploads || s.uploads[upload] !in s.jobs then s
      else
        var id := s.uploads[upload];
        var t := s.(uploads := s.uploads - {upload});
        if MayReport(s.jobs[id])
        then t.(jobs := s.jobs[id := s.jobs[id].(artifact := true)], objects := s.objects + {id})
        else t.(objects := s.objects - {id})
    case _ => s
  }

  function Work(jobs: Jobs): Jobs {
    map id | id in jobs && Active(jobs[id].status) :: jobs[id]
  }

  /** The reconciler: decisions on its copy, changes on the job as it is after the await. */
  function PassStep(s: State, e: Event): State {
    match e
    case BeginPass => if s.pass.Resting? then s.(pass := Looping(Work(s.jobs))) else s
    case EndPass => s.(pass := Resting)
    case Skip(id) => if s.pass.Looping? then s.(pass := Looping(s.pass.copies - {id})) else s
    case RetireLegacy(id) =>
      if s.pass.Looping? && id in s.pass.copies && s.pass.copies[id].legacy
      then s.(jobs := s.jobs[id := s.pass.copies[id].(status := Interrupted)], pass := Looping(s.pass.copies - {id}))
      else s
    case StopReturned(id) =>
      if s.pass.Looping? && id in s.pass.copies && !s.pass.copies[id].legacy && s.pass.copies[id].status.Cancelling?
         && id in s.jobs
      then s.(jobs := s.jobs[id := s.jobs[id].(status := Cancelled, unconfirmed := false)], stopped := s.stopped + {id},
              pass := Looping(s.pass.copies - {id}))
      else s
    case Observe(id, allocation, status) =>
      if s.pass.Looping? && id in s.pass.copies && !s.pass.copies[id].legacy && !s.pass.copies[id].status.Cancelling?
         && id in s.jobs
      then s.(jobs := s.jobs[id := Observed(s.jobs[id].(unconfirmed := false), allocation, status)],
              completed := if status.AllocComplete? then s.completed + {id} else s.completed,
              pass := Looping(s.pass.copies - {id}))
      else s
    case ObserveNothing(id) =>
      if s.pass.Looping? && id in s.pass.copies && !s.pass.copies[id].legacy && !s.pass.copies[id].status.Cancelling?
         && id in s.jobs
      then s.(jobs := s.jobs[id := s.jobs[id].(unconfirmed := false)], pass := Looping(s.pass.copies - {id})) else s
    case SchedulerError(id) =>
      if s.pass.Looping? && id in s.pass.copies && id in s.jobs && Active(s.jobs[id].status)
      then s.(jobs := s.jobs[id := s.jobs[id].(unconfirmed := true)], pass := Looping(s.pass.copies - {id})) else s
    case _ => s
  }

  predicate PassEvent(e: Event) {
    e.BeginPass? || e.EndPass? || e.Skip? || e.RetireLegacy? || e.StopReturned? || e.Observe? || e.ObserveNothing?
    || e.SchedulerError?
  }

  predicate UploadEvent(e: Event) {
    e.BeginUpload? || e.LandUpload? || e.FinishUpload?
  }

  function Apply(s: State, e: Event): State {
    if PassEvent(e) then PassStep(s, e) else if UploadEvent(e) then UploadStep(s, e) else RequestStep(s, e)
  }

  function Run(s: State, events: seq<Event>): State
    decreases |events|
  {
    if |events| == 0 then s else Run(Apply(s, events[0]), events[1..])
  }

  // ----- Invariant -----

  predicate JobInv(s: State, id: JobId)
    requires id in s.jobs
  {
    var j := s.jobs[id];
    && (j.result.Some? ==> IsResult(j.result.value))
    && (j.status.Succeeded? ==> j.result == Some(Succeeded) && id in s.completed)
    && (j.status.Cancelled? ==> id in s.stopped || j.result == Some(Cancelled))
    && (id in s.cancelRequested && !j.legacy ==> j.status.Cancelling? || (j.status.Cancelled? && id in s.stopped))
    && id in s.recorded
    && (if j.result.Some? then s.recorded[id] == 1
        else s.recorded[id] == 0 || (j.legacy && !Active(j.status) && s.recorded[id] == 1))
  }

  /** A copy of the reconciler: its job is active still, and cancelling if the copy is. */
  predicate CopyInv(jobs: Jobs, id: JobId, c: Job) {
    && id in jobs && jobs[id].legacy == c.legacy && Active(c.status) && Active(jobs[id].status)
    && (c.status.Cancelling? ==> jobs[id].status.Cancelling?)
    && (c.result.Some? ==> jobs[id].result == c.result)
  }

  predicate Inv(s: State) {
    && (forall id :: id in s.jobs ==> JobInv(s, id))
    && (s.pass.Looping? ==> forall id :: id in s.pass.copies ==> CopyInv(s.jobs, id, s.pass.copies[id]))
    && (forall r :: r in s.results ==> IsResult(r.1))
    && (forall id :: id in s.cancelRequested ==> id in s.jobs)
    && (forall id :: id in s.stopped ==> id in s.jobs)
    && (forall id :: id in s.completed ==> id in s.jobs)
  }

  /** One job of the store changes in a way every copy allows. */
  lemma ChangeInv(s: State, t: State, id: JobId)
    requires Inv(s) && id in s.jobs && id in t.jobs && t.jobs == s.jobs[id := t.jobs[id]] && t.pass == s.pass
    requires t.jobs[id].legacy == s.jobs[id].legacy && Active(s.jobs[id].status) && Active(t.jobs[id].status)
    requires s.jobs[id].status.Cancelling? ==> t.jobs[id].status.Cancelling?
    requires s.jobs[id].result.Some? ==> t.jobs[id].result == s.jobs[id].result
    requires JobInv(t, id) && t.stopped == s.stopped && t.completed == s.completed
    requires s.cancelRequested <= t.cancelRequested <= s.cancelRequested + {id}
    requires t.results <= s.results && forall x :: x in s.jobs && x != id ==>
      x in s.recorded && x in t.recorded && t.recorded[x] == s.recorded[x]
    ensures Inv(t)
  {
    forall x | x in t.jobs
      ensures JobInv(t, x)
    {
      if x != id { assert JobInv(s, x); }
    }
  }

  lemma FinishResultInv(s: State, id: JobId, result: Status)
    requires Inv(s)
    ensures Inv(RequestStep(s, FinishResult(id, result)))
  {
    var t := RequestStep(s, FinishResult(id, result));
    if (id, result) in s.results && id in s.jobs && MayReport(s.jobs[id]) && s.jobs[id].result.None? {
      assert forall x :: x in s.jobs ==> JobInv(s, x);
      assert IsResult((id, result).1);
      ChangeInv(s, t, id);
    }
  }

  lemma FinishStartInv(s: State, id: JobId, allocation: Allocation)
    requires Inv(s)
    ensures Inv(RequestStep(s, FinishStart(id, allocation)))
  {}

  lemma CancelInv(s: State, id: JobId)
    requires Inv(s)
    ensures Inv(RequestStep(s, CancelByUser(id)))
  {}

  lemma SubmitInv(s: State, id: JobId)
    requires Inv(s)
    ensures Inv(RequestStep(s, Submit(id)))
  {}

  lemma RequestInv(s: State, e: Event)
    requires Inv(s)
    ensures Inv(RequestStep(s, e))
  {
    match e
    case Submit(id) => SubmitInv(s, id);
    case CancelByUser(id) => CancelInv(s, id);
    case FinishStart(id, allocation) => FinishStartInv(s, id, allocation);
    case FinishResult(id, result) => FinishResultInv(s, id, result);
    case BeginStart(_, _) =>
    case BeginResult(_, _) =>
    case _ =>
  }

  lemma UploadInv(s: State, e: Event)
    requires Inv(s)
    ensures Inv(UploadStep(s, e))
  {
    var t := UploadStep(s, e);
    forall id | id in t.jobs
      ensures JobInv(t, id)
    {
      assert JobInv(s, id);
    }
  }

  /** The reconciler finished with one job: the copies of the others still fit. */
  lemma ReconciledInv(s: State, t: State, id: JobId)
    requires Inv(s) && s.pass.Looping? && id in s.pass.copies && id in t.jobs && t.jobs == s.jobs[id := t.jobs[id]]
    requires t == s.(jobs := t.jobs, pass := Looping(s.pass.copies - {id}), stopped := t.stopped,
      completed := t.completed)
    requires s.stopped <= t.stopped <= s.stopped + {id} && s.completed <= t.completed <= s.completed + {id}
    requires JobInv(t, id)
    ensures Inv(t)
  {
    assert CopyInv(s.jobs, id, s.pass.copies[id]);
    forall x | x in t.jobs
      ensures JobInv(t, x)
    {
      if x != id { assert JobInv(s, x); }
    }
    forall x | x in t.pass.copies
      ensures CopyInv(t.jobs, x, t.pass.copies[x])
    {
      assert CopyInv(s.jobs, x, s.pass.copies[x]);
    }
  }

  predicate OneJob(e: Event) {
    e.RetireLegacy? || e.StopReturned? || e.Observe? || e.ObserveNothing? || e.SchedulerError?
  }

  lemma PassStepInv(s: State, e: Event)
    requires Inv(s) && PassEvent(e)
    ensures Inv(PassStep(s, e))
  {
    var t := PassStep(s, e);
    if t == s { return; }
    if OneJob(e) {
      OneJobInv(s, e);
      ReconciledInv(s, t, e.id);
    }
  }

  lemma OneJobInv(s: State, e: Event)
    requires Inv(s) && OneJob(e) && PassStep(s, e) != s
    ensures e.id in PassStep(s, e).jobs && JobInv(PassStep(s, e), e.id)
  {
    assert CopyInv(s.jobs, e.id, s.pass.copies[e.id]);
    assert JobInv(s, e.id);
  }

  lemma ApplyInv(s: State, e: Event)
    requires Inv(s)
    ensures Inv(Apply(s, e))
  {
    if PassEvent(e) { PassStepInv(s, e); } else if UploadEvent(e) { UploadInv(s, e); } else { RequestInv(s, e); }
  }

  lemma {:induction false} RunInv(s: State, events: seq<Event>)
    requires Inv(s)
    ensures Inv(Run(s, events))
    decreases |events|
  {
    if |events| > 0 {
      ApplyInv(s, events[0]);
      RunInv(Apply(s, events[0]), events[1..]);
    }
  }

  lemma InitialInv(legacy: set<JobId>)
    ensures Inv(Initial(legacy))
  {}

  // ----- What the jobs promise -----

  lemma FinishedStep(s: State, e: Event, id: JobId)
    requires Inv(s) && id in s.jobs && !Active(s.jobs[id].status)
    ensures
      var t := Apply(s, e);
      && id in t.jobs && t.jobs[id].status == s.jobs[id].status && t.jobs[id].result == s.jobs[id].result
      && t.jobs[id].allocation == s.jobs[id].allocation && t.jobs[id].artifact == s.jobs[id].artifact
  {}

  /** A finished job stays as it finished, whatever agents, users and the reconciler still do. */
  lemma {:induction false} FinishedStays(s: State, events: seq<Event>, id: JobId)
    requires Inv(s) && id in s.jobs && !Active(s.jobs[id].status)
    ensures
      var t := Run(s, events);
      && id in t.jobs && t.jobs[id].status == s.jobs[id].status && t.jobs[id].result == s.jobs[id].result
      && t.jobs[id].allocation == s.jobs[id].allocation && t.jobs[id].artifact == s.jobs[id].artifact
    decreases |events|
  {
    if |events| > 0 {
      ApplyInv(s, events[0]);
      FinishedStep(s, events[0], id);
      FinishedStays(Apply(s, events[0]), events[1..], id);
    }
  }

  /** In every run: success takes a complete allocation and a recorded success; a job that ended as
      cancelled was stopped, or its agent reported so; a job its user cancelled is being cancelled until
      its stop has returned, and is cancelled from then on; and no job accepts a second result. */
  lemma JobSafety(legacy: set<JobId>, events: seq<Event>, id: JobId)
    requires id in Run(Initial(legacy), events).jobs
    ensures
      var s := Run(Initial(legacy), events);
      var j := s.jobs[id];
      && (j.status.Succeeded? ==> j.result == Some(Succeeded) && id in s.completed)
      && (j.status.Cancelled? ==> id in s.stopped || j.result == Some(Cancelled))
      && (id in s.cancelRequested && !j.legacy ==> j.status.Cancelling? || (j.status.Cancelled? && id in s.stopped))
      && id in s.recorded && s.recorded[id] <= 1
  {
    InitialInv(legacy);
    RunInv(Initial(legacy), events);
    assert JobInv(Run(Initial(legacy), events), id);
  }

  /** A job leaves the cancelling state only when its stop returns, or when it is a legacy job that is
      being retired. */
  lemma CancellingEndsIff(s: State, e: Event, id: JobId)
    requires Inv(s) && id in s.jobs && s.jobs[id].status.Cancelling?
    ensures
      id in Apply(s, e).jobs
      && (!Apply(s, e).jobs[id].status.Cancelling?
          <==> s.pass.Looping? && id in s.pass.copies
               && ((e == StopReturned(id) && !s.pass.copies[id].legacy && s.pass.copies[id].status.Cancelling?)
                   || (e == RetireLegacy(id) && s.pass.copies[id].legacy)))
  {
    if !PassEvent(e) { RequestsKeepCancelling(s, e, id); }
  }

  lemma RequestsKeepCancelling(s: State, e: Event, id: JobId)
    requires id in s.jobs && s.jobs[id].status.Cancelling? && !PassEvent(e)
    ensures id in Apply(s, e).jobs && Apply(s, e).jobs[id].status.Cancelling?
  {}

  /** A recorded result is lost exactly when a legacy job is retired by a copy made before the result. */
  lemma ResultLostIff(s: State, e: Event, id: JobId)
    requires Inv(s) && id in s.jobs && s.jobs[id].result.Some?
    ensures
      id in Apply(s, e).jobs
      && (Apply(s, e).jobs[id].result != s.jobs[id].result
          <==> e == RetireLegacy(id) && s.pass.Looping? && id in s.pass.copies && s.pass.copies[id].legacy
               && s.pass.copies[id].result.None?)
  {}

  lemma Then(s: State, e: Event, t: State, rest: seq<Event>)
    requires Apply(s, e) == t
    ensures Run(s, [e] + rest) == Run(t, rest)
  {}

  /** Such a run: the agent of a legacy job reports success while the pass is busy elsewhere. */
  lemma RetiredResultIsLost()
    ensures
      var s := Run(Initial({1}), [BeginPass]
        + ([BeginResult(1, Succeeded)] + ([FinishResult(1, Succeeded)] + ([RetireLegacy(1)] + []))));
      1 in s.jobs && 1 in s.recorded && s.recorded[1] == 1 && s.jobs[1].result.None? && s.jobs[1].status.Interrupted?
  {
    var j := Job(Running, true, None, None, false, false);
    var a := Initial({1});
    assert a.jobs == map[1 := j] && Work(a.jobs) == a.jobs;
    var b := a.(pass := Looping(a.jobs));
    ReportAndRetire(b, j);
    Then(a, BeginPass, b, [BeginResult(1, Succeeded)] + ([FinishResult(1, Succeeded)] + ([RetireLegacy(1)] + [])));
  }

  lemma ReportAndRetire(s: State, j: Job)
    requires s.jobs == map[1 := j] && j == Job(Running, true, None, None, false, false)
    requires s.pass == Looping(s.jobs) && s.results == {} && 1 in s.recorded && s.recorded[1] == 0
    ensures
      var t := Run(s, [BeginResult(1, Succeeded)] + ([FinishResult(1, Succeeded)] + ([RetireLegacy(1)] + [])));
      1 in t.jobs && 1 in t.recorded && t.recorded[1] == 1 && t.jobs[1].result.None? && t.jobs[1].status.Interrupted?
  {
    var c := Apply(s, BeginResult(1, Succeeded));
    assert c == s.(results := s.results + {(1, Succeeded)});
    var d := Apply(c, FinishResult(1, Succeeded));
    assert d.pass == s.pass && 1 in d.recorded && d.recorded[1] == 1;
    Then(d, RetireLegacy(1), Apply(d, RetireLegacy(1)), []);
    Then(c, FinishResult(1, Succeeded), d, [RetireLegacy(1)] + []);
    Then(s, BeginResult(1, Succeeded), c, [FinishResult(1, Succeeded)] + ([RetireLegacy(1)] + []));
  }

  /** The artifact a job points to is deleted exactly when an upload of the same job, admitted before,
      comes to its end after the job did. */
  lemma ArtifactDeletedIff(s: State, e: Event, id: JobId)
    requires id in s.jobs && s.jobs[id].artifact && id in s.objects
    ensures
      id !in Apply(s, e).objects
      <==> e.FinishUpload? && e.upload in s.uploads && s.uploads[e.upload] == id && !MayReport(s.jobs[id])
  {}

  /** The job runs, two uploads begin, and one of them is recorded. */
  function Recorded(): seq<Event> {
    [Submit(1)] + ([BeginStart(1, "a")] + ([FinishStart(1, "a")] + ([BeginUpload(1, 1)] + ([BeginUpload(2, 1)]
    + ([FinishUpload(1)] + [])))))
  }

  /** The job fails before the other upload comes to its end. */
  function Overtaken(): seq<Event> {
    [BeginPass] + ([Observe(1, "a", AllocFailed)] + ([FinishUpload(2)] + []))
  }

  lemma RecordedEffect()
    ensures
      var s := Run(Initial({}), Recorded());
      && s.jobs == map[1 := Job(Running, false, Some("a"), None, true, false)]
      && s.uploads == map[2 := 1] && s.objects == {1} && s.pass.Resting?
  {
    var j := Job(Queued, false, None, None, false, false);
    var s0 := Initial({});
    assert s0.jobs == map[];
    var s1 := Apply(s0, Submit(1));
    assert s1.jobs == map[1 := j];
    var s2 := Apply(s1, BeginStart(1, "a"));
    assert s2 == s1.(starts := {(1, "a")});
    var s3 := Apply(s2, FinishStart(1, "a"));
    assert (1, "a") in s2.starts && MayStart(j, "a");
    assert s3.jobs == map[1 := j.(status := Running, allocation := Some("a"))];
    UploadsRecorded(s3);
    var uploads := [BeginUpload(1, 1)] + ([BeginUpload(2, 1)] + ([FinishUpload(1)] + []));
    Then(s2, FinishStart(1, "a"), s3, uploads);
    Then(s1, BeginStart(1, "a"), s2, [FinishStart(1, "a")] + uploads);
    Then(s0, Submit(1), s1, [BeginStart(1, "a")] + ([FinishStart(1, "a")] + uploads));
  }

  lemma UploadsRecorded(s: State)
    requires s.jobs == map[1 := Job(Running, false, Some("a"), None, false, false)]
    requires s.uploads == map[] && s.objects == {} && s.pass.Resting?
    ensures
      var t := Run(s, [BeginUpload(1, 1)] + ([BeginUpload(2, 1)] + ([FinishUpload(1)] + [])));
      && t.jobs == map[1 := Job(Running, false, Some("a"), None, true, false)]
      && t.uploads == map[2 := 1] && t.objects == {1} && t.pass.Resting?
  {
    var a := s.(uploads := map[1 := 1]);
    var b := s.(uploads := map[1 := 1, 2 := 1]);
    assert Apply(s, BeginUpload(1, 1)) == a;
    assert a.uploads[2 := 1] == b.uploads;
    assert Apply(a, BeginUpload(2, 1)) == b;
    var c := Apply(b, FinishUpload(1));
    assert b.uploads - {1} == map[2 := 1];
    assert c.jobs == map[1 := Job(Running, false, Some("a"), None, true, false)];
    Then(b, FinishUpload(1), c, []);
    Then(a, BeginUpload(2, 1), b, [FinishUpload(1)] + []);
    Then(s, BeginUpload(1, 1), a, [BeginUpload(2, 1)] + ([FinishUpload(1)] + []));
  }

  lemma OvertakenEffect(s: State)
    requires s.jobs == map[1 := Job(Running, false, Some("a"), None, true, false)]
    requires s.uploads == map[2 := 1] && s.objects == {1} && s.pass.Resting?
    ensures
      var t := Run(s, Overtaken());
      t.jobs == map[1 := Job(Failed, false, Some("a"), None, true, false)] && t.objects == {}
  {
    var a := s.(pass := Looping(s.jobs));
    assert Work(s.jobs) == s.jobs;
    assert Apply(s, BeginPass) == a;
    FailureObserved(a);
    var b := Apply(a, Observe(1, "a", AllocFailed));
    LateUploadEnds(b);
    Then(b, FinishUpload(2), Apply(b, FinishUpload(2)), []);
    Then(a, Observe(1, "a", AllocFailed), b, [FinishUpload(2)] + []);
    Then(s, BeginPass, a, [Observe(1, "a", AllocFailed)] + ([FinishUpload(2)] + []));
  }

  lemma FailureObserved(s: State)
    requires s.jobs == map[1 := Job(Running, false, Some("a"), None, true, false)] && s.pass == Looping(s.jobs)
    ensures
      var t := Apply(s, Observe(1, "a", AllocFailed));
      && t.jobs == map[1 := Job(Failed, false, Some("a"), None, true, false)]
      && t.uploads == s.uploads && t.objects == s.objects
  {}

  lemma LateUploadEnds(s: State)
    requires s.jobs == map[1 := Job(Failed, false, Some("a"), None, true, false)]
    requires s.uploads == map[2 := 1] && s.objects == {1}
    ensures Apply(s, FinishUpload(2)).jobs == s.jobs && Apply(s, FinishUpload(2)).objects == {}
  {}

  /** A run in which the artifact of a finished job is deleted while the job still points to it. */
  lemma RecordedArtifactIsDeleted()
    ensures
      var s := Run(Initial({}), Recorded() + Overtaken());
      1 in s.jobs && s.jobs[1].status.Failed? && s.jobs[1].artifact && 1 !in s.objects
  {
    RecordedEffect();
    RunConcat(Initial({}), Recorded(), Overtaken());
    OvertakenEffect(Run(Initial({}), Recorded()));
  }

  lemma {:induction false} RunConcat(s: State, first: seq<Event>, second: seq<Event>)
    ensures Run(s, first + second) == Run(Run(s, first), second)
    decreases |first|
  {
    if |first| == 0 {
      assert first + second == second;
    } else {
      assert (first + second)[1..] == first[1..] + second;
      RunConcat(Apply(s, first[0]), first[1..], second);
    }
  }

  /** Without such an upload, a finished job keeps its artifact. */
  lemma {:induction false} ArtifactStays(s: State, events: seq<Event>, id: JobId)
    requires Inv(s) && id in s.jobs && !Active(s.jobs[id].status) && s.jobs[id].artifact && id in s.objects
    requires forall u :: u in s.uploads ==> s.uploads[u] != id
    ensures id in Run(s, events).objects
    decreases |events|
  {
    if |events| > 0 {
      ApplyInv(s, events[0]);
      FinishedStep(s, events[0], id);
      NoNewUpload(s, events[0], id);
      ArtifactDeletedIff(s, events[0], id);
      ArtifactStays(Apply(s, events[0]), events[1..], id);
    }
  }

  lemma NoNewUpload(s: State, e: Event, id: JobId)
    requires id in s.jobs && !Active(s.jobs[id].status) && forall u :: u in s.uploads ==> s.uploads[u] != id
    ensures forall u :: u in Apply(s, e).uploads ==> Apply(s, e).uploads[u] != id
  {}

  // ----- The reconciler, in place -----

  class JobStore {
    var jobs: Jobs

    constructor ()
      ensures jobs == map[]
    {
      jobs := map[];
    }

    /** `s` describes this store. */
    ghost predicate Describes(s: State)
      reads this
    {
      s.jobs == jobs
    }

    method ObserveJob(id: JobId, allocation: Allocation, status: ClientStatus, ghost s: State)
      requires Describes(s) && s.pass.Looping? && id in s.pass.copies && id in jobs
      requires !s.pass.copies[id].legacy && !s.pass.copies[id].status.Cancelling?
      modifies this
      ensures Describes(PassStep(s, Observe(id, allocation, status)))
    {
      if jobs[id].unconfirmed {
        jobs := jobs[id := jobs[id].(unconfirmed := false)];
      }
      var current := jobs[id];
      if !(current.status.Queued? || current.status.Running?) {
        return;
      }
      if status.AllocFailed? || status.AllocLost? || status.AllocComplete? {
        var outcome := Interrupted;
        if status.AllocComplete? && current.result.Some? {
          outcome := current.result.value;
        } else if status.AllocFailed? {
          outcome := Failed;
          if current.result.Some? && (current.result.value.TimedOut? || current.result.value.Cancelled?) {
            outcome := current.result.value;
          }
        }
        jobs := jobs[id := current.(allocation := Some(allocation), status := outcome)];
      } else if status.AllocRunning? {
        jobs := jobs[id := current.(allocation := Some(allocation), status := Running)];
      }
    }

    method FinishResultOf(id: JobId, result: Status, ghost s: State) returns (accepted: bool)
      requires Describes(s) && (id, result) in s.results && id in jobs
      modifies this
      ensures Describes(RequestStep(s, FinishResult(id, result)))
      ensures accepted <==> MayReport(s.jobs[id]) && s.jobs[id].result.None?
    {
      var current := jobs[id];
      if !(current.status.Running? || current.status.Cancelling?) || current.result.Some? {
        return false;
      }
      jobs := jobs[id := current.(result := Some(result))];
      return true;
    }

    method Cancel(id: JobId, ghost s: State)
      requires Describes(s) && id in jobs
      modifies this
      ensures Describes(RequestStep(s, CancelByUser(id)))
    {
      if Active(jobs[id].status) {
        jobs := jobs[id := jobs[id].(status := Cancelling)];
      }
    }
  }
}
