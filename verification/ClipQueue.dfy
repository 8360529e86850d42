/** The clip render queue: one runner, suspended at the awaits of the source,
    and any interleaving of submissions, waits and settled promises. */
module ClipQueue {
  import opened Options
  import Sorting

  /** Clip ids start with a fixed prefix, so none is empty. */
  type ClipId = s: string | s != "" witness "clip_"

  datatype Status = Queued | Rendering | Done | Failed

  datatype Job = Job(src: Option<string>, status: Status)

  predicate IsValidTransition(from: Status, to: Status) {
    match from
    case Queued => to == Rendering || to == Failed
    case Rendering => to == Done || to == Failed
    case _ => false
  }

  /** `to` can be reached from `from` by valid transitions. */
  predicate MovedOn(from: Status, to: Status) {
    from == to || from == Queued || (from == Rendering && (to == Done || to == Failed))
  }

  /** Moving on is exactly what valid transitions add up to. */
  lemma MovedOnIsReachable(a: Status, b: Status)
    ensures MovedOn(a, b)
        <==> a == b || IsValidTransition(a, b) || exists m :: IsValidTransition(a, m) && IsValidTransition(m, b)
  {
    if a == Queued && b == Done {
      assert IsValidTransition(a, Rendering) && IsValidTransition(Rendering, b);
    }
  }

  lemma MovedOnComposes(a: Status, b: Status, c: Status)
    requires MovedOn(a, b) && MovedOn(b, c)
    ensures MovedOn(a, c)
  {
  }

  predicate Settled(st: Status) {
    st == Done || st == Failed
  }

  /** Where the async tick is suspended: not at all, awaiting mkdir or ffmpeg
      inside process, or awaiting a process call that returned or threw. */
  datatype Runner = Idle | AtMkdir(id: ClipId) | AtFfmpeg(id: ClipId) | AtReturn | AtThrow

  /** What has happened so far: ids in order of submission, of being taken off
      the queue and of being handed to ffmpeg; and ids whose encode rejected. */
  datatype Log = Log(submitted: seq<ClipId>, taken: seq<ClipId>, encoded: seq<ClipId>, orphans: set<ClipId>)

  datatype State = State(
    jobs: map<ClipId, Job>, pending: seq<ClipId>, running: bool, waiters: nat, runner: Runner, log: Log)

  function Start(): State {
    State(map[], [], false, 0, Idle, Log([], [], [], {}))
  }

  datatype Step =
    | Submit(id: ClipId, src: Option<string>)
    | WaitForIdle
    | MkdirSettles(made: bool)
    | FfmpegResolves(ok: bool)
    | FfmpegRejects
    | TickResumes

  /** Only what the runner awaits can settle. */
  predicate Enabled(s: State, step: Step) {
    match step
    case Submit(_, _) => true
    case WaitForIdle => true
    case MkdirSettles(_) => s.runner.AtMkdir?
    case FfmpegResolves(_) => s.runner.AtFfmpeg?
    case FfmpegRejects => s.runner.AtFfmpeg?
    case TickResumes => s.runner.AtReturn? || s.runner.AtThrow?
  }

  // ---------- the queue as a state machine ----------

  function WithStatus(s: State, id: ClipId, st: Status): State
    requires id in s.jobs
  {
    s.(jobs := s.jobs[id := s.jobs[id].(status := st)])
  }

  /** The finally block: the runner stops and every waiter is released. */
  function Stopped(s: State): State {
    s.(running := false, waiters := 0, runner := Idle)
  }

  predicate HasSource(job: Job) {
    job.src.Some? && job.src.value != ""
  }

  /** Process a job up to its first await. */
  function Processed(s: State, id: ClipId): State
    requires id in s.jobs
  {
    if s.jobs[id].status != Queued then s.(runner := AtReturn)
    else if !HasSource(s.jobs[id]) then WithStatus(s, id, Failed).(runner := AtReturn)
    else WithStatus(s, id, Rendering).(runner := AtMkdir(id))
  }

  function Taken(s: State): State
    requires s.pending != []
  {
    s.(pending := s.pending[1..], log := s.log.(taken := s.log.taken + [s.pending[0]]))
  }

  /** The loop of tick from its head to its next await, or to its end. */
  function Looped(s: State): State
    decreases |s.pending|
  {
    if s.pending == [] then Stopped(s)
    else
      var id := s.pending[0];
      var rest := Taken(s);
      if id in s.jobs then Processed(rest, id) else Looped(rest)
  }

  function Ticked(s: State): State {
    if s.running then s else Looped(s.(running := true))
  }

  function Enqueued(s: State, id: ClipId, src: Option<string>): State {
    s.(jobs := s.jobs[id := Job(src, Queued)],
       pending := s.pending + [id],
       log := s.log.(submitted := s.log.submitted + [id]))
  }

  function Next(s: State, step: Step): State {
    if !Enabled(s, step) then s
    else
      match step
      case Submit(id, src) =>
        if id in s.jobs then s
        else
          Ticked(Enqueued(s, id, src))
      case WaitForIdle =>
        if !s.running && s.pending == [] then s else s.(waiters := s.waiters + 1)
      case MkdirSettles(made) =>
        var id := s.runner.id;
        if id !in s.jobs then s
        else if !made then WithStatus(s, id, Failed).(runner := AtReturn)
        else s.(runner := AtFfmpeg(id), log := s.log.(encoded := s.log.encoded + [id]))
      case FfmpegResolves(ok) =>
        var id := s.runner.id;
        if id !in s.jobs then s
        else WithStatus(s, id, if ok then Done else Failed).(runner := AtReturn)
      case FfmpegRejects =>
        s.(runner := AtThrow, log := s.log.(orphans := s.log.orphans + {s.runner.id}))
      case TickResumes =>
        if s.runner.AtThrow? then Stopped(s) else Looped(s)
  }

  function After(steps: seq<Step>): State {
    if steps == [] then Start() else Next(After(steps[..|steps| - 1]), steps[|steps| - 1])
  }

  // ---------- what every state keeps ----------

  /** a is b with some elements left out. */
  predicate Within<T(==)>(a: seq<T>, b: seq<T>) {
    if a == [] then true
    else b != [] && ((a[|a| - 1] == b[|b| - 1] && Within(a[..|a| - 1], b[..|b| - 1])) || Within(a, b[..|b| - 1]))
  }

  /** Each submitted id was taken or is still pending, in order and once. */
  ghost predicate Accounted(s: State) {
    && s.log.submitted == s.log.taken + s.pending
    && Sorting.Distinct(s.log.submitted)
    && (forall id :: id in s.jobs <==> id in s.log.submitted)
  }

  predicate Working(r: Runner, id: ClipId) {
    (r.AtMkdir? || r.AtFfmpeg?) && r.id == id
  }

  ghost predicate JobsInStep(s: State)
    requires Accounted(s)
  {
    && (forall id :: id in s.pending ==> s.jobs[id].status == Queued)
    && (forall id :: id in s.log.taken ==>
          if Working(s.runner, id) || id in s.log.orphans then s.jobs[id].status == Rendering
          else Settled(s.jobs[id].status))
  }

  /** Work is left with nobody to take it up. */
  predicate Stranded(s: State) {
    s.pending != [] && !s.running
  }

  ghost predicate RunnerInStep(s: State) {
    && (s.running <==> s.runner != Idle)
    && s.log.orphans <= (set id | id in s.log.taken)
    && (s.runner.AtMkdir? || s.runner.AtFfmpeg? ==>
          s.log.taken != [] && s.runner.id == s.log.taken[|s.log.taken| - 1] && s.runner.id !in s.log.orphans)
    && Within(s.log.encoded, if s.runner.AtMkdir? then s.log.taken[..|s.log.taken| - 1] else s.log.taken)
    && (s.waiters > 0 ==> s.running || s.pending != [])
    && (Stranded(s) || s.runner.AtThrow? ==> s.log.orphans != {})
  }

  ghost predicate Valid(s: State) {
    Accounted(s) && JobsInStep(s) && RunnerInStep(s)
  }

  ghost predicate Onward(s: State, t: State) {
    forall id :: id in s.jobs ==>
      id in t.jobs && t.jobs[id].src == s.jobs[id].src && MovedOn(s.jobs[id].status, t.jobs[id].status)
  }

  lemma WithinLonger<T>(a: seq<T>, b: seq<T>, x: T)
    requires Within(a, b)
    ensures Within(a, b + [x]) && Within(a + [x], b + [x])
  {
    assert (b + [x])[..|b|] == b && (a + [x])[..|a|] == a;
  }

  lemma {:induction false} WithinMembers<T>(a: seq<T>, b: seq<T>)
    requires Within(a, b)
    ensures forall x :: x in a ==> x in b
  {
    if a != [] {
      assert a == a[..|a| - 1] + [a[|a| - 1]] && b == b[..|b| - 1] + [b[|b| - 1]];
      if a[|a| - 1] == b[|b| - 1] && Within(a[..|a| - 1], b[..|b| - 1]) {
        WithinMembers(a[..|a| - 1], b[..|b| - 1]);
      } else {
        WithinMembers(a, b[..|b| - 1]);
      }
    }
  }

  lemma {:induction false} WithinDistinct<T>(a: seq<T>, b: seq<T>)
    requires Within(a, b) && Sorting.Distinct(b)
    ensures Sorting.Distinct(a)
  {
    if a != [] {
      var n := |a| - 1;
      if a[n] == b[|b| - 1] && Within(a[..n], b[..|b| - 1]) {
        WithinDistinct(a[..n], b[..|b| - 1]);
        WithinMembers(a[..n], b[..|b| - 1]);
        forall i, j | 0 <= i < j < |a|
          ensures a[i] != a[j]
        {
          if j == n {
            assert a[i] == a[..n][i] && a[..n][i] in b[..|b| - 1];
          } else {
            assert a[i] == a[..n][i] && a[j] == a[..n][j];
          }
        }
      } else {
        WithinDistinct(a, b[..|b| - 1]);
      }
    }
  }

  lemma OnceAcross(all: seq<ClipId>, a: seq<ClipId>, b: seq<ClipId>)
    requires Sorting.Distinct(all) && all == a + b
    ensures forall x :: x in a ==> x !in b
    ensures Sorting.Distinct(a) && Sorting.Distinct(b)
  {
    forall i, j | 0 <= i < |a| && 0 <= j < |b|
      ensures a[i] != b[j]
    {
      assert all[i] == a[i] && all[|a| + j] == b[j];
    }
    forall i, j | 0 <= i < j < |b|
      ensures b[i] != b[j]
    {
      assert all[|a| + i] == b[i] && all[|a| + j] == b[j];
    }
    forall i, j | 0 <= i < j < |a|
      ensures a[i] != a[j]
    {
      assert all[i] == a[i] && all[j] == a[j];
    }
  }

  lemma TakeFirst(s: State)
    requires Accounted(s) && s.pending != []
    ensures Accounted(Taken(s))
    ensures var id := s.pending[0]; id in s.jobs && id !in s.log.taken && id !in s.pending[1..]
  {
    var id := s.pending[0];
    var taken := s.log.taken + [id];
    assert s.log.submitted == taken + s.pending[1..];
    assert id in s.log.submitted;
    OnceAcross(s.log.submitted, s.log.taken, s.pending);
    OnceAcross(s.log.submitted, taken, s.pending[1..]);
    assert id in taken;
  }

  /** The last id taken is still queued; everything else is in step. */
  ghost predicate ReadyToProcess(s: State, id: ClipId)
    requires Accounted(s)
  {
    && s.log.taken != [] && id == s.log.taken[|s.log.taken| - 1]
    && id in s.jobs && s.jobs[id].status == Queued && id !in s.pending && id !in s.log.orphans
    && (forall x :: x in s.pending ==> s.jobs[x].status == Queued)
    && (forall x :: x in s.log.taken && x != id ==>
          if x in s.log.orphans then s.jobs[x].status == Rendering else Settled(s.jobs[x].status))
  }

  lemma TakenReady(s: State)
    requires Accounted(s) && JobsInStep(s) && s.pending != []
    requires s.runner.Idle? || s.runner.AtReturn?
    requires s.log.orphans <= (set id | id in s.log.taken)
    ensures Accounted(Taken(s)) && ReadyToProcess(Taken(s), s.pending[0])
    ensures Taken(s).log.orphans <= (set id | id in Taken(s).log.taken)
  {
    hide Sorting.Distinct;
    TakeFirst(s);
  }

  lemma ProcessKeeps(s: State, id: ClipId)
    requires Accounted(s) && ReadyToProcess(s, id)
    ensures Accounted(Processed(s, id)) && JobsInStep(Processed(s, id)) && Onward(s, Processed(s, id))
  {
    hide Sorting.Distinct;
  }

  lemma ProcessInStep(s: State, id: ClipId)
    requires Accounted(s) && ReadyToProcess(s, id) && s.running
    requires s.log.orphans <= (set x | x in s.log.taken)
    requires Within(s.log.encoded, s.log.taken[..|s.log.taken| - 1]) && Within(s.log.encoded, s.log.taken)
    ensures RunnerInStep(Processed(s, id))
    ensures Processed(s, id).log == s.log && Processed(s, id).running
  {
    hide Within, Accounted;
  }

  lemma FirstHasJob(s: State)
    requires Accounted(s) && s.pending != []
    ensures s.pending[0] in s.jobs
  {
    assert s.pending[0] in s.log.submitted;
  }

  lemma StopKeeps(s: State)
    requires Accounted(s) && JobsInStep(s) && s.running && s.pending == []
    requires s.runner.Idle? || s.runner.AtReturn?
    requires s.log.orphans <= (set id | id in s.log.taken)
    requires Within(s.log.encoded, s.log.taken)
    ensures Valid(Stopped(s)) && Onward(s, Stopped(s))
  {
    hide Within, Sorting.Distinct;
  }

  /** The loop, entered with nothing under way. */
  lemma LoopKeeps(s: State)
    requires Accounted(s) && JobsInStep(s) && s.running
    requires s.runner.Idle? || s.runner.AtReturn?
    requires s.log.orphans <= (set id | id in s.log.taken)
    requires Within(s.log.encoded, s.log.taken)
    ensures Valid(Looped(s)) && Onward(s, Looped(s)) && !Stranded(Looped(s))
    ensures Looped(s).log.submitted == s.log.submitted && Looped(s).log.orphans == s.log.orphans
  {
    hide Within, Accounted, Processed, RunnerInStep, JobsInStep, ReadyToProcess;
    if s.pending == [] {
      StopKeeps(s);
    } else {
      var id := s.pending[0];
      TakenReady(s);
      var rest := Taken(s);
      assert rest.log.taken[..|s.log.taken|] == s.log.taken;
      WithinLonger(s.log.encoded, s.log.taken, id);
      ProcessKeeps(rest, id);
      ProcessInStep(rest, id);
      FirstHasJob(s);
      assert Looped(s) == Processed(rest, id);
    }
  }

  lemma NewId(ids: seq<ClipId>, id: ClipId)
    requires Sorting.Distinct(ids) && id !in ids
    ensures Sorting.Distinct(ids + [id])
  {
  }

  lemma EnqueueKeeps(s: State, id: ClipId, src: Option<string>)
    requires Valid(s) && id !in s.jobs
    ensures var q := Enqueued(s, id, src); Accounted(q) && JobsInStep(q) && Onward(s, q)
  {
    hide Within, Sorting.Distinct, RunnerInStep;
    NewId(s.log.submitted, id);
    assert s.log.submitted + [id] == s.log.taken + (s.pending + [id]);
    assert forall x :: x in s.pending || x in s.log.taken ==> x in s.log.submitted;
  }

  lemma SubmitKeeps(s: State, id: ClipId, src: Option<string>)
    requires Valid(s) && id !in s.jobs
    ensures Valid(Next(s, Submit(id, src))) && Onward(s, Next(s, Submit(id, src)))
  {
    hide Looped, Within, Processed, Accounted, JobsInStep;
    EnqueueKeeps(s, id, src);
    var q := Enqueued(s, id, src);
    if !s.running {
      var started := q.(running := true);
      StartedKeeps(q);
      LoopKeeps(started);
    }
  }

  lemma StartedKeeps(q: State)
    requires Accounted(q) && JobsInStep(q)
    ensures var t := q.(running := true); Accounted(t) && JobsInStep(t)
  {
    hide Sorting.Distinct;
  }

  lemma SettleKeeps(s: State, id: ClipId, st: Status)
    requires Valid(s) && Working(s.runner, id)
    requires Settled(st)
    ensures
      var t := WithStatus(s, id, st).(runner := AtReturn);
      id in s.jobs && Valid(t) && Onward(s, t)
  {
    assert id in s.log.taken;
    assert id in s.log.submitted && id in s.jobs;
    LastWithin(s);
    OnceAcross(s.log.submitted, s.log.taken, s.pending);
  }

  lemma LastWithin(s: State)
    requires RunnerInStep(s) && (s.runner.AtMkdir? || s.runner.AtFfmpeg?)
    ensures Within(s.log.encoded, s.log.taken)
    ensures s.runner.AtMkdir? ==> Within(s.log.encoded + [s.runner.id], s.log.taken)
  {
    var n := |s.log.taken| - 1;
    assert s.log.taken == s.log.taken[..n] + [s.log.taken[n]];
    if s.runner.AtMkdir? {
      WithinLonger(s.log.encoded, s.log.taken[..n], s.log.taken[n]);
    }
  }

  lemma MkdirKeeps(s: State, made: bool)
    requires Valid(s) && s.runner.AtMkdir?
    ensures Valid(Next(s, MkdirSettles(made))) && Onward(s, Next(s, MkdirSettles(made)))
  {
    hide Within;
    if made {
      LastWithin(s);
      assert s.runner.id in s.log.taken;
    } else {
      SettleKeeps(s, s.runner.id, Failed);
    }
  }

  lemma RejectKeeps(s: State)
    requires Valid(s) && s.runner.AtFfmpeg?
    ensures Valid(Next(s, FfmpegRejects)) && Onward(s, Next(s, FfmpegRejects))
  {
    hide Within;
    assert s.runner.id in s.log.taken;
  }

  lemma ResumeKeeps(s: State)
    requires Valid(s) && Enabled(s, TickResumes)
    ensures Valid(Next(s, TickResumes)) && Onward(s, Next(s, TickResumes))
  {
    hide Within, Looped;
    if s.runner.AtReturn? {
      LoopKeeps(s);
    }
  }

  /** Every step keeps the invariant and moves statuses only forward. */
  lemma NextKeeps(s: State, step: Step)
    requires Valid(s)
    ensures Valid(Next(s, step)) && Onward(s, Next(s, step))
  {
    if Enabled(s, step) {
      match step
      case Submit(id, src) =>
        if id !in s.jobs {
          SubmitKeeps(s, id, src);
        }
      case WaitForIdle =>
        hide Within;
      case MkdirSettles(made) => MkdirKeeps(s, made);
      case FfmpegResolves(ok) => SettleKeeps(s, s.runner.id, if ok then Done else Failed);
      case FfmpegRejects => RejectKeeps(s);
      case TickResumes => ResumeKeeps(s);
    }
  }

  // ---------- every run ----------

  lemma {:induction false} AfterValid(steps: seq<Step>)
    ensures Valid(After(steps))
  {
    if steps != [] {
      AfterValid(steps[..|steps| - 1]);
      NextKeeps(After(steps[..|steps| - 1]), steps[|steps| - 1]);
    }
  }

  lemma {:induction false} OrphansOnlyByRejection(steps: seq<Step>)
    requires FfmpegRejects !in steps
    ensures After(steps).log.orphans == {}
  {
    if steps != [] {
      var s, step := After(steps[..|steps| - 1]), steps[|steps| - 1];
      assert step in steps;
      OrphansOnlyByRejection(steps[..|steps| - 1]);
      AfterValid(steps[..|steps| - 1]);
      SameOrphans(s, step);
    }
  }

  lemma SameOrphans(s: State, step: Step)
    requires Valid(s) && step != FfmpegRejects
    ensures Next(s, step).log.orphans == s.log.orphans
  {
    hide Within, Valid;
    LoopedOrphans(s);
    match step
    case Submit(id, src) =>
      LoopedOrphans(s.(jobs := s.jobs[id := Job(src, Queued)], pending := s.pending + [id], running := true,
                       log := s.log.(submitted := s.log.submitted + [id])));
    case _ =>
  }

  lemma {:induction false} LoopedOrphans(s: State)
    ensures Looped(s).log.orphans == s.log.orphans
    decreases |s.pending|
  {
    if s.pending != [] && s.pending[0] !in s.jobs {
      LoopedOrphans(Taken(s));
    }
  }

  /** No wakeup is lost: while ffmpeg keeps resolving, work or a waiter is left
      only with the runner active. */
  lemma NoLostWakeup(steps: seq<Step>)
    requires FfmpegRejects !in steps
    ensures var s := After(steps); (s.pending != [] ==> s.running) && (s.waiters > 0 ==> s.running)
  {
    AfterValid(steps);
    OrphansOnlyByRejection(steps);
  }

  // ---------- when work is stranded ----------

  /** Step `k` lets the error of a rejected encode through the finally block
      while ids are pending. */
  ghost predicate ThrowsWithWork(steps: seq<Step>, k: nat) {
    k < |steps| && steps[k] == TickResumes && After(steps[..k]).runner.AtThrow? && After(steps[..k]).pending != []
  }

  predicate Submitted(steps: seq<Step>, id: ClipId) {
    exists i :: 0 <= i < |steps| && steps[i].Submit? && steps[i].id == id
  }

  /** Step `j` submits an id for the first time. */
  predicate FirstSubmitted(steps: seq<Step>, j: nat) {
    j < |steps| && steps[j].Submit? && !Submitted(steps[..j], steps[j].id)
  }

  /** Step `k` throws with work pending and no new id is submitted after it. */
  ghost predicate LeftBehind(steps: seq<Step>, k: nat) {
    ThrowsWithWork(steps, k) && forall j: nat :: k < j ==> !FirstSubmitted(steps, j)
  }

  /** In every run, work is stranded exactly when some step threw with work
      pending and no step since submits an id for the first time. */
  lemma {:induction false} StrandedExactly(steps: seq<Step>)
    ensures Stranded(After(steps)) <==> exists k: nat :: LeftBehind(steps, k)
  {
    hide Next, ThrowsWithWork, FirstSubmitted, Stranded, LeftBehind;
    if steps == [] {
      NothingStranded();
    } else {
      var n := |steps| - 1;
      StrandedExactly(steps[..n]);
      StrandedByLast(steps);
      forall k: nat
        ensures LeftBehind(steps, k)
          <==> (k == n && ThrowsWithWork(steps, n)) || (LeftBehind(steps[..n], k) && !FirstSubmitted(steps, n))
      {
        LeftBehindByLast(steps, k);
      }
      if ThrowsWithWork(steps, n) {
        assert LeftBehind(steps, n);
      } else if Stranded(After(steps[..n])) {
        var k: nat :| LeftBehind(steps[..n], k);
        assert LeftBehind(steps, k) <==> !FirstSubmitted(steps, n);
      }
    }
  }

  lemma LeftBehindByLast(steps: seq<Step>, k: nat)
    requires steps != []
    ensures
      var n := |steps| - 1;
      LeftBehind(steps, k)
      <==> (k == n && ThrowsWithWork(steps, n)) || (LeftBehind(steps[..n], k) && !FirstSubmitted(steps, n))
  {
    hide ThrowsWithWork, FirstSubmitted;
    var n := |steps| - 1;
    Beyond(steps);
    Beyond(steps[..n]);
    forall j: nat | j < n
      ensures ThrowsWithWork(steps, j) == ThrowsWithWork(steps[..n], j)
      ensures FirstSubmitted(steps, j) == FirstSubmitted(steps[..n], j)
    {
      SameBefore(steps, n, j);
    }
  }

  lemma NothingStranded()
    ensures !Stranded(After([])) && forall k: nat :: !LeftBehind([], k)
  {
  }

  lemma Beyond(steps: seq<Step>)
    ensures forall k: nat :: |steps| <= k ==> !ThrowsWithWork(steps, k) && !FirstSubmitted(steps, k)
  {
  }

  lemma SameBefore(steps: seq<Step>, n: nat, k: nat)
    requires k < n <= |steps|
    ensures ThrowsWithWork(steps, k) == ThrowsWithWork(steps[..n], k)
    ensures FirstSubmitted(steps, k) == FirstSubmitted(steps[..n], k)
  {
    hide After;
    assert steps[..n][..k] == steps[..k];
  }

  /** What the last step of a run does to stranded work. */
  lemma StrandedByLast(steps: seq<Step>)
    requires steps != []
    ensures
      var n := |steps| - 1;
      Stranded(After(steps)) <==> ThrowsWithWork(steps, n) || (Stranded(After(steps[..n])) && !FirstSubmitted(steps, n))
  {
    hide Next, Valid, Stranded, Submitted;
    var n := |steps| - 1;
    AfterValid(steps[..n]);
    JobsAreSubmissions(steps[..n]);
    StrandStep(After(steps[..n]), steps[n]);
  }

  lemma StrandStep(s: State, step: Step)
    requires Valid(s)
    ensures Stranded(Next(s, step)) <==>
              || (step == TickResumes && s.runner.AtThrow? && s.pending != [])
              || (Stranded(s) && !(step.Submit? && step.id !in s.jobs))
  {
    hide Within, Looped, Accounted, JobsInStep;
    match step
    case Submit(id, src) =>
      if id !in s.jobs && !s.running {
        StartedLoops(s, id, src);
      }
    case TickResumes =>
      if s.runner.AtReturn? {
        LoopKeeps(s);
      }
    case _ =>
  }

  lemma StartedLoops(s: State, id: ClipId, src: Option<string>)
    requires Valid(s) && id !in s.jobs && !s.running
    ensures !Stranded(Looped(Enqueued(s, id, src).(running := true)))
  {
    hide Looped, Within, Accounted, JobsInStep, Stranded;
    EnqueueKeeps(s, id, src);
    var q := Enqueued(s, id, src);
    StartedKeeps(q);
    LoopKeeps(q.(running := true));
  }

  /** The table holds exactly the ids submitted. */
  lemma {:induction false} JobsAreSubmissions(steps: seq<Step>)
    ensures forall id :: id in After(steps).jobs <==> Submitted(steps, id)
  {
    hide Next;
    if steps != [] {
      var n := |steps| - 1;
      JobsAreSubmissions(steps[..n]);
      SameTable(After(steps[..n]), steps[n]);
      forall id
        ensures Submitted(steps, id) <==> Submitted(steps[..n], id) || (steps[n].Submit? && steps[n].id == id)
      {
        if Submitted(steps[..n], id) {
          var i :| 0 <= i < n && steps[..n][i].Submit? && steps[..n][i].id == id;
          assert steps[i].Submit? && steps[i].id == id;
        }
        if i :| 0 <= i < |steps| && steps[i].Submit? && steps[i].id == id {
          assert i < n ==> steps[..n][i].Submit? && steps[..n][i].id == id;
        }
      }
    }
  }

  lemma SameTable(s: State, step: Step)
    ensures Next(s, step).jobs.Keys == s.jobs.Keys + if step.Submit? then {step.id} else {}
  {
    hide Looped;
    LoopedTable(s);
    match step
    case Submit(id, src) => LoopedTable(Enqueued(s, id, src).(running := true));
    case _ =>
  }

  lemma {:induction false} LoopedTable(s: State)
    ensures Looped(s).jobs.Keys == s.jobs.Keys
    decreases |s.pending|
  {
    if s.pending != [] && s.pending[0] !in s.jobs {
      LoopedTable(Taken(s));
    }
  }

  /** A rejection does strand work: when a second clip was submitted while the
      first was being encoded and the encode rejects, the second stays queued
      with no runner and the first stays rendering. */
  lemma RejectionStrandsWork(a: ClipId, b: ClipId, source: string, other: Option<string>)
    requires a != b && source != ""
    ensures
      var steps := [Submit(a, Some(source)), MkdirSettles(true), Submit(b, other), FfmpegRejects, TickResumes];
      var s := After(steps);
      s.pending == [b] && !s.running && a in s.jobs && s.jobs[a].status == Rendering
  {
    var steps := [Submit(a, Some(source)), MkdirSettles(true), Submit(b, other), FfmpegRejects, TickResumes];
    AfterUnfolds(steps);
    FirstIsTaken(a, source);
    var s2 := Next(Next(Start(), steps[0]), steps[1]);
    SecondWaits(s2, b, other);
  }

  lemma FirstIsTaken(a: ClipId, source: string)
    requires source != ""
    ensures
      var s := Next(Next(Start(), Submit(a, Some(source))), MkdirSettles(true));
      && s.runner == AtFfmpeg(a) && s.pending == [] && s.running
      && s.jobs == map[a := Job(Some(source), Rendering)]
  {
    var s := Next(Start(), Submit(a, Some(source)));
    assert s.runner == AtMkdir(a) && s.pending == [] && s.running;
  }

  lemma SecondWaits(s: State, b: ClipId, other: Option<string>)
    requires s.runner.AtFfmpeg? && s.pending == [] && s.running && b !in s.jobs
    ensures
      var t := Next(Next(Next(s, Submit(b, other)), FfmpegRejects), TickResumes);
      t.pending == [b] && !t.running && t.jobs == s.jobs[b := Job(other, Queued)]
  {
  }

  lemma AfterUnfolds(steps: seq<Step>)
    requires |steps| == 5
    ensures After(steps) == Next(Next(Next(Next(Next(Start(), steps[0]), steps[1]), steps[2]), steps[3]), steps[4])
  {
    hide Next;
    assert steps[..4][..3] == steps[..3] && steps[..3][..2] == steps[..2] && steps[..2][..1] == steps[..1];
    assert steps[..1][..0] == [];
    assert After(steps[..1]) == Next(Start(), steps[0]);
    assert After(steps[..2]) == Next(After(steps[..1]), steps[1]);
    assert After(steps[..3]) == Next(After(steps[..2]), steps[2]);
    assert After(steps[..4]) == Next(After(steps[..3]), steps[3]);
  }

  /** Every distinct id is taken up and encoded at most once, in the order of
      submission. */
  lemma OnceInOrder(steps: seq<Step>)
    ensures
      var log := After(steps).log;
      && log.taken <= log.submitted
      && Sorting.Distinct(log.submitted)
      && Within(log.encoded, log.taken)
      && Sorting.Distinct(log.encoded)
  {
    AfterValid(steps);
    var s := After(steps);
    if s.runner.AtMkdir? {
      LastWithin(s);
    }
    OnceAcross(s.log.submitted, s.log.taken, s.pending);
    WithinDistinct(s.log.encoded, s.log.taken);
  }

  lemma NothingMoved(s: State)
    ensures Onward(s, s)
  {
  }

  lemma OnwardComposes(s: State, t: State, u: State)
    requires Onward(s, t) && Onward(t, u)
    ensures Onward(s, u)
  {
    forall id | id in s.jobs
      ensures MovedOn(s.jobs[id].status, u.jobs[id].status)
    {
      MovedOnComposes(s.jobs[id].status, t.jobs[id].status, u.jobs[id].status);
    }
  }

  /** Statuses only move forward along a run. */
  lemma {:induction false} StatusesMoveForward(steps: seq<Step>, more: seq<Step>)
    ensures Onward(After(steps), After(steps + more))
  {
    hide Next, Valid, MovedOn;
    if more == [] {
      assert steps + more == steps;
      NothingMoved(After(steps));
    } else {
      var n := |more| - 1;
      assert (steps + more)[..|steps| + n] == steps + more[..n];
      StatusesMoveForward(steps, more[..n]);
      AfterValid(steps + more[..n]);
      NextKeeps(After(steps + more[..n]), more[n]);
      OnwardComposes(After(steps), After(steps + more[..n]), After(steps + more));
    }
  }

  // ---------- what becomes of a job ----------

  /** The loop, entered with ids pending, takes the first one up. */
  lemma LoopTakesFirst(s: State)
    requires s.pending != [] && s.pending[0] in s.jobs && s.jobs[s.pending[0]].status == Queued
    ensures
      var id, t := s.pending[0], Looped(s);
      && t.jobs == s.jobs[id := s.jobs[id].(status := if HasSource(s.jobs[id]) then Rendering else Failed)]
      && t.log == s.log.(taken := s.log.taken + [id]) && t.running == s.running
  {
  }

  /** What one step does to the status of a job. */
  lemma StatusStep(s: State, step: Step, id: ClipId)
    requires Valid(s) && id in s.jobs
    ensures
      var t := Next(s, step);
      && id in t.jobs && t.jobs[id].src == s.jobs[id].src
      && (id in s.log.taken ==> id in t.log.taken)
      && t.jobs[id].status ==
           if step.FfmpegResolves? && s.runner == AtFfmpeg(id) then (if step.ok then Done else Failed)
           else if step == MkdirSettles(false) && s.runner == AtMkdir(id) then Failed
           else if id in t.log.taken && id !in s.log.taken then (if HasSource(s.jobs[id]) then Rendering else Failed)
           else s.jobs[id].status
  {
    hide Within, Looped, RunnerInStep;
    if s.pending != [] {
      FirstHasJob(s);
      if s.jobs[s.pending[0]].status == Queued {
        LoopTakesFirst(s);
      }
    }
    match step
    case Submit(x, src) =>
      if x !in s.jobs && !s.running {
        EnqueueKeeps(s, x, src);
        var q := Enqueued(s, x, src).(running := true);
        assert q.pending != [] && q.pending[0] in q.jobs by { FirstHasJob(Enqueued(s, x, src)); }
        LoopTakesFirst(q);
      }
    case TickResumes =>
      if s.pending == [] {
        LoopEnds(s);
      }
    case _ =>
  }

  lemma LoopEnds(s: State)
    requires s.pending == []
    ensures Looped(s) == Stopped(s)
  {
  }

  /** A job that a submission adds. */
  lemma StatusOfNew(s: State, id: ClipId, src: Option<string>)
    requires Valid(s) && id !in s.jobs
    ensures
      var t := Next(s, Submit(id, src));
      && id in t.jobs && t.jobs[id].src == src
      && t.jobs[id].status == if id !in t.log.taken then Queued
                              else if HasSource(t.jobs[id]) then Rendering else Failed
  {
    hide Within, Looped, RunnerInStep;
    EnqueueKeeps(s, id, src);
    NewIdNotTaken(s, id);
    if !s.running {
      var q := Enqueued(s, id, src).(running := true);
      assert q.pending != [] && q.pending[0] in q.jobs by { FirstHasJob(Enqueued(s, id, src)); }
      LoopTakesFirst(q);
    }
  }

  lemma NewIdNotTaken(s: State, id: ClipId)
    requires Accounted(s) && id !in s.jobs
    ensures id !in s.log.taken && id !in s.pending
  {
    assert id !in s.log.submitted;
  }

  /** At some step of the run the runner was there and this happened. */
  ghost predicate Happened(steps: seq<Step>, step: Step, runner: Runner) {
    exists k :: 0 <= k < |steps| && HappenedAt(steps, k, step, runner)
  }

  ghost predicate HappenedAt(steps: seq<Step>, k: nat, step: Step, runner: Runner)
    requires k < |steps|
  {
    steps[k] == step && After(steps[..k]).runner == runner
  }

  lemma HappenedMore(steps: seq<Step>, step: Step, runner: Runner)
    requires steps != []
    ensures
      var n := |steps| - 1;
      Happened(steps, step, runner)
      <==> Happened(steps[..n], step, runner) || (steps[n] == step && After(steps[..n]).runner == runner)
  {
    hide After;
    var n := |steps| - 1;
    forall k | 0 <= k < n
      ensures HappenedAt(steps, k, step, runner) <==> HappenedAt(steps[..n], k, step, runner)
    {
      assert steps[..n][..k] == steps[..k];
    }
    if Happened(steps[..n], step, runner) {
      var k :| 0 <= k < n && HappenedAt(steps[..n], k, step, runner);
      assert HappenedAt(steps, k, step, runner);
    }
    if steps[n] == step && After(steps[..n]).runner == runner {
      assert HappenedAt(steps, n, step, runner);
    }
    if Happened(steps, step, runner) {
      var k :| 0 <= k < |steps| && HappenedAt(steps, k, step, runner);
      assert k < n ==> HappenedAt(steps[..n], k, step, runner);
    }
  }

  ghost predicate FailedFor(steps: seq<Step>, id: ClipId)
    requires id in After(steps).jobs
  {
    || Happened(steps, FfmpegResolves(false), AtFfmpeg(id))
    || Happened(steps, MkdirSettles(false), AtMkdir(id))
    || (id in After(steps).log.taken && !HasSource(After(steps).jobs[id]))
  }

  /** In every run a job is done exactly when ffmpeg has resolved well while the
      runner was waiting for it, failed exactly when ffmpeg has resolved badly,
      its folder could not be made or it was taken up without a source, queued
      exactly while it is pending, and otherwise rendering. */
  lemma {:induction false} StatusTold(steps: seq<Step>, id: ClipId)
    requires id in After(steps).jobs
    ensures
      var s := After(steps);
      && (s.jobs[id].status == Done <==> Happened(steps, FfmpegResolves(true), AtFfmpeg(id)))
      && (s.jobs[id].status == Failed <==> FailedFor(steps, id))
      && (s.jobs[id].status == Queued <==> id in s.pending)
  {
    hide Next, Happened, Valid, Within;
    AfterValid(steps);
    PendingIsQueued(After(steps), id);
    if steps == [] {
      NoJobsAtFirst();
    } else {
      var n := |steps| - 1;
      var s := After(steps[..n]);
      AfterValid(steps[..n]);
      HappenedMore(steps, FfmpegResolves(true), AtFfmpeg(id));
      HappenedMore(steps, FfmpegResolves(false), AtFfmpeg(id));
      HappenedMore(steps, MkdirSettles(false), AtMkdir(id));
      if id in s.jobs {
        StatusTold(steps[..n], id);
        StatusStep(s, steps[n], id);
        TakenOnce(s, steps[n], id);
      } else {
        SameTable(s, steps[n]);
        NothingBefore(steps[..n], id);
        NotWorkedOn(s, id);
        StatusOfNew(s, id, steps[n].src);
      }
    }
  }

  lemma NoJobsAtFirst()
    ensures After([]).jobs == map[]
  {
  }

  lemma PendingIsQueued(s: State, id: ClipId)
    requires Valid(s) && id in s.jobs
    ensures s.jobs[id].status == Queued <==> id in s.pending
  {
    hide Within, RunnerInStep;
    assert id in s.log.submitted;
  }

  /** Whom the runner works on has been taken up with a source. */
  lemma TakenOnce(s: State, step: Step, id: ClipId)
    requires Valid(s) && id in s.jobs
    ensures Working(s.runner, id) ==> id in s.log.taken && s.jobs[id].status == Rendering
    ensures id !in s.log.taken ==> s.jobs[id].status == Queued
  {
    hide Within;
    assert id in s.log.submitted;
  }

  lemma NotWorkedOn(s: State, id: ClipId)
    requires Valid(s) && id !in s.jobs
    ensures !Working(s.runner, id) && id !in s.log.taken
  {
    hide Within;
    NewIdNotTaken(s, id);
  }

  /** Nothing happens to an id that nobody has submitted. */
  lemma {:induction false} NothingBefore(steps: seq<Step>, id: ClipId)
    requires id !in After(steps).jobs
    ensures forall step, runner :: Working(runner, id) ==> !Happened(steps, step, runner)
  {
    hide Next, Happened, Valid;
    if steps == [] {
      NothingHappened();
    } else {
      var n := |steps| - 1;
      SameTable(After(steps[..n]), steps[n]);
      AfterValid(steps[..n]);
      NotWorkedOn(After(steps[..n]), id);
      NothingBefore(steps[..n], id);
      forall step, runner | Working(runner, id)
        ensures !Happened(steps, step, runner)
      {
        HappenedMore(steps, step, runner);
      }
    }
  }

  lemma NothingHappened()
    ensures forall step, runner :: !Happened([], step, runner)
  {
  }

  /** A job keeps the source of the submission that added it. */
  lemma {:induction false} SourceTold(steps: seq<Step>, j: nat)
    requires FirstSubmitted(steps, j)
    ensures var s := After(steps); steps[j].id in s.jobs && s.jobs[steps[j].id].src == steps[j].src
  {
    hide Next, Valid;
    var n := |steps| - 1;
    AfterValid(steps[..n]);
    SameBefore(steps, n + 1, j);
    if j == n {
      JobsAreSubmissions(steps[..n]);
      StatusOfNew(After(steps[..n]), steps[n].id, steps[n].src);
    } else {
      assert steps[..n][..j] == steps[..j];
      SourceTold(steps[..n], j);
      StatusStep(After(steps[..n]), steps[n], steps[j].id);
    }
  }

  /** Who waits is counted, and the runner's stop releases everybody who does. */
  lemma WaitersTold(s: State, step: Step)
    requires Valid(s)
    ensures
      var t := Next(s, step);
      t.waiters == if s.running && !t.running then 0
                   else s.waiters + if step.WaitForIdle? && (s.running || s.pending != []) then 1 else 0
  {
    hide Within, Looped, Accounted, JobsInStep;
    match step
    case Submit(id, src) =>
      if id !in s.jobs && !s.running {
        LoopedWaiters(Enqueued(s, id, src).(running := true));
        SubmissionStarts(s, id, src);
      }
    case TickResumes =>
      if s.runner.AtReturn? {
        LoopedWaiters(s);
      }
    case _ =>
  }

  lemma {:induction false} LoopedWaiters(s: State)
    requires s.running
    ensures Looped(s).waiters == if Looped(s).running then s.waiters else 0
    decreases |s.pending|
  {
    if s.pending != [] && s.pending[0] !in s.jobs {
      LoopedWaiters(Taken(s));
    }
  }

  /** A new id starts an idle runner, which does not stop at once. */
  lemma SubmissionStarts(s: State, id: ClipId, src: Option<string>)
    requires Valid(s) && id !in s.jobs && !s.running
    ensures Looped(Enqueued(s, id, src).(running := true)).running
  {
    hide Within, Looped, RunnerInStep, JobsInStep;
    EnqueueKeeps(s, id, src);
    var q := Enqueued(s, id, src).(running := true);
    FirstHasJob(Enqueued(s, id, src));
    FirstQueued(Enqueued(s, id, src));
    LoopTakesFirst(q);
  }

  lemma FirstQueued(s: State)
    requires Accounted(s) && JobsInStep(s) && s.pending != [] && s.pending[0] in s.jobs
    ensures s.jobs[s.pending[0]].status == Queued
  {
    assert s.pending[0] in s.pending;
  }

  ghost predicate AllSettled(s: State) {
    s.pending == [] && forall id :: id in s.jobs ==> Settled(s.jobs[id].status)
  }

  /** Without rejections the queue is idle, and a waiter is released, only when
      every submitted job is done or failed. */
  lemma IdleMeansSettled(steps: seq<Step>, step: Step)
    requires FfmpegRejects !in steps && step != FfmpegRejects
    ensures !After(steps).running ==> AllSettled(After(steps))
    ensures Next(After(steps), step).waiters < After(steps).waiters ==> AllSettled(Next(After(steps), step))
  {
    hide Next, Valid, AllSettled;
    assert FfmpegRejects !in steps + [step];
    AfterValid(steps);
    AfterValid(steps + [step]);
    OrphansOnlyByRejection(steps);
    OrphansOnlyByRejection(steps + [step]);
    assert (steps + [step])[..|steps|] == steps;
    StoppedSettled(After(steps));
    var t := Next(After(steps), step);
    assert t == After(steps + [step]);
    StoppedSettled(t);
    if t.waiters < After(steps).waiters {
      FewerWaiters(After(steps), step);
    }
  }

  lemma StoppedSettled(s: State)
    requires Valid(s) && s.log.orphans == {}
    ensures !s.running ==> AllSettled(s)
  {
    hide Within;
    if !s.running {
      assert s.pending == [];
      forall id | id in s.jobs
        ensures Settled(s.jobs[id].status)
      {
        assert id in s.log.submitted && s.log.submitted == s.log.taken;
      }
    }
  }

  lemma FewerWaiters(s: State, step: Step)
    requires Valid(s) && Next(s, step).waiters < s.waiters
    ensures !Next(s, step).running
  {
  }

  // ---------- the queue drains ----------

  predicate RunnerStep(step: Step) {
    step.MkdirSettles? || step.FfmpegResolves? || step.TickResumes?
  }

  /** How many more times the runner can be resumed. */
  function Distance(s: State): nat {
    3 * |s.pending| + match s.runner { case Idle => 0 case AtMkdir(_) => 3 case AtFfmpeg(_) => 2 case _ => 1 }
  }

  /** While the runner is active something it awaits can settle, and each such
      step brings it nearer its end. */
  lemma RunnerAdvances(s: State, step: Step)
    requires Valid(s) && s.running
    ensures exists st :: RunnerStep(st) && Enabled(s, st)
    ensures RunnerStep(step) && Enabled(s, step) ==> Distance(Next(s, step)) < Distance(s)
  {
    var st := Awaited(s, true);
    assert RunnerStep(st) && Enabled(s, st);
  }

  /** What the runner awaits settles, with the given outcome. */
  function Awaited(s: State, ok: bool): Step {
    match s.runner
    case AtMkdir(_) => MkdirSettles(ok)
    case AtFfmpeg(_) => FfmpegResolves(ok)
    case _ => TickResumes
  }

  function RunOn(s: State, outcomes: nat -> bool, resumptions: nat): State
    decreases resumptions
  {
    if resumptions == 0 || !s.running then s
    else RunOn(Next(s, Awaited(s, outcomes(resumptions))), outcomes, resumptions - 1)
  }

  /** Left alone, whatever mkdir and ffmpeg answer, the queue comes to rest with
      every job done or failed. */
  lemma {:induction false} Drains(s: State, outcomes: nat -> bool, resumptions: nat)
    requires Valid(s) && s.log.orphans == {} && Distance(s) <= resumptions
    ensures !RunOn(s, outcomes, resumptions).running && AllSettled(RunOn(s, outcomes, resumptions))
    decreases resumptions
  {
    hide Valid, Next, AllSettled;
    StoppedSettled(s);
    if s.running {
      NotYetThere(s);
      var step := Awaited(s, outcomes(resumptions));
      RunnerAdvances(s, step);
      AwaitedEnabled(s, outcomes(resumptions));
      NextKeeps(s, step);
      SameOrphans(s, step);
      Drains(Next(s, step), outcomes, resumptions - 1);
    }
  }

  lemma NotYetThere(s: State)
    requires Valid(s) && s.running
    ensures Distance(s) > 0
  {
    hide Within, Accounted, JobsInStep;
  }

  lemma AwaitedEnabled(s: State, ok: bool)
    requires Valid(s) && s.running
    ensures RunnerStep(Awaited(s, ok)) && Enabled(s, Awaited(s, ok))
  {
    hide Within, Accounted, JobsInStep;
  }

  // ---------- the queue itself ----------

  class RenderQueue {
    var jobs: map<ClipId, Job>
    var pending: seq<ClipId>
    var running: bool
    var idleResolvers: nat
    var runner: Runner
    ghost var log: Log

    ghost function View(): State
      reads this
    {
      State(jobs, pending, running, idleResolvers, runner, log)
    }

    constructor ()
      ensures View() == Start()
    {
      jobs, pending, running, idleResolvers, runner := map[], [], false, 0, Idle;
      log := Log([], [], [], {});
    }

    /** Refuses a transition that is not valid; the source throws. */
    method Transition(id: ClipId, next: Status) returns (ok: bool)
      requires id in jobs
      modifies this`jobs
      ensures ok <==> IsValidTransition(old(jobs[id].status), next)
      ensures View() == if ok then WithStatus(old(View()), id, next) else old(View())
    {
      ok := IsValidTransition(jobs[id].status, next);
      if ok {
        jobs := jobs[id := jobs[id].(status := next)];
      }
    }

    method Process(id: ClipId)
      requires id in jobs
      modifies this`jobs, this`runner
      ensures View() == Processed(old(View()), id)
    {
      if jobs[id].status != Queued {
        runner := AtReturn;
        return;
      }
      var ok := Transition(id, Rendering);
      assert ok;
      if !HasSource(jobs[id]) {
        ok := Transition(id, Failed);
        assert ok;
        runner := AtReturn;
        return;
      }
      runner := AtMkdir(id);
    }

    method Loop()
      modifies this
      ensures View() == Looped(old(View()))
    {
      while pending != []
        invariant Looped(View()) == Looped(old(View()))
        decreases |pending|
      {
        var next := pending[0];
        pending := pending[1..];
        log := log.(taken := log.taken + [next]);
        if next in jobs {
          Process(next);
          return;
        }
      }
      running, idleResolvers, runner := false, 0, Idle;
    }

    method Tick()
      modifies this
      ensures View() == Ticked(old(View()))
    {
      if running {
        return;
      }
      running := true;
      Loop();
    }

    method Submit(id: ClipId, src: Option<string>) returns (cached: bool)
      modifies this
      ensures View() == Next(old(View()), Step.Submit(id, src))
      ensures cached <==> id in old(jobs)
    {
      cached := id in jobs;
      if cached {
        return;
      }
      jobs := jobs[id := Job(src, Queued)];
      pending := pending + [id];
      log := log.(submitted := log.submitted + [id]);
      Tick();
    }

    /** Resolves at once when idle, else when the runner stops. */
    method WaitForIdle() returns (atOnce: bool)
      modifies this`idleResolvers
      ensures View() == Next(old(View()), Step.WaitForIdle)
      ensures atOnce <==> !running && pending == []
    {
      atOnce := !running && pending == [];
      if !atOnce {
        idleResolvers := idleResolvers + 1;
      }
    }

    /** The rest of process after mkdir settled, up to its next await. */
    method MkdirSettles(made: bool)
      requires Valid(View()) && runner.AtMkdir?
      modifies this
      ensures View() == Next(old(View()), Step.MkdirSettles(made))
      ensures Valid(View())
    {
      NextKeeps(View(), Step.MkdirSettles(made));
      RunnerJob(View());
      var id := runner.id;
      if !made {
        var ok := Transition(id, Failed);
        assert ok;
        runner := AtReturn;
      } else {
        runner := AtFfmpeg(id);
        log := log.(encoded := log.encoded + [id]);
      }
    }

    /** The rest of process after ffmpeg.run resolved. */
    method FfmpegResolves(ok: bool)
      requires Valid(View()) && runner.AtFfmpeg?
      modifies this
      ensures View() == Next(old(View()), Step.FfmpegResolves(ok))
      ensures Valid(View())
    {
      NextKeeps(View(), Step.FfmpegResolves(ok));
      RunnerJob(View());
      var id := runner.id;
      var moved := Transition(id, if ok then Done else Failed);
      assert moved;
      runner := AtReturn;
    }

    method FfmpegRejects()
      requires runner.AtFfmpeg?
      modifies this
      ensures View() == Next(old(View()), Step.FfmpegRejects)
    {
      log := log.(orphans := log.orphans + {runner.id});
      runner := AtThrow;
    }

    /** The await of process is over: go on with the loop, or let the error
        through the finally block. */
    method TickResumes()
      requires runner.AtReturn? || runner.AtThrow?
      modifies this
      ensures View() == Next(old(View()), Step.TickResumes)
    {
      if runner.AtThrow? {
        running, idleResolvers, runner := false, 0, Idle;
      } else {
        Loop();
      }
    }
  }

  /** The job the runner works on is in the table and rendering. */
  lemma RunnerJob(s: State)
    requires Valid(s) && (s.runner.AtMkdir? || s.runner.AtFfmpeg?)
    ensures s.runner.id in s.jobs && s.jobs[s.runner.id].status == Rendering
  {
    hide Within;
    assert s.runner.id in s.log.taken;
    assert s.runner.id in s.log.submitted;
  }
}
