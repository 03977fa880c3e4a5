/** What a job is like when it is delivered. */
module Results {
  import opened Sequences
  import opened Operands
  import opened Tasks
  import opened AllocateMethods
  import opened Machine
  import opened Finishing
  import opened States

  /** The job as it is delivered. */
  function AtFinish(js: JobState, t: nat): JobState {
    js.(query := js.query.(finishTime := t))
  }

  /** Nothing in execution is finished before `r`, which is finished by now. */
  ghost predicate FirstToFinish(s: State, r: Running) {
    r in s.flight && r.finishTime <= s.now && forall x :: x in s.flight ==> r.finishTime <= x.finishTime
  }

  /** `finished` is the job that was taken out between two states, if there is one. */
  ghost predicate Ends(c: Config, s: State, s2: State, finished: Option<JobState>) {
    match finished
    case None => s2.jobs.Keys == s.jobs.Keys
    case Some(js) => Completes(c, s, js) && s2.jobs.Keys == s.jobs.Keys - {js.query.jobId}
  }

  /** The entries `finished` are finished by `now`, in their order, and no others. */
  ghost predicate Due(c: Config, now: nat, finished: seq<Running>, running: multiset<Running>) {
    && SortedBy(ExecutingOrder(c), finished)
    && (forall r :: r in multiset(finished) ==> r.finishTime <= now)
    && (forall r :: r in running ==> r.finishTime > now)
  }

  /** Exactly those that are finished by now have left execution. */
  ghost predicate OnlyDueLeft(now: nat, before: multiset<Running>, after: multiset<Running>) {
    && after <= before
    && (forall r :: r in after ==> r.finishTime > now)
    && (forall r :: r in before - after ==> r.finishTime <= now)
  }

  /** What the end of `r` hands over. */
  ghost function EndOf(c: Config, js: JobState, r: Running): Option<JobState>
    requires AppKnown(c, js.query) && TaskOf(r) < |js.log| && TaskOf(r) < |App(c, js.query).graph.next|
  {
    if js.finalMacrotaskId - {TaskOf(r)} != {} then None else
      Some(AtFinish(FinishedJob(c, js, TaskOf(r), r.finishTime), r.finishTime))
  }

  /** The queries may be admitted now, one after the other. */
  ghost predicate Incoming(c: Config, s: State, queries: seq<Query>) {
    && (forall i :: 0 <= i < |queries| ==>
          && AppKnown(c, queries[i]) && queries[i].jobId !in s.h.admitted
          && queries[i].receivedTime <= queries[i].startTime == s.now)
    && (forall i, k :: 0 <= i < k < |queries| ==> queries[i].jobId != queries[k].jobId)
  }

  ghost function JobIds(queries: seq<Query>): (r: seq<nat>)
    ensures |r| == |queries| && forall i :: 0 <= i < |r| ==> r[i] == queries[i].jobId
  {
    seq(|queries|, i requires 0 <= i < |queries| => queries[i].jobId)
  }

  /** Between two states exactly the queries were admitted. */
  ghost predicate Received(c: Config, s: State, t: State, queries: seq<Query>) {
    && t.h.started == s.h.started && t.now == s.now && t.next == s.next && t.flight == s.flight
    && (forall j :: j in s.h.admitted ==> j in t.h.admitted && t.h.admitted[j] == s.h.admitted[j])
    && (forall i :: 0 <= i < |queries| ==>
          && AppKnown(c, queries[i]) && queries[i].jobId in t.h.admitted
          && t.h.admitted[queries[i].jobId] == WithDeadline(c, queries[i]))
    && (forall j :: j in t.h.admitted ==> j in s.h.admitted || j in JobIds(queries))
    && (forall j :: j in t.jobs <==> j in s.jobs || j in JobIds(queries))
  }

  function FinishTimes(launched: seq<Running>): (r: seq<nat>)
    ensures |r| == |launched| && forall i :: 0 <= i < |r| ==> r[i] == launched[i].finishTime
  {
    seq(|launched|, i requires 0 <= i < |launched| => launched[i].finishTime)
  }

  /** Between two states exactly the entries `launched` were started; they are
      finished later than now. */
  ghost predicate LaunchedSince(s: State, t: State, launched: seq<Running>) {
    && t.h.admitted == s.h.admitted && t.now == s.now && t.jobs.Keys == s.jobs.Keys && t.waiting == s.waiting
    && t.flight == s.flight + multiset(launched)
    && s.h.started <= t.h.started && |t.h.started| == |s.h.started| + |launched|
    && |s.next| == |t.next| + |launched|
    && (forall i :: 0 <= i < |launched| ==> launched[i].finishTime > s.now)
  }

  /** A macrotask that MaxParallel will never start. */
  ghost predicate TooWide(c: Config, w: WMT) {
    c.allocation.MaxParallel? && Known(c, w) && Width(c, w) > c.maxThreads
  }

  /** Between two states threads were handed out, and nothing else happened. */
  ghost predicate HandedOut(c: Config, s: State, t: State, before: seq<WMT>, after: seq<WMT>, given: seq<EMT>) {
    && t == s.(waiting := multiset(after), next := multiset(given))
    && s.waiting == multiset(before)
    && Granted(c, before, after, given, Free(c, s.current)) && AsConfigured(c, before, after, given, Free(c, s.current))
  }

  function Free(c: Config, current: nat): nat { if current <= c.maxThreads then c.maxThreads - current else 0 }

  /** All macrotasks, each once, in an order that respects the graph. */
  ghost predicate SerialOrder(c: Config, q: Query, order: seq<nat>) {
    && AppKnown(c, q)
    && NamesTasks(App(c, q), order)
    && Respects(App(c, q).graph, order)
    && forall v: nat :: v in order <==> 0 < v < Size(c, q)
  }
}
