/** The steps of the executor, on its states. */
module States {
  import opened Tasks
  import opened AllocateMethods
  import opened Machine
  import opened Finishing
  import opened Starting
  import opened Admitting

  ghost function JobOf(r: Running): nat { r.emt.wmt.query.jobId }

  ghost function TaskOf(r: Running): nat { r.emt.wmt.macrotaskId }

  /** What becomes ready by the end of `r`. */
  function NewlyReady(c: Config, js: JobState, r: Running): multiset<WMT>
    requires AppKnown(c, js.query) && r.emt.wmt.macrotaskId < |App(c, js.query).graph.next|
  {
    var v := r.emt.wmt.macrotaskId;
    multiset(Emitted(js.query, Solved(js.inputDependency, App(c, js.query).graph.next[v], v), r.finishTime))
  }

  /** The executor after the entry `r` is finished. */
  ghost function AfterFinish(c: Config, s: State, r: Running): State
    requires JobOf(r) in s.jobs && r.emt.numThreads <= s.current
    requires AppKnown(c, s.jobs[JobOf(r)].query)
    requires TaskOf(r) < |s.jobs[JobOf(r)].log| && TaskOf(r) < |App(c, s.jobs[JobOf(r)].query).graph.next|
  {
    var js := s.jobs[JobOf(r)];
    s.(h := Finished(s.h, (JobOf(r), TaskOf(r))),
       current := s.current - r.emt.numThreads,
       jobs := JobsAfterFinish(c, s.jobs, JobOf(r), js, TaskOf(r), r.finishTime),
       waiting := s.waiting + NewlyReady(c, js, r),
       flight := s.flight - multiset{r})
  }

  /** The entry has threads, and its job in execution has the macrotask. */
  ghost predicate Startable(c: Config, jobs: map<nat, JobState>, e: EMT) {
    && ValidThreads(c, e) && Key(e.wmt).0 in jobs && AppKnown(c, jobs[Key(e.wmt).0].query)
    && Key(e.wmt).1 < |jobs[Key(e.wmt).0].log|
    && Key(e.wmt).1 < |App(c, jobs[Key(e.wmt).0].query).operations|
  }

  function JobsAfterStart(c: Config, jobs: map<nat, JobState>, e: EMT, now: nat): map<nat, JobState>
    requires Startable(c, jobs, e)
  {
    jobs[Key(e.wmt).0 := Start(c, jobs[Key(e.wmt).0], Key(e.wmt).1, now)]
  }

  /** The executor after the entry `e` is started. */
  ghost function AfterStart(c: Config, s: State, e: EMT): State
    requires Startable(c, s.jobs, e)
  {
    s.(h := Started(s.h, Key(e.wmt)),
       current := s.current + e.numThreads,
       jobs := JobsAfterStart(c, s.jobs, e, s.now),
       next := s.next - multiset{e},
       flight := s.flight + multiset{Launched(c, s.now, e)})
  }

  function Launched(c: Config, now: nat, e: EMT): Running
    requires ValidThreads(c, e)
  {
    Running(now + InfoOf(c, e.wmt).execTime[e.numThreads], e)
  }

  /** The macrotasks that wait for the virtual source only. */
  function FirstSolved(c: Config, q: Query): seq<nat>
    requires AppKnown(c, q) && |App(c, q).graph.next| > 0
  {
    Solved(App(c, q).graph.previous, App(c, q).graph.next[0], 0)
  }

  /** What is ready as soon as the query `q` is admitted. */
  function FirstReadyOf(c: Config, q: Query): multiset<WMT>
    requires AppKnown(c, q) && |App(c, q).graph.next| > 0
  {
    multiset(Emitted(q, FirstSolved(c, q), q.startTime))
  }

  /** The executor after the query `q` is admitted. */
  ghost function AfterAdmit(c: Config, s: State, q: Query): State
    requires AppKnown(c, q) && |App(c, q).graph.next| > 0
  {
    s.(h := Admitted(s.h, q),
       jobs := s.jobs[q.jobId := AdmittedJob(c, q, s.now)],
       waiting := s.waiting + FirstReadyOf(c, q))
  }
}
