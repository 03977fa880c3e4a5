/** Where queries come in and results go out (QueryReceiver, ResultSender). */
module Exchange {
  import opened Sequences
  import opened Tasks
  import opened Machine
  import opened Serving

  class QueryReceiver {
    var queue: seq<Query>
    var nextJid: nat

    constructor ()
      ensures queue == [] && nextJid == 0
    {
      queue, nextJid := [], 0;
    }

    /** A query comes in and gets a job number of its own. */
    method AddQuery(a: Arrival, queryId: nat)
      modifies this
      ensures queue == old(queue) + [NewQuery(a, queryId, old(nextJid))] && nextJid == old(nextJid) + 1
    {
      queue := queue + [Query(a.appId, a.clientId, queryId, nextJid, a.pt, a.ct, a.time, 0, 0, 0)];
      nextJid := nextJid + 1;
    }

    /** At most `n` queries leave, first come, first served. */
    method GetQueries(n: nat, currentTime: nat) returns (queries: seq<Query>)
      modifies `queue
      ensures |queries| == if |old(queue)| <= n then |old(queue)| else n
      ensures queue == old(queue)[|queries|..]
      ensures forall i :: 0 <= i < |queries| ==> queries[i] == StartedAt(old(queue)[i], currentTime)
    {
      var taken: seq<Query> := [];
      if |queue| <= n {
        taken, queue := queue, taken;
      } else {
        for i := 0 to n
          invariant taken == old(queue)[..i] && queue == old(queue)[i..]
        {
          taken := taken + [queue[0]];
          queue := queue[1..];
        }
      }
      queries := [];
      for i := 0 to |taken|
        invariant |queries| == i && forall k :: 0 <= k < i ==> queries[k] == StartedAt(taken[k], currentTime)
      {
        queries := queries + [StartedAt(taken[i], currentTime)];
      }
    }
  }

  class ResultSender {
    /** Results that are sent without being asked for. */
    var queue: seq<JobState>
    /** Results that are sent on request. */
    var results: map<ResultKey, JobState>

    constructor ()
      ensures queue == [] && results == map[]
    {
      queue, results := [], map[];
    }

    method AddResult(job: JobState, doAddIntoQueue: bool)
      modifies this
      ensures queue == if doAddIntoQueue then old(queue) + [job] else old(queue)
      ensures results == if doAddIntoQueue then old(results) else
                old(results)[(job.query.appId, job.query.clientId, job.query.queryId) := job]
    {
      if doAddIntoQueue {
        queue := queue + [job];
      } else {
        results := results[(job.query.appId, job.query.clientId, job.query.queryId) := job];
      }
    }

    /** A result leaves when it is asked for, once. */
    method GetResult(appId: nat, clientId: nat, queryId: nat) returns (result: Option<JobState>)
      modifies `results
      ensures var key := (appId, clientId, queryId);
              && result == (if key in old(results) then Some(old(results)[key]) else None)
              && results == old(results) - {key}
    {
      var key := (appId, clientId, queryId);
      if key in results {
        result := Some(results[key]);
        results := results - {key};
      } else {
        result := None;
      }
    }
  }
}

/** The server of the simulation (Server, OfflineServer). */
module Servers {
  import opened Sequences
  import opened Tasks
  import opened Machine
  import opened Steps
  import opened Results
  import opened Clock
  import opened Executors
  import opened Serving
  import opened Clients
  import opened Passes
  import opened Exchange

  class OfflineServer {
    const c: Config
    const timeManager: TimeManagerSimulator
    const queryReceiver: QueryReceiver
    const resultSender: ResultSender
    const executor: Executor
    /** The client numbers of each application, and their inputs. */
    const clients: map<nat, seq<nat>>
    const inputs: Inputs
    /** What is still to come. */
    var queue: seq<Announcement>
    /** The client numbers to be used next. */
    var nextClientId: ClientIds
    var nextQueryId: nat
    /** The arrivals that the queue will become. */
    ghost var pending: seq<Arrival>

    ghost predicate Announced()
      reads this
    {
      Enough(queue, nextClientId) && pending == Assign(queue, nextClientId, inputs)
    }

    ghost predicate Wired()
      reads this, executor
    {
      executor.timeManager == timeManager && executor.c == c
    }

    constructor (c: Config, clients: map<nat, seq<nat>>, inputs: Inputs)
      requires c.WellFormed()
      ensures this.c == c && this.clients == clients && this.inputs == inputs
      ensures Wired() && executor.mq.c == c && executor.jobs == map[] && queue == [] && nextQueryId == 0
      ensures timeManager.Valid() && timeManager.currentTime == 0 && timeManager.Events() == multiset{}
      ensures queryReceiver.queue == [] && queryReceiver.nextJid == 0 && resultSender.results == map[]
      ensures fresh(timeManager) && fresh(queryReceiver) && fresh(resultSender) && fresh(executor) && fresh(executor.mq)
    {
      this.c, this.clients, this.inputs := c, clients, inputs;
      var clock := new TimeManagerSimulator();
      timeManager := clock;
      queryReceiver := new QueryReceiver();
      resultSender := new ResultSender();
      queue, nextClientId, nextQueryId, pending := [], map[], 0, [];
      executor := new Executor(c, clock);
    }

    predicate IsContinue()
      reads this, queryReceiver
    {
      |queryReceiver.queue| + |queue| > 0
    }

    /** The announcements are put in order, the client numbers are laid out, and each
        announcement is an event. */
    method InitOfflineQueue(received: seq<Announcement>)
      requires timeManager.Valid() && timeManager.currentTime == 0 && timeManager.Events() == multiset{}
      requires forall a :: a in clients ==> clients[a] != []
      modifies `queue, `nextClientId, timeManager`nextEventOccuringTimeQueue
      ensures timeManager.Valid() && queue == SortBy(AnnouncedBefore(), received)
      ensures multiset(queue) == multiset(received)
      ensures forall i, j :: 0 <= i < j < |queue| ==>
                || queue[i].time < queue[j].time
                || (queue[i].time == queue[j].time && queue[i].appId <= queue[j].appId)
      ensures nextClientId == FirstIds(clients, c.maxNumExecutingJobs)
      ensures timeManager.Events() == multiset(Times(queue)) && |timeManager.Events()| == |received|
    {
      queue := SortBy(AnnouncedBefore(), received);
      AnnouncedInOrder(received);
      LayOutClientIds();
      for i := 0 to |queue|
        invariant timeManager.Valid() && queue == SortBy(AnnouncedBefore(), received)
        invariant nextClientId == FirstIds(clients, c.maxNumExecutingJobs)
        invariant timeManager.Events() == multiset(Times(queue[..i]))
      {
        timeManager.PushNextEventOccuringTime(queue[i].time);
        TimesAppend(queue, i);
      }
      assert queue[..|queue|] == queue;
      assert |multiset(queue)| == |multiset(received)|;
    }

    /** As many client numbers of each application as jobs may be executed, and no less
        than there are clients. */
    method LayOutClientIds()
      requires forall a :: a in clients ==> clients[a] != []
      modifies `nextClientId
      ensures nextClientId == FirstIds(clients, c.maxNumExecutingJobs)
    {
      nextClientId := map[];
      var todo := clients.Keys;
      while todo != {}
        invariant todo <= clients.Keys && nextClientId.Keys == clients.Keys - todo
        invariant forall a :: a in nextClientId ==>
                    nextClientId[a] == FilledUp(clients[a], clients[a], c.maxNumExecutingJobs)
      {
        var a :| a in todo;
        var ids := clients[a];
        while |ids| < c.maxNumExecutingJobs
          invariant FilledUp(clients[a], ids, c.maxNumExecutingJobs) ==
                    FilledUp(clients[a], clients[a], c.maxNumExecutingJobs)
          invariant clients[a] <= ids
        {
          assert ids[..|clients[a]|] == clients[a];
          ids := ids + ids[..|clients[a]|];
        }
        nextClientId := nextClientId[a := ids];
        todo := todo - {a};
      }
    }

    /** A client number of the application that is not in use. */
    method GetClientId(appId: nat) returns (result: nat)
      requires IdsOf(nextClientId, appId) != []
      modifies `nextClientId
      ensures result == old(nextClientId)[appId][0] && nextClientId == Taken(old(nextClientId), appId)
    {
      result := nextClientId[appId][0];
      nextClientId := nextClientId[appId := nextClientId[appId][1..]];
    }

    /** The next arrival becomes a query. */
    method ReceiveQuery()
      requires Announced() && pending != []
      modifies `queue, `nextClientId, `pending, `nextQueryId, queryReceiver
      ensures Announced() && pending == old(pending[1..]) && nextQueryId == old(nextQueryId) + 1
      ensures queryReceiver.nextJid == old(queryReceiver.nextJid) + 1
      ensures queryReceiver.queue ==
                old(queryReceiver.queue) + [NewQuery(old(pending[0]), old(nextQueryId), old(queryReceiver.nextJid))]
    {
      var a := queue[0];
      var clientId := GetClientId(a.appId);
      var input := inputs(a.appId, clientId);
      queryReceiver.AddQuery(Arrival(a.time, a.appId, clientId, input.0, input.1), nextQueryId);
      nextQueryId := nextQueryId + 1;
      queue := queue[1..];
      pending := pending[1..];
    }

    /** At most `n` of the arrivals that are due, in their order. */
    method GetQueries(n: nat, currentTime: nat) returns (queries: seq<Query>)
      requires Announced() && queryReceiver.queue == []
      modifies `queue, `nextClientId, `pending, `nextQueryId, queryReceiver
      ensures Announced() && queryReceiver.queue == [] && |queries| <= n && |queries| <= |old(pending)|
      ensures pending == old(pending)[|queries|..]
      ensures nextQueryId == old(nextQueryId) + |queries|
      ensures queryReceiver.nextJid == old(queryReceiver.nextJid) + |queries|
      ensures forall i :: 0 <= i < |queries| ==>
                var q := NewQuery(old(pending)[i], old(nextQueryId) + i, old(queryReceiver.nextJid) + i);
                old(pending)[i].time <= currentTime && queries[i] == StartedAt(q, currentTime)
      ensures |queries| == n || pending == [] || pending[0].time > currentTime
    {
      hide Enough, NewQuery, StartedAt;
      var i := 0;
      while i < n && |queue| > 0 && currentTime >= queue[0].time
        invariant Announced() && i <= n && i <= |old(pending)| && pending == old(pending)[i..]
        invariant |queryReceiver.queue| == i
        invariant nextQueryId == old(nextQueryId) + i && queryReceiver.nextJid == old(queryReceiver.nextJid) + i
        invariant forall k :: 0 <= k < i ==>
                    && old(pending)[k].time <= currentTime
                    && queryReceiver.queue[k] ==
                         NewQuery(old(pending)[k], old(nextQueryId) + k, old(queryReceiver.nextJid) + k)
      {
        ReceiveQuery();
        i := i + 1;
      }
      queries := queryReceiver.GetQueries(n, currentTime);
    }

    /** All arrivals are to come, in execution or served; the executor is in state `s`. */
    ghost predicate At(arrivals: seq<Arrival>, s: State)
      reads this, timeManager, queryReceiver, resultSender, executor, executor.mq, executor.jobs.Values
      reads executor.timeManager
    {
      && Wired() && executor.Safe(s, multiset{}) && executor.mq.execNextQueue == []
      && queryReceiver.queue == [] && nextQueryId == queryReceiver.nextJid <= |arrivals|
      && Announced() && pending == arrivals[nextQueryId..]
      && Midway(c, arrivals, nextQueryId, s, timeManager.Events(), resultSender.results)
    }

    /** The clock goes to the next event. */
    method Advance(ghost s: State) returns (ghost t: State)
      requires Wired() && executor.Safe(s, multiset{}) && forall x :: x in timeManager.Events() ==> s.now <= x
      modifies timeManager
      ensures t == s.(now := timeManager.currentTime) && executor.Safe(t, multiset{})
      ensures Ticked(s.now, old(timeManager.Events()), timeManager.currentTime, timeManager.Events())
    {
      hide Ok, Executor.JobsFiled;
      timeManager.UpdateTime();
      t := s.(now := timeManager.currentTime);
      Tick(c, s, timeManager.currentTime);
    }

    /** Results go to where clients can ask for them. */
    method AddResults(finished: seq<JobState>)
      modifies resultSender
      ensures resultSender.results == WithResults(old(resultSender.results), finished)
    {
      for i := 0 to |finished|
        invariant resultSender.results == WithResults(old(resultSender.results), finished[..i])
      {
        resultSender.AddResult(finished[i], false);
        assert finished[..i + 1][..i] == finished[..i];
      }
      assert finished[..|finished|] == finished;
    }

    /** The clock goes on, what is finished is processed, and results are delivered. */
    method Settle(ghost arrivals: seq<Arrival>, ghost s: State) returns (ghost t: State)
      requires At(arrivals, s) && Between(c, arrivals, nextQueryId, s, timeManager.Events(), resultSender.results)
      modifies timeManager, resultSender, executor, executor.mq, executor.jobs.Values
      ensures At(arrivals, t) && executor.jobs.Values <= old(executor.jobs.Values)
      ensures t.h.started == s.h.started && |timeManager.Events()| == Upto(|old(timeManager.Events())|)
    {
      hide Ok, Executor.JobsFiled, Executor.Is, Handed, OnlyDueLeft, Midway, Between, Ticked;
      EventsNotPast(c, arrivals, nextQueryId, s, timeManager.Events(), resultSender.results);
      ghost var u := Advance(s);
      var finished;
      finished, t := executor.UpdateExecutingJobs(u);
      AddResults(finished);
      SettleIsMidway(c, arrivals, nextQueryId, s, u.now, t, old(timeManager.Events()), timeManager.Events(),
                     old(resultSender.results), finished);
      OneEventLess(s.now, old(timeManager.Events()), u.now, timeManager.Events());
      HandedKeepsStarted(c, u, t, finished);
    }

    /** The arrivals that are due, as many as may be in execution. */
    method TakeArrivals(ghost arrivals: seq<Arrival>, ghost s: State) returns (queries: seq<Query>)
      requires At(arrivals, s) && Hosts(c, arrivals)
      modifies this, queryReceiver
      ensures Wired() && executor.Safe(s, multiset{}) && executor.mq.execNextQueue == [] && queryReceiver.queue == []
      ensures nextQueryId == queryReceiver.nextJid == old(nextQueryId) + |queries| <= |arrivals|
      ensures Announced() && pending == arrivals[nextQueryId..]
      ensures AreArrivals(arrivals, old(nextQueryId), s.now, queries) && |s.jobs| + |queries| <= c.maxNumExecutingJobs
      ensures NobodyWaitsInVain(c, s.now, pending, |s.jobs| + |queries|)
      ensures Incoming(c, s, queries) && Later(s.now, s.flight)
    {
      hide Ok, Executor.JobsFiled, Midway, AreArrivals, Incoming, Later, Hosts, OfflineServer.Announced;
      JobsBounded(arrivals, s);
      var n := executor.NumAcceptableQueries();
      queries := GetQueries(n, timeManager.currentTime);
      QueriesAreArrivals(arrivals, old(nextQueryId), s.now, old(pending), queries);
      MidwayAdmitted(c, arrivals, old(nextQueryId), s, timeManager.Events(), resultSender.results);
      ArrivalsMayCome(c, arrivals, old(nextQueryId), s, queries);
    }

    /** They become jobs. */
    method Admit(ghost arrivals: seq<Arrival>, ghost s: State) returns (ghost t: State)
      requires At(arrivals, s) && Hosts(c, arrivals)
      modifies this, queryReceiver, executor, executor.mq, executor.jobs.Values
      ensures At(arrivals, t) && forall o :: o in executor.jobs.Values && o !in old(executor.jobs.Values) ==> fresh(o)
      ensures NobodyWaitsInVain(c, t.now, pending, |t.jobs|) && t.h.started == s.h.started
    {
      hide Ok, Executor.JobsFiled, Executor.Is, Received, Incoming, Midway, AreArrivals, NobodyWaitsInVain, Hosts;
      hide OfflineServer.Announced;
      var queries := TakeArrivals(arrivals, s);
      t := executor.UpdateQueries(queries, s);
      AdmitIsMidway(c, arrivals, old(nextQueryId), s, t, timeManager.Events(), resultSender.results, queries);
    }

    lemma JobsBounded(arrivals: seq<Arrival>, s: State)
      requires At(arrivals, s)
      ensures |executor.jobs| == |s.jobs| <= c.maxNumExecutingJobs && s.now == timeManager.currentTime
    {
      executor.KeysFiled();
      assert |executor.jobs| == |executor.jobs.Keys| == |s.jobs.Keys| == |s.jobs|;
    }

    /** Threads are handed out and macrotasks started. */
    method Dispatch(ghost arrivals: seq<Arrival>, ghost s: State) returns (ghost t: State)
      requires At(arrivals, s) && Hosts(c, arrivals) && NobodyWaitsInVain(c, s.now, pending, |s.jobs|)
      modifies timeManager, executor, executor.mq, executor.jobs.Values
      ensures At(arrivals, t) && executor.jobs == old(executor.jobs)
      ensures Between(c, arrivals, nextQueryId, t, timeManager.Events(), resultSender.results)
      ensures |timeManager.Events()| + |s.h.started| == |old(timeManager.Events())| + |t.h.started|
    {
      hide Ok, Executor.JobsFiled, Midway, Between, HandedOut, LaunchedSince, Hosts;
      ghost var given, launched;
      t, given, launched := executor.ExecuteTasks(s);
      NothingNext(executor, t);
      AfterDispatch(c, arrivals, nextQueryId, s, t, old(executor.mq.waitingQueue), executor.mq.waitingQueue, given,
                    launched, old(timeManager.Events()), resultSender.results);
    }

    /** One pass of the loop takes one event out, if there is one, and puts one in for
        every macrotask started. */
    method Pass(ghost arrivals: seq<Arrival>, ghost s: State) returns (ghost t: State)
      requires At(arrivals, s) && Hosts(c, arrivals)
      requires Between(c, arrivals, nextQueryId, s, timeManager.Events(), resultSender.results)
      modifies this, timeManager, queryReceiver, resultSender, executor, executor.mq, executor.jobs.Values
      ensures At(arrivals, t) && Between(c, arrivals, nextQueryId, t, timeManager.Events(), resultSender.results)
      ensures forall o :: o in executor.jobs.Values && o !in old(executor.jobs.Values) ==> fresh(o)
      ensures |timeManager.Events()| + |s.h.started| == Upto(|old(timeManager.Events())|) + |t.h.started|
    {
      hide Ok, Executor.JobsFiled, Midway, Between, Hosts, NobodyWaitsInVain;
      t := Settle(arrivals, s);
      t := Admit(arrivals, t);
      t := Dispatch(arrivals, t);
    }

    lemma WorkIsLeft(arrivals: seq<Arrival>, s: State)
      requires At(arrivals, s) && CanServe(c, arrivals)
      requires Between(c, arrivals, nextQueryId, s, timeManager.Events(), resultSender.results)
      requires executor.IsContinue() || IsContinue()
      ensures timeManager.Events() != multiset{} && |s.h.started| <= NumTasks(c, arrivals)
    {
      PassesLeft(arrivals, s);
      EventPending(c, arrivals, nextQueryId, s, timeManager.Events(), resultSender.results);
    }

    lemma NothingIsLeft(arrivals: seq<Arrival>, s: State)
      requires At(arrivals, s) && Hosts(c, arrivals) && !executor.IsContinue() && !IsContinue()
      ensures AllServed(c, arrivals, resultSender.results) && |s.h.started| == NumTasks(c, arrivals)
      ensures arrivals == [] || CanServe(c, arrivals)
    {
      assert nextQueryId == |arrivals|;
      EndServesAll(c, arrivals, s, timeManager.Events(), resultSender.results);
      NeverComesToEnd(c, arrivals, s, timeManager.Events(), resultSender.results);
    }

    lemma AsManyPending()
      requires Announced()
      ensures |queue| == |pending|
    {
    }

    lemma PassesLeft(arrivals: seq<Arrival>, s: State)
      requires At(arrivals, s)
      ensures |s.h.started| <= NumTasks(c, arrivals)
    {
      MidwayAdmitted(c, arrivals, nextQueryId, s, timeManager.Events(), resultSender.results);
      StartedAreTasks(c, arrivals, nextQueryId, s);
    }

    lemma NoneTaken(arrivals: seq<Arrival>, s: State)
      requires At(arrivals, s) && c.maxNumExecutingJobs == 0
      requires Between(c, arrivals, nextQueryId, s, timeManager.Events(), resultSender.results)
      ensures pending == arrivals && resultSender.results == map[]
    {
      NobodyIsAdmitted(c, arrivals, nextQueryId, s, timeManager.Events(), resultSender.results);
    }

    /** Every arrival is announced, and none received. */
    ghost predicate AtStart(arrivals: seq<Arrival>)
      reads this, timeManager, queryReceiver, resultSender, executor, executor.mq
    {
      && Wired() && executor.mq.c == c && timeManager.Valid() && timeManager.currentTime == 0
      && Announced() && pending == arrivals && nextQueryId == 0
      && queryReceiver.queue == [] && queryReceiver.nextJid == 0 && resultSender.results == map[]
      && EventsOk(0, timeManager.Events(), multiset{}, arrivals) && |timeManager.Events()| == |arrivals|
    }

    /** The executor starts empty, and the loop at its beginning. */
    method InitExecutor(ghost arrivals: seq<Arrival>) returns (ghost s: State)
      requires AtStart(arrivals) && Hosts(c, arrivals)
      modifies executor, executor.mq
      ensures At(arrivals, s) && executor.jobs == map[] && !executor.IsContinue() && s.h.started == {}
      ensures Between(c, arrivals, nextQueryId, s, timeManager.Events(), resultSender.results)
      ensures |timeManager.Events()| == |arrivals| && (IsContinue() <==> arrivals != [])
    {
      hide Ok, Executor.JobsFiled, Executor.Is, EventsOk, Hosts, OfflineServer.Announced, Midway, NobodyWaitsInVain;
      KnownToHosts(c, arrivals);
      AsManyPending();
      executor.Init();
      s := State(History(map[], {}, {}), timeManager.currentTime, 0, map[], multiset{}, multiset{}, multiset{});
      StartsBetween(c, arrivals, timeManager.Events());
    }

    /** The loop of the server: it ends, and then every arrival has been served. */
    method Run(ghost arrivals: seq<Arrival>) returns (ghost passes: nat)
      requires AtStart(arrivals) && CanServe(c, arrivals)
      modifies this, timeManager, queryReceiver, resultSender, executor, executor.mq, executor.jobs.Values
      ensures AllServed(c, arrivals, resultSender.results)
      ensures passes + |timeManager.Events()| == |arrivals| + NumTasks(c, arrivals)
    {
      hide Ok, Executor.JobsFiled, Executor.Is, AllServed, EventsOk, Between, Midway, CanServe, Hosts;
      hide OfflineServer.At, OfflineServer.AtStart, OfflineServer.IsContinue, Executor.IsContinue;
      WellFormedToServe(c, arrivals);
      ghost var s := InitExecutor(arrivals);
      passes := 0;
      while executor.IsContinue() || IsContinue()
        invariant At(arrivals, s) && Between(c, arrivals, nextQueryId, s, timeManager.Events(), resultSender.results)
        invariant forall o :: o in executor.jobs.Values ==> fresh(o)
        invariant passes + |timeManager.Events()| == |arrivals| + |s.h.started|
        decreases |arrivals| + NumTasks(c, arrivals) - passes
      {
        WorkIsLeft(arrivals, s);
        s := Pass(arrivals, s);
        passes := passes + 1;
      }
      NothingIsLeft(arrivals, s);
    }

    /** The first `n` passes of the same loop, on a server that may be unable to serve
        its arrivals: it ends if and only if it is able to, or has none.  Otherwise
        it goes on for ever, whatever the number of passes. */
    method RunFor(ghost arrivals: seq<Arrival>, n: nat) returns (passes: nat)
      requires AtStart(arrivals) && Hosts(c, arrivals)
      modifies this, timeManager, queryReceiver, resultSender, executor, executor.mq, executor.jobs.Values
      ensures passes <= n && (executor.IsContinue() || IsContinue() ==> passes == n)
      ensures !executor.IsContinue() && !IsContinue() ==> AllServed(c, arrivals, resultSender.results)
      ensures !executor.IsContinue() && !IsContinue() ==> arrivals == [] || CanServe(c, arrivals)
      ensures n >= |arrivals| + NumTasks(c, arrivals) && (arrivals == [] || CanServe(c, arrivals)) ==>
                !executor.IsContinue() && !IsContinue()
      ensures c.maxNumExecutingJobs == 0 ==> pending == arrivals && resultSender.results == map[]
    {
      hide Ok, Executor.JobsFiled, Executor.Is, AllServed, EventsOk, Between, Midway, CanServe, Hosts;
      hide OfflineServer.At, OfflineServer.AtStart;
      ghost var s := InitExecutor(arrivals);
      passes := 0;
      while passes < n && (executor.IsContinue() || IsContinue())
        invariant passes <= n && (arrivals == [] ==> !executor.IsContinue() && !IsContinue())
        invariant At(arrivals, s) && Between(c, arrivals, nextQueryId, s, timeManager.Events(), resultSender.results)
        invariant forall o :: o in executor.jobs.Values ==> fresh(o)
        invariant CanServe(c, arrivals) ==> passes + |timeManager.Events()| == |arrivals| + |s.h.started|
      {
        if CanServe(c, arrivals) { WorkIsLeft(arrivals, s); }
        s := Pass(arrivals, s);
        passes := passes + 1;
      }
      PassesLeft(arrivals, s);
      if !executor.IsContinue() && !IsContinue() {
        NothingIsLeft(arrivals, s);
      } else if CanServe(c, arrivals) {
        WorkIsLeft(arrivals, s);
      }
      if c.maxNumExecutingJobs == 0 {
        NoneTaken(arrivals, s);
      }
    }

    /** The arrivals that the announcements become. */
    ghost function ArrivalsOf(received: seq<Announcement>): seq<Arrival>
      requires CanStart(c, clients, received)
    {
      AnnouncedIsEnough(c, clients, received);
      Assign(SortBy(AnnouncedBefore(), received), FirstIds(clients, c.maxNumExecutingJobs), inputs)
    }

    /** A whole simulation, from the announcements in any order to the results. */
    method Start(received: seq<Announcement>) returns (ghost passes: nat)
      requires Wired() && CanStart(c, clients, received) && executor.mq.c == c
      requires nextQueryId == 0 && queryReceiver.queue == [] && queryReceiver.nextJid == 0
      requires timeManager.Valid() && timeManager.currentTime == 0 && timeManager.Events() == multiset{}
      requires resultSender.results == map[]
      modifies this, timeManager, queryReceiver, resultSender, executor, executor.mq, executor.jobs.Values
      ensures Deals(received, clients, inputs, ArrivalsOf(received))
      ensures AllServed(c, ArrivalsOf(received), resultSender.results)
      ensures passes <= |received| + NumTasks(c, ArrivalsOf(received))
    {
      hide CanServe, AllServed, EventsOk, CanStart, Enough, Assign, SortBy, Deals;
      AnnouncedIsEnough(c, clients, received);
      InitOfflineQueue(received);
      pending := ArrivalsOf(received);
      AssignedDeals(clients, c.maxNumExecutingJobs, inputs, received);
      ArrivalsInOrder(c, clients, inputs, received);
      passes := Run(pending);
    }
  }

  /** What a server must be like to serve what is announced: besides, it must have a
      client number for every query. */
  ghost predicate CanStart(c: Config, clients: map<nat, seq<nat>>, received: seq<Announcement>) {
    && c.WellFormed() && c.maxThreads > 0 && c.maxNumExecutingJobs > 0
    && (forall i :: 0 <= i < |received| ==> FitsMachine(c, received[i].appId))
    && (forall a :: a in clients ==> clients[a] != [])
    && forall a :: Count(received, a) <= |IdsOf(FirstIds(clients, c.maxNumExecutingJobs), a)|
  }

  lemma AnnouncedIsEnough(c: Config, clients: map<nat, seq<nat>>, received: seq<Announcement>)
    requires CanStart(c, clients, received)
    ensures forall a :: a in clients ==> clients[a] != []
    ensures Enough(SortBy(AnnouncedBefore(), received), FirstIds(clients, c.maxNumExecutingJobs))
    ensures |SortBy(AnnouncedBefore(), received)| == |received|
  {
    hide Config.WellFormed, FitsMachine, SortBy, Count, Enough;
    OrderIsEnough(clients, c.maxNumExecutingJobs, received);
  }

  lemma ArrivalsInOrder(c: Config, clients: map<nat, seq<nat>>, inputs: Inputs, received: seq<Announcement>)
    requires CanStart(c, clients, received)
    requires Enough(SortBy(AnnouncedBefore(), received), FirstIds(clients, c.maxNumExecutingJobs))
    ensures var queue := SortBy(AnnouncedBefore(), received);
            var arrivals := Assign(queue, FirstIds(clients, c.maxNumExecutingJobs), inputs);
            && |arrivals| == |received| && CanServe(c, arrivals)
            && EventsOk(0, multiset(Times(queue)), multiset{}, arrivals)
  {
    hide Config.WellFormed, FitsMachine, Enough, Assign, FirstIds, EventsOk, SortBy;
    var queue := SortBy(AnnouncedBefore(), received);
    assert |multiset(queue)| == |multiset(received)|;
    ArrivalsFit(c, received, queue, Assign(queue, FirstIds(clients, c.maxNumExecutingJobs), inputs));
    TimesAreEvents(queue, Assign(queue, FirstIds(clients, c.maxNumExecutingJobs), inputs));
  }

  lemma ArrivalsFit(c: Config, received: seq<Announcement>, queue: seq<Announcement>, arrivals: seq<Arrival>)
    requires c.WellFormed() && forall i :: 0 <= i < |received| ==> FitsMachine(c, received[i].appId)
    requires multiset(queue) == multiset(received) && |arrivals| == |queue|
    requires forall i :: 0 <= i < |arrivals| ==> arrivals[i].appId == queue[i].appId
    ensures forall i :: 0 <= i < |arrivals| ==> FitsMachine(c, arrivals[i].appId) && arrivals[i].appId in c.apps
  {
    hide Config.WellFormed;
    forall i | 0 <= i < |arrivals| ensures FitsMachine(c, arrivals[i].appId) {
      assert queue[i] in multiset(queue);
      var k :| 0 <= k < |received| && received[k] == queue[i];
    }
  }

  lemma KnownToHosts(c: Config, arrivals: seq<Arrival>)
    requires Hosts(c, arrivals)
    ensures c.WellFormed()
  {
  }

  lemma OneEventLess(now: nat, events: multiset<nat>, now2: nat, events2: multiset<nat>)
    requires Ticked(now, events, now2, events2)
    ensures |events2| == Upto(|events|)
  {
  }

  lemma StartsBetween(c: Config, arrivals: seq<Arrival>, events: multiset<nat>)
    requires Hosts(c, arrivals) && EventsOk(0, events, multiset{}, arrivals) && |events| == |arrivals|
    ensures var empty := State(History(map[], {}, {}), 0, 0, map[], multiset{}, multiset{}, multiset{});
            Between(c, arrivals, 0, empty, events, map[])
    ensures arrivals[0..] == arrivals
  {
    assert arrivals[0..] == arrivals;
  }

  lemma QueriesAreArrivals(arrivals: seq<Arrival>, k: nat, now: nat, pending: seq<Arrival>, queries: seq<Query>)
    requires k <= |arrivals| && pending == arrivals[k..] && |queries| <= |pending|
    requires forall i :: 0 <= i < |queries| ==>
              pending[i].time <= now && queries[i] == StartedAt(NewQuery(pending[i], k + i, k + i), now)
    ensures AreArrivals(arrivals, k, now, queries)
    ensures pending[|queries|..] == arrivals[k + |queries|..]
  {
  }

  lemma MidwayAdmitted(c: Config, arrivals: seq<Arrival>, k: nat, s: State, events: multiset<nat>,
                       results: map<ResultKey, JobState>)
    requires Midway(c, arrivals, k, s, events, results)
    ensures AdmittedFrom(c, arrivals, k, s.h.admitted) && Later(s.now, s.flight)
  {
  }

  lemma NothingNext(e: Executor, s: State)
    requires e.Safe(s, multiset{}) && e.mq.execNextQueue == []
    ensures s.next == multiset{}
  {
  }

  lemma HandedOutOnly(c: Config, s: State, u: State, before: seq<WMT>, after: seq<WMT>, given: seq<EMT>)
    requires HandedOut(c, s, u, before, after, given)
    ensures u == s.(waiting := u.waiting, next := u.next)
  {
  }

  /** What is launched is announced, and the server may go on to its next pass. */
  lemma AfterDispatch(c: Config, arrivals: seq<Arrival>, k: nat, s: State, t: State, before: seq<WMT>,
                      after: seq<WMT>, given: seq<EMT>, launched: seq<Running>, events: multiset<nat>,
                      results: map<ResultKey, JobState>)
    requires Hosts(c, arrivals) && Ok(c, s) && Midway(c, arrivals, k, s, events, results) && k <= |arrivals|
    requires NobodyWaitsInVain(c, s.now, arrivals[k..], |s.jobs|) && t.next == multiset{} && |launched| == |given|
    requires exists u :: HandedOut(c, s, u, before, after, given) && LaunchedSince(u, t, launched)
    ensures Between(c, arrivals, k, t, events + multiset(FinishTimes(launched)), results)
    ensures Midway(c, arrivals, k, t, events + multiset(FinishTimes(launched)), results)
    ensures |t.h.started| == |s.h.started| + |launched|
  {
    hide Ok, Midway, HandedOut, LaunchedSince, CanServe, Hosts, Busy, NobodyWaitsInVain;
    var u :| HandedOut(c, s, u, before, after, given) && LaunchedSince(u, t, launched);
    HandedOutOnly(c, s, u, before, after, given);
    MidwayAdmitted(c, arrivals, k, s, events, results);
    if CanServe(c, arrivals) {
      ServesSomebody(c, arrivals, k, s, u, t, before, after, given, launched);
    }
    DispatchIsBetween(c, arrivals, k, s, u, t, events, results, launched);
    LaunchedAreStarted(u, t, launched);
  }

  lemma LaunchedAreStarted(s: State, t: State, launched: seq<Running>)
    requires LaunchedSince(s, t, launched)
    ensures |t.h.started| == |s.h.started| + |launched|
  {
  }

  lemma HandedKeepsStarted(c: Config, s: State, t: State, jobs: seq<JobState>)
    requires Handed(c, s, t, jobs)
    ensures t.h.started == s.h.started && t.h.admitted == s.h.admitted && t.now == s.now && t.next == s.next
  {
  }

  lemma EventsNotPast(c: Config, arrivals: seq<Arrival>, k: nat, s: State, events: multiset<nat>,
                      results: map<ResultKey, JobState>)
    requires Between(c, arrivals, k, s, events, results)
    ensures forall x :: x in events ==> s.now <= x
  {
    assert Midway(c, arrivals, k, s, events, results);
  }

  function Times(s: seq<Announcement>): (r: seq<nat>)
    ensures |r| == |s| && forall i :: 0 <= i < |r| ==> r[i] == s[i].time
  {
    seq(|s|, i requires 0 <= i < |s| => s[i].time)
  }

  lemma TimesAppend(s: seq<Announcement>, i: nat)
    requires i < |s|
    ensures multiset(Times(s[..i + 1])) == multiset(Times(s[..i])) + multiset{s[i].time}
  {
    assert Times(s[..i + 1]) == Times(s[..i]) + [s[i].time];
  }

  lemma {:induction false} TimesCount(s: seq<Announcement>, a: seq<Arrival>, k: nat, t: nat)
    requires k <= |a| == |s| && forall i :: 0 <= i < |a| ==> a[i].time == s[i].time
    ensures Total(ArrivesAt(t), multiset(a[..k])) == multiset(Times(s[..k]))[t]
  {
    hide Total, Times, ArrivesAt;
    if k == 0 {
      NobodyArrives(s, a, t);
    } else {
      TimesCount(s, a, k - 1, t);
      OneMoreArrives(s, a, k - 1, t);
    }
  }

  lemma NobodyArrives(s: seq<Announcement>, a: seq<Arrival>, t: nat)
    ensures Total(ArrivesAt(t), multiset(a[..0])) == multiset(Times(s[..0]))[t]
  {
    assert multiset(a[..0]) == multiset{};
  }

  lemma OneMoreArrives(s: seq<Announcement>, a: seq<Arrival>, k: nat, t: nat)
    requires k < |a| == |s| && a[k].time == s[k].time
    ensures Total(ArrivesAt(t), multiset(a[..k + 1])) ==
              Total(ArrivesAt(t), multiset(a[..k])) + if s[k].time == t then 1 else 0
    ensures multiset(Times(s[..k + 1]))[t] == multiset(Times(s[..k]))[t] + if s[k].time == t then 1 else 0
  {
    hide Total, Times;
    TotalAppend(ArrivesAt(t), a[..k], a[k]);
    assert a[..k + 1] == a[..k] + [a[k]];
    TimesAppend(s, k);
  }

  lemma TimesAreEvents(s: seq<Announcement>, a: seq<Arrival>)
    requires |a| == |s| && forall i :: 0 <= i < |a| ==> a[i].time == s[i].time
    ensures EventsOk(0, multiset(Times(s)), multiset{}, a)
  {
    assert s[..|s|] == s && a[..|a|] == a;
    forall t: nat ensures multiset(Times(s))[t] == Total(ArrivesAt(t), multiset(a)) {
      TimesCount(s, a, |s|, t);
    }
  }
}
