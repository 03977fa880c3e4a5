/** The smallest server there can be: the requirements of a run can be met. */
module Example {
  import opened Sequences
  import opened Graphs
  import opened Operands
  import opened Tasks
  import opened Machine
  import opened Serving
  import opened Clients
  import opened Servers

  /** One macrotask without operations: 8 units of time on one thread, 5 on two. */
  function Tiny(k: ConstantData): Application {
    Application(Graph([[1], []], [{}, {0}], {1}), [0, 1], [Info([0], [], 0), Info([0, 8, 5], [(0.8, 2), (1.0, 1)], 8)],
                8,
                [[], []], k, 0, 0)
  }

  function TinyConfig(k: ConstantData, schemes: map<(nat, nat), Scheme>): Config {
    Config(map[1 := Tiny(k)], 2, 1, Fifo, Bits2020, schemes)
  }

  lemma TinyGraph(k: ConstantData)
    ensures Tiny(k).graph.WellFormed()
  {
    assert Tiny(k).graph.Ranked([0, 1]);
  }

  lemma TinyIsWellFormed(k: ConstantData, schemes: map<(nat, nat), Scheme>)
    ensures TinyConfig(k, schemes).WellFormed()
  {
    var a := Tiny(k);
    TinyGraph(k);
    hide Graph.WellFormed;
    assert a.info[1].candidates[0] == (0.8, 2) && a.info[1].candidates[1] == (1.0, 1);
    assert a.WellFormed();
    assert a.Resizable() && a.Elastic();
  }

  /** It serves one query in at most two passes. */
  method ServeOne(k: ConstantData, schemes: map<(nat, nat), Scheme>, t: nat) returns (r: JobState, ghost passes: nat)
    ensures passes <= 2
    ensures r.query.receivedTime == t <= r.query.startTime <= r.query.finishTime
    ensures |r.log| == 2 && (r.log[1].1 == r.log[1].0 + 8 || r.log[1].1 == r.log[1].0 + 5)
  {
    var c := TinyConfig(k, schemes);
    TinyIsWellFormed(k, schemes);
    hide Config.WellFormed, OperandsDelivered;
    var announced := [Announcement(t, 1)];
    var clients: map<nat, seq<nat>> := map[1 := [0]];
    var server := new OfflineServer(c, clients, (_, _) => ([], []));
    OneIsEnough(c, t);
    ghost var arrivals := server.ArrivalsOf(announced);
    passes := server.Start(announced);
    assert SortBy(AnnouncedBefore(), announced) == announced;
    assert arrivals == [Arrival(t, 1, 0, [], [])];
    assert NumTasks(c, arrivals) == NumTasks(c, []) + 1;
    assert Served(c, arrivals[0], 0, server.resultSender.results);
    r := server.resultSender.results[(1, 0, 0)];
    assert Timed(c, r.query, 1, r.log[1]);
  }

  lemma OneIsEnough(c: Config, t: nat)
    requires c.WellFormed() && c.maxThreads > 0 && c.maxNumExecutingJobs == 1 && FitsMachine(c, 1)
    ensures CanStart(c, map[1 := [0]], [Announcement(t, 1)])
  {
    var clients: map<nat, seq<nat>> := map[1 := [0]];
    assert FirstIds(clients, 1)[1] == [0];
    forall a ensures Count([Announcement(t, 1)], a) <= |IdsOf(FirstIds(clients, 1), a)| {
      assert Count([], a) == 0;
    }
  }
}
