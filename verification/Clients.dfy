/** Where the queries of a simulation get their client numbers and inputs from
    (OfflineServer::get_client_id, receive_query, init_offline_queue). */
module Clients {
  import opened Sequences
  import opened Operands
  import opened Serving

  /** What is known of a query beforehand: when it comes and for which application. */
  datatype Announcement = Announcement(time: nat, appId: nat)

  /** By time, then by application. */
  function AnnouncedBefore(): (Announcement, Announcement) -> bool {
    (a: Announcement, b: Announcement) => a.time < b.time || (a.time == b.time && a.appId < b.appId)
  }

  /** next_client_id_: for each application the client numbers to be used next. */
  type ClientIds = map<nat, seq<nat>>

  /** The inputs of each application's clients. */
  type Inputs = (nat, nat) -> (seq<Plaintext>, seq<Ciphertext>)

  function IdsOf(ids: ClientIds, appId: nat): seq<nat> { if appId in ids then ids[appId] else [] }

  /** The first client number of the application is used up. */
  function Taken(ids: ClientIds, appId: nat): ClientIds
    requires IdsOf(ids, appId) != []
  {
    ids[appId := ids[appId][1..]]
  }

  /** No query finds the client numbers of its application used up. */
  predicate Enough(queue: seq<Announcement>, ids: ClientIds)
    decreases |queue|
  {
    queue == [] || (IdsOf(ids, queue[0].appId) != [] && Enough(queue[1..], Taken(ids, queue[0].appId)))
  }

  /** The query that the announcement becomes. */
  function Assigned(a: Announcement, ids: ClientIds, inputs: Inputs): Arrival
    requires IdsOf(ids, a.appId) != []
  {
    var client := ids[a.appId][0];
    Arrival(a.time, a.appId, client, inputs(a.appId, client).0, inputs(a.appId, client).1)
  }

  /** The queue as it will be received. */
  function Assign(queue: seq<Announcement>, ids: ClientIds, inputs: Inputs): (r: seq<Arrival>)
    requires Enough(queue, ids)
    ensures |r| == |queue|
    ensures forall i :: 0 <= i < |r| ==> r[i].time == queue[i].time && r[i].appId == queue[i].appId
    decreases |queue|
  {
    if queue == [] then [] else
      [Assigned(queue[0], ids, inputs)] + Assign(queue[1..], Taken(ids, queue[0].appId), inputs)
  }

  /** How many queries of the application are announced. */
  function Count(queue: seq<Announcement>, appId: nat): nat {
    if queue == [] then 0 else (if queue[0].appId == appId then 1 else 0) + Count(queue[1..], appId)
  }

  /** The client numbers last if and only if no application has more queries than it
      has numbers, whatever their order. */
  lemma {:induction false} EnoughIff(queue: seq<Announcement>, ids: ClientIds)
    ensures Enough(queue, ids) <==> forall a :: Count(queue, a) <= |IdsOf(ids, a)|
    decreases |queue|
  {
    if queue != [] {
      var app := queue[0].appId;
      assert Count(queue, app) >= 1;
      if IdsOf(ids, app) != [] {
        var rest := Taken(ids, app);
        EnoughIff(queue[1..], rest);
        forall a ensures Count(queue, a) <= |IdsOf(ids, a)| <==> Count(queue[1..], a) <= |IdsOf(rest, a)| {
          assert |IdsOf(rest, a)| == |IdsOf(ids, a)| - if a == app then 1 else 0;
        }
      }
    }
  }

  lemma {:induction false} CountIsCount(queue: seq<Announcement>, appId: nat)
    ensures Count(queue, appId) == Total(IsFor(appId), multiset(queue))
  {
    if queue == [] {
      assert multiset(queue) == multiset{};
    } else {
      CountIsCount(queue[1..], appId);
      assert queue == [queue[0]] + queue[1..];
      TotalAdd(IsFor(appId), multiset(queue[1..]), queue[0]);
      assert multiset(queue) == multiset(queue[1..]) + multiset{queue[0]};
    }
  }

  function IsFor(appId: nat): Announcement -> nat { (a: Announcement) => if a.appId == appId then 1 else 0 }

  /** The `i`-th query gets as many numbers further down the list of its application as
      queries of the application come before it, and that client's inputs. */
  lemma {:induction false} AssignedInTurn(queue: seq<Announcement>, ids: ClientIds, inputs: Inputs, i: nat)
    requires Enough(queue, ids) && i < |queue|
    ensures var app, n := queue[i].appId, Count(queue[..i], queue[i].appId);
            && n < |IdsOf(ids, app)| && Assign(queue, ids, inputs)[i].clientId == IdsOf(ids, app)[n]
            && Assign(queue, ids, inputs)[i].pt == inputs(app, IdsOf(ids, app)[n]).0
            && Assign(queue, ids, inputs)[i].ct == inputs(app, IdsOf(ids, app)[n]).1
    decreases i
  {
    hide Enough, Assign, Count, IdsOf, Taken;
    if i == 0 {
      AssignFirst(queue, ids, inputs);
    } else {
      AssignLater(queue, ids, inputs, i);
      AssignedInTurn(queue[1..], Taken(ids, queue[0].appId), inputs, i - 1);
      CountOneMore(queue, i, queue[i].appId);
      TakenFrom(ids, queue[0].appId, queue[i].appId);
    }
  }

  lemma TakenFrom(ids: ClientIds, taken: nat, appId: nat)
    requires IdsOf(ids, taken) != []
    ensures IdsOf(Taken(ids, taken), appId) == if appId == taken then IdsOf(ids, appId)[1..] else IdsOf(ids, appId)
  {
  }

  lemma AssignFirst(queue: seq<Announcement>, ids: ClientIds, inputs: Inputs)
    requires Enough(queue, ids) && queue != []
    ensures IdsOf(ids, queue[0].appId) != [] && Count(queue[..0], queue[0].appId) == 0
    ensures var client := IdsOf(ids, queue[0].appId)[0];
            Assign(queue, ids, inputs)[0] ==
              Arrival(queue[0].time, queue[0].appId, client, inputs(queue[0].appId, client).0,
                      inputs(queue[0].appId, client).1)
  {
  }

  lemma CountOneMore(queue: seq<Announcement>, i: nat, appId: nat)
    requires 0 < i <= |queue|
    ensures Count(queue[..i], appId) == (if queue[0].appId == appId then 1 else 0) + Count(queue[1..][..i - 1], appId)
  {
    assert queue[..i][1..] == queue[1..][..i - 1];
  }

  lemma AssignLater(queue: seq<Announcement>, ids: ClientIds, inputs: Inputs, i: nat)
    requires Enough(queue, ids) && 0 < i < |queue|
    ensures IdsOf(ids, queue[0].appId) != [] && Enough(queue[1..], Taken(ids, queue[0].appId))
    ensures Assign(queue, ids, inputs)[i] == Assign(queue[1..], Taken(ids, queue[0].appId), inputs)[i - 1]
  {
  }

  // ---- how many client numbers there are ----

  /** The list is repeated until there are as many numbers as jobs may be executed. */
  function FilledUp(clients: seq<nat>, ids: seq<nat>, limit: nat): seq<nat>
    requires clients != [] || limit <= |ids|
    decreases limit - |ids|
  {
    if |ids| >= limit then ids else FilledUp(clients, ids + clients, limit)
  }

  function Copies(clients: seq<nat>, k: nat): seq<nat> {
    if k == 0 then [] else Copies(clients, k - 1) + clients
  }

  /** Whole lists, as few as are enough. */
  lemma {:induction false} FilledUpIs(clients: seq<nat>, k: nat, limit: nat) returns (m: nat)
    requires clients != []
    ensures m >= k && FilledUp(clients, Copies(clients, k), limit) == Copies(clients, m)
    ensures |Copies(clients, m)| >= limit && (m == k || |Copies(clients, m - 1)| < limit)
    decreases limit - |Copies(clients, k)|
  {
    m := k;
    if |Copies(clients, k)| < limit {
      m := FilledUpIs(clients, k + 1, limit);
    }
  }

  /** Client numbers come round and round. */
  lemma {:induction false} CopiesGoRound(clients: seq<nat>, m: nat, n: nat)
    requires clients != [] && n < |Copies(clients, m)|
    ensures Copies(clients, m)[n] == clients[n % |clients|]
  {
    CopiesSize(clients, m - 1);
    if n < |Copies(clients, m - 1)| {
      CopiesGoRound(clients, m - 1, n);
    } else {
      Remainder(m - 1, |clients|, n - (m - 1) * |clients|);
    }
  }

  lemma {:induction false} CopiesSize(clients: seq<nat>, m: nat)
    ensures |Copies(clients, m)| == m * |clients|
  {
    if m > 0 { CopiesSize(clients, m - 1); }
  }

  lemma Remainder(q: nat, d: nat, r: nat)
    requires r < d
    ensures (q * d + r) % d == r
  {
    var x := q * d + r;
    assert x == d * (x / d) + x % d;
    var k := q - x / d;
    assert k * d == x % d - r;
    AwayFromZero(k, d);
  }

  lemma AwayFromZero(k: int, d: nat)
    ensures (k >= 1 ==> k * d >= d) && (k <= -1 ==> k * d + d <= 0)
  {
    if k >= 1 { assert k * d == d + (k - 1) * d; }
    if k <= -1 { assert k * d + d == (k + 1) * d; }
  }

  /** The client numbers that a simulation starts with. */
  function FirstIds(clients: map<nat, seq<nat>>, limit: nat): ClientIds
    requires forall a :: a in clients ==> clients[a] != []
  {
    map a | a in clients :: FilledUp(clients[a], clients[a], limit)
  }

  /** The client numbers of one application are used up by more queries than there are
      clients, if no more than that many jobs may be executed. */
  lemma IdsRunOut(clients: map<nat, seq<nat>>, limit: nat, queue: seq<Announcement>, a: nat)
    requires (forall b :: b in clients ==> clients[b] != []) && a in clients && limit <= |clients[a]|
    requires Count(queue, a) > |clients[a]|
    ensures !Enough(queue, FirstIds(clients, limit))
  {
    EnoughIff(queue, FirstIds(clients, limit));
    assert IdsOf(FirstIds(clients, limit), a) == clients[a];
  }

  function AnnouncementsOf(arrivals: seq<Arrival>): (r: seq<Announcement>)
    ensures |r| == |arrivals|
    ensures forall i :: 0 <= i < |r| ==> r[i] == Announcement(arrivals[i].time, arrivals[i].appId)
  {
    seq(|arrivals|, i requires 0 <= i < |arrivals| => Announcement(arrivals[i].time, arrivals[i].appId))
  }

  /** The arrivals are what was announced, earlier ones first and at one time by
      application; each has a client of its application, all of them in turn, and that
      client's inputs. */
  ghost predicate Deals(received: seq<Announcement>, clients: map<nat, seq<nat>>, inputs: Inputs,
                        arrivals: seq<Arrival>) {
    && multiset(AnnouncementsOf(arrivals)) == multiset(received)
    && (forall i, j :: 0 <= i < j < |arrivals| ==>
          || arrivals[i].time < arrivals[j].time
          || (arrivals[i].time == arrivals[j].time && arrivals[i].appId <= arrivals[j].appId))
    && forall i :: 0 <= i < |arrivals| ==> Dealt(clients, inputs, arrivals, i)
  }

  ghost predicate Dealt(clients: map<nat, seq<nat>>, inputs: Inputs, arrivals: seq<Arrival>, i: nat)
    requires i < |arrivals|
  {
    var a := arrivals[i];
    && a.appId in clients && clients[a.appId] != []
    && a.clientId == clients[a.appId][Count(AnnouncementsOf(arrivals[..i]), a.appId) % |clients[a.appId]|]
    && a.pt == inputs(a.appId, a.clientId).0 && a.ct == inputs(a.appId, a.clientId).1
  }

  lemma AnnouncedInOrder(received: seq<Announcement>)
    ensures var queue := SortBy(AnnouncedBefore(), received);
            forall i, j :: 0 <= i < j < |queue| ==>
              || queue[i].time < queue[j].time
              || (queue[i].time == queue[j].time && queue[i].appId <= queue[j].appId)
  {
    hide SortBy;
    SortBySorted(AnnouncedBefore(), received);
    var queue := SortBy(AnnouncedBefore(), received);
    forall i, j | 0 <= i < j < |queue| ensures !AnnouncedBefore()(queue[j], queue[i]) {}
  }

  /** The queue of a simulation deals like that. */
  lemma AssignedDeals(clients: map<nat, seq<nat>>, limit: nat, inputs: Inputs, received: seq<Announcement>)
    requires forall a :: a in clients ==> clients[a] != []
    requires Enough(SortBy(AnnouncedBefore(), received), FirstIds(clients, limit))
    ensures Deals(received, clients, inputs,
                  Assign(SortBy(AnnouncedBefore(), received), FirstIds(clients, limit), inputs))
  {
    hide SortBy, Enough, Assign, Dealt;
    var queue := SortBy(AnnouncedBefore(), received);
    var arrivals := Assign(queue, FirstIds(clients, limit), inputs);
    AnnouncedInOrder(received);
    assert AnnouncementsOf(arrivals) == queue;
    forall i | 0 <= i < |arrivals| ensures Dealt(clients, inputs, arrivals, i) {
      AssignedIsDealt(clients, limit, inputs, queue, i);
    }
  }

  lemma AssignedIsDealt(clients: map<nat, seq<nat>>, limit: nat, inputs: Inputs, queue: seq<Announcement>, i: nat)
    requires (forall a :: a in clients ==> clients[a] != []) && Enough(queue, FirstIds(clients, limit)) && i < |queue|
    ensures Dealt(clients, inputs, Assign(queue, FirstIds(clients, limit), inputs), i)
  {
    hide Enough, Assign, Count, Copies, FilledUp;
    var ids := FirstIds(clients, limit);
    var arrivals := Assign(queue, ids, inputs);
    var app := queue[i].appId;
    AssignedInTurn(queue, ids, inputs, i);
    assert AnnouncementsOf(arrivals[..i]) == queue[..i];
    var m := FilledUpIs(clients[app], 1, limit);
    OneCopy(clients[app]);
    CopiesGoRound(clients[app], m, Count(queue[..i], app));
  }

  lemma OneCopy(clients: seq<nat>)
    ensures Copies(clients, 1) == clients
  {
    assert Copies(clients, 0) == [];
  }

  /** Whether there are enough does not depend on the order. */
  lemma OrderIsEnough(clients: map<nat, seq<nat>>, limit: nat, received: seq<Announcement>)
    requires forall a :: a in clients ==> clients[a] != []
    requires forall a :: Count(received, a) <= |IdsOf(FirstIds(clients, limit), a)|
    ensures Enough(SortBy(AnnouncedBefore(), received), FirstIds(clients, limit))
    ensures |SortBy(AnnouncedBefore(), received)| == |received|
    ensures SortedBy(AnnouncedBefore(), SortBy(AnnouncedBefore(), received))
  {
    hide SortBy, Count, Enough, FirstIds;
    var queue := SortBy(AnnouncedBefore(), received);
    SortBySorted(AnnouncedBefore(), received);
    assert |multiset(queue)| == |multiset(received)|;
    forall a ensures Count(queue, a) == Count(received, a) {
      CountIsCount(queue, a);
      CountIsCount(received, a);
    }
    EnoughIff(queue, FirstIds(clients, limit));
  }
}
