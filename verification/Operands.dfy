/** Operands of a job and the homomorphic operations on them (Operation,
    OperandData, Scheme::execute).  What an operation computes is left open. */
module Operands {
  import opened Sequences
  import opened Graphs

  const TWO_TO_THE_64: nat := 0x1_0000_0000_0000_0000

  /** 64 bits: a size_t, or the bit pattern of a double. */
  type Word = w: nat | w < TWO_TO_THE_64

  datatype Plaintext = Plaintext(level: Word, data: seq<seq<Word>>)

  datatype Ciphertext = Ciphertext(length: Word, level: Word, data: seq<seq<seq<Word>>>)

  datatype OP =
    | COPY_PLAIN | COPY | ADD_PLAIN | ADD | SUB_PLAIN | SUB | MUL_PLAIN | MUL
    | SQUARE | RELINEARIZE | RESCALE | SMR_PLAIN | SMR | BOOTSTRAP | INVALID
  {
    /** The destination is a plaintext. */
    predicate WritesPlain() { COPY_PLAIN? || SMR_PLAIN? }

    predicate ReadsPlain() { COPY_PLAIN? || ADD_PLAIN? || SUB_PLAIN? || MUL_PLAIN? }

    predicate ReadsCipher() { COPY? || ADD? || SUB? || MUL? }
  }

  datatype Operation = Operation(op: OP, v0: int, v1: int)

  /** The writable operands, inputs first and then variables. */
  datatype Memory = Memory(pt: seq<Plaintext>, ct: seq<Ciphertext>)

  /** Sizes and contents of the constant operands, as one client has them. */
  datatype Constants = Constants(numPt: nat, numCt: nat, pt: seq<Plaintext>, ct: seq<Ciphertext>)

  /** The constant operands of an application: sizes are common, contents are kept
      by client (OperandDataConst). */
  datatype ConstantData = ConstantData(
    numPt: nat,
    numCt: nat,
    pt: map<nat, seq<Plaintext>>,
    ct: map<nat, seq<Ciphertext>>)
  {
    function For(clientId: nat): Constants {
      Constants(numPt, numCt, ForClient(pt, clientId), ForClient(ct, clientId))
    }
  }

  /** A client without constants of its own has those of client 0.  Where these are
      missing too, `at` throws at every index. */
  function ForClient<T>(data: map<nat, seq<T>>, clientId: nat): seq<T> {
    if clientId in data then data[clientId] else if 0 in data then data[0] else []
  }

  datatype Value = PlainValue(p: Plaintext) | CipherValue(c: Ciphertext)

  /** The operations themselves: None where one throws.  `aliased` tells that the
      source is the destination. */
  datatype Scheme = Scheme(
    plain: (OP, bool, Plaintext, Option<Value>) -> Option<Plaintext>,
    cipher: (OP, bool, Ciphertext, Option<Value>) -> Option<Ciphertext>)

  /** For a client whose scheme is not known, every operation throws. */
  const NO_SCHEME := Scheme((_, _, _, _) => None, (_, _, _, _) => None)

  /** A writable operand. */
  datatype Cell = PlainCell(i: int) | CipherCell(i: int)

  predicate InMemory(m: Memory, c: Cell) {
    match c
    case PlainCell(i) => 0 <= i < |m.pt|
    case CipherCell(i) => 0 <= i < |m.ct|
  }

  function Get(m: Memory, c: Cell): Value
    requires InMemory(m, c)
  {
    match c
    case PlainCell(i) => PlainValue(m.pt[i])
    case CipherCell(i) => CipherValue(m.ct[i])
  }

  /** OperandData::dst as an index into the writable operands. */
  function Target(k: Constants, o: Operation): Cell {
    if o.op.WritesPlain() then PlainCell(o.v0 - k.numPt) else CipherCell(o.v0 - k.numCt)
  }

  /** The writable operand that OperandData::src refers to, if it is not a constant. */
  function SourceCell(k: Constants, o: Operation): Option<Cell> {
    if o.op.ReadsPlain() && !(0 <= o.v1 < k.numPt) then Some(PlainCell(o.v1 - k.numPt))
    else if o.op.ReadsCipher() && !(0 <= o.v1 < k.numCt) then Some(CipherCell(o.v1 - k.numCt))
    else None
  }

  /** `at` accepts every index that the operation uses. */
  predicate Accessible(k: Constants, m: Memory, o: Operation) {
    && o.op != INVALID
    && InMemory(m, Target(k, o))
    && (match SourceCell(k, o)
        case Some(c) => InMemory(m, c)
        case None =>
          && (o.op.ReadsPlain() ==> o.v1 < |k.pt|)
          && (o.op.ReadsCipher() ==> o.v1 < |k.ct|))
  }

  function Source(k: Constants, m: Memory, o: Operation): Option<Value>
    requires Accessible(k, m, o)
  {
    match SourceCell(k, o)
    case Some(c) => Some(Get(m, c))
    case None =>
      if o.op.ReadsPlain() then Some(PlainValue(k.pt[o.v1]))
      else if o.op.ReadsCipher() then Some(CipherValue(k.ct[o.v1]))
      else None
  }

  /** Scheme::execute; None where it throws. */
  function Execute(s: Scheme, k: Constants, m: Memory, o: Operation): Option<Memory> {
    if !Accessible(k, m, o) then None else
      var aliased := SourceCell(k, o) == Some(Target(k, o));
      match Target(k, o)
      case PlainCell(i) =>
        (match s.plain(o.op, aliased, m.pt[i], Source(k, m, o))
         case None => None
         case Some(v) => Some(m.(pt := m.pt[i := v])))
      case CipherCell(i) =>
        (match s.cipher(o.op, aliased, m.ct[i], Source(k, m, o))
         case None => None
         case Some(v) => Some(m.(ct := m.ct[i := v])))
  }

  // ---- the switch of the source ----

  /** OperandData::src: constants first, then inputs and variables. */
  function PlainAt(k: Constants, m: Memory, i: int): Option<Plaintext> {
    if 0 <= i < k.numPt then if i < |k.pt| then Some(k.pt[i]) else None
    else if 0 <= i - k.numPt < |m.pt| then Some(m.pt[i - k.numPt]) else None
  }

  function CipherAt(k: Constants, m: Memory, i: int): Option<Ciphertext> {
    if 0 <= i < k.numCt then if i < |k.ct| then Some(k.ct[i]) else None
    else if 0 <= i - k.numCt < |m.ct| then Some(m.ct[i - k.numCt]) else None
  }

  /** The operation on the plaintext `v0`, if that is writable. */
  function IntoPlain(s: Scheme, k: Constants, m: Memory, o: Operation, aliased: bool,
                     source: Option<Value>): Option<Memory> {
    if !(k.numPt <= o.v0 < k.numPt + |m.pt|) then None else
      match s.plain(o.op, aliased, m.pt[o.v0 - k.numPt], source)
      case None => None
      case Some(v) => Some(Memory(m.pt[o.v0 - k.numPt := v], m.ct))
  }

  function IntoCipher(s: Scheme, k: Constants, m: Memory, o: Operation, aliased: bool,
                      source: Option<Value>): Option<Memory> {
    if !(k.numCt <= o.v0 < k.numCt + |m.ct|) then None else
      match s.cipher(o.op, aliased, m.ct[o.v0 - k.numCt], source)
      case None => None
      case Some(v) => Some(Memory(m.pt, m.ct[o.v0 - k.numCt := v]))
  }

  /** What each code does to which operand, and with which. */
  lemma ExecuteByCode(s: Scheme, k: Constants, m: Memory, o: Operation)
    ensures var p, c := PlainAt(k, m, o.v1), CipherAt(k, m, o.v1);
            Execute(s, k, m, o) ==
            match o.op
            case COPY_PLAIN =>
              if p.None? then None else IntoPlain(s, k, m, o, o.v0 == o.v1, Some(PlainValue(p.value)))
            case SMR_PLAIN => IntoPlain(s, k, m, o, false, None)
            case ADD_PLAIN => if p.None? then None else IntoCipher(s, k, m, o, false, Some(PlainValue(p.value)))
            case SUB_PLAIN => if p.None? then None else IntoCipher(s, k, m, o, false, Some(PlainValue(p.value)))
            case MUL_PLAIN => if p.None? then None else IntoCipher(s, k, m, o, false, Some(PlainValue(p.value)))
            case COPY => if c.None? then None else IntoCipher(s, k, m, o, o.v0 == o.v1, Some(CipherValue(c.value)))
            case ADD => if c.None? then None else IntoCipher(s, k, m, o, o.v0 == o.v1, Some(CipherValue(c.value)))
            case SUB => if c.None? then None else IntoCipher(s, k, m, o, o.v0 == o.v1, Some(CipherValue(c.value)))
            case MUL => if c.None? then None else IntoCipher(s, k, m, o, o.v0 == o.v1, Some(CipherValue(c.value)))
            case SQUARE => IntoCipher(s, k, m, o, false, None)
            case RELINEARIZE => IntoCipher(s, k, m, o, false, None)
            case RESCALE => IntoCipher(s, k, m, o, false, None)
            case SMR => IntoCipher(s, k, m, o, false, None)
            case BOOTSTRAP => IntoCipher(s, k, m, o, false, None)
            case INVALID => None
  {
  }

  /** Constants are those of the client, or of client 0 for a client without its own;
      where both are missing, none can be read.  No other client's are ever used. */
  lemma ConstantsByClient(d: ConstantData, clientId: nat, m: Memory, i: nat)
    ensures i < d.numPt ==>
              PlainAt(d.For(clientId), m, i) ==
              if clientId in d.pt then if i < |d.pt[clientId]| then Some(d.pt[clientId][i]) else None
              else if 0 in d.pt && i < |d.pt[0]| then Some(d.pt[0][i]) else None
    ensures i < d.numCt ==>
              CipherAt(d.For(clientId), m, i) ==
              if clientId in d.ct then if i < |d.ct[clientId]| then Some(d.ct[clientId][i]) else None
              else if 0 in d.ct && i < |d.ct[0]| then Some(d.ct[0][i]) else None
    ensures PlainAt(d.For(clientId), m, d.numPt + i) == if i < |m.pt| then Some(m.pt[i]) else None
    ensures CipherAt(d.For(clientId), m, d.numCt + i) == if i < |m.ct| then Some(m.ct[i]) else None
  {
  }

  /** Copies what it is given. */
  function Copying(): Scheme {
    Scheme((_, _, destination, source: Option<Value>) =>
             if source.Some? && source.value.PlainValue? then Some(source.value.p) else Some(destination),
           (_, _, destination, _) => Some(destination))
  }

  /** Constants belong to the client: with the same operands and the same scheme, one
      operation may leave two clients different operands. */
  lemma ClientsDiffer() returns (k: ConstantData, m: Memory, o: Operation)
    ensures Execute(Copying(), k.For(0), m, o).Some? && Execute(Copying(), k.For(1), m, o).Some?
    ensures Execute(Copying(), k.For(0), m, o) != Execute(Copying(), k.For(1), m, o)
  {
    k := ConstantData(1, 0, map[0 := [Plaintext(0, [])], 1 := [Plaintext(1, [])]], map[]);
    m := Memory([Plaintext(2, [])], []);
    o := Operation(COPY_PLAIN, 1, 0);
    assert Execute(Copying(), k.For(0), m, o).value.pt[0] == Plaintext(0, []);
    assert Execute(Copying(), k.For(1), m, o).value.pt[0] == Plaintext(1, []);
  }

  /** The operations of a macrotask one after the other. */
  function ExecuteAll(s: Scheme, k: Constants, m: Option<Memory>, ops: seq<Operation>): Option<Memory>
    decreases |ops|
  {
    if ops == [] || m == None then m else ExecuteAll(s, k, Execute(s, k, m.value, ops[0]), ops[1..])
  }

  ghost predicate Touches(k: Constants, o: Operation, c: Cell) {
    c == Target(k, o) || SourceCell(k, o) == Some(c)
  }

  /** Neither of two operations writes what the other reads or writes. */
  ghost predicate Disjoint(k: Constants, a: Operation, b: Operation) {
    !Touches(k, b, Target(k, a)) && !Touches(k, a, Target(k, b))
  }

  ghost predicate DisjointTasks(k: Constants, a: seq<Operation>, b: seq<Operation>) {
    forall x, y :: x in a && y in b ==> Disjoint(k, x, y)
  }

  /** `m2` is `m` with at most the cell `c` changed. */
  ghost predicate Differs(m: Memory, m2: Memory, c: Cell) {
    && |m.pt| == |m2.pt| && |m.ct| == |m2.ct|
    && forall d :: InMemory(m, d) && d != c ==> Get(m2, d) == Get(m, d)
  }

  lemma ExecuteFrame(s: Scheme, k: Constants, m: Memory, o: Operation)
    ensures Execute(s, k, m, o).Some? ==> Differs(m, Execute(s, k, m, o).value, Target(k, o))
  {
  }

  /** What an operation does depends on the cells it touches and on nothing else. */
  lemma ExecuteLocal(s: Scheme, k: Constants, m: Memory, m2: Memory, o: Operation, c: Cell)
    requires Differs(m, m2, c) && !Touches(k, o, c)
    ensures Execute(s, k, m, o).Some? <==> Execute(s, k, m2, o).Some?
    ensures Execute(s, k, m, o).Some? ==>
              && InMemory(m, Target(k, o))
              && Get(Execute(s, k, m, o).value, Target(k, o)) == Get(Execute(s, k, m2, o).value, Target(k, o))
  {
    assert Accessible(k, m, o) <==> Accessible(k, m2, o);
    if Accessible(k, m, o) {
      assert Get(m, Target(k, o)) == Get(m2, Target(k, o));
      assert Source(k, m, o) == Source(k, m2, o);
    }
  }

  lemma SameMemory(m: Memory, m2: Memory)
    requires |m.pt| == |m2.pt| && |m.ct| == |m2.ct|
    requires forall c :: InMemory(m, c) ==> Get(m, c) == Get(m2, c)
    ensures m == m2
  {
    forall i | 0 <= i < |m.pt| ensures m.pt[i] == m2.pt[i] { assert Get(m, PlainCell(i)) == Get(m2, PlainCell(i)); }
    forall i | 0 <= i < |m.ct| ensures m.ct[i] == m2.ct[i] { assert Get(m, CipherCell(i)) == Get(m2, CipherCell(i)); }
  }

  lemma ExecutePair(s: Scheme, k: Constants, m: Memory, a: Operation, b: Operation)
    ensures ExecuteAll(s, k, Some(m), [a, b]) ==
              match Execute(s, k, m, a) case Some(n) => Execute(s, k, n, b) case None => None
  {
    var ma := Execute(s, k, m, a);
    assert [a, b][1..] == [b];
    assert ExecuteAll(s, k, Some(m), [a, b]) == ExecuteAll(s, k, ma, [b]);
    if ma.Some? {
      assert ExecuteAll(s, k, ma, [b]) == ExecuteAll(s, k, Execute(s, k, ma.value, b), []);
    }
  }

  /** Two disjoint operations in either order: same outcome, same exception. */
  lemma DisjointCommute(s: Scheme, k: Constants, m: Memory, a: Operation, b: Operation)
    requires Disjoint(k, a, b)
    ensures ExecuteAll(s, k, Some(m), [a, b]) == ExecuteAll(s, k, Some(m), [b, a])
  {
    var ma, mb := Execute(s, k, m, a), Execute(s, k, m, b);
    ExecutePair(s, k, m, a, b);
    ExecutePair(s, k, m, b, a);
    ExecuteFrame(s, k, m, a);
    ExecuteFrame(s, k, m, b);
    if ma.Some? { ExecuteLocal(s, k, m, ma.value, b, Target(k, a)); }
    if mb.Some? { ExecuteLocal(s, k, m, mb.value, a, Target(k, b)); }
    if ma.Some? && mb.Some? {
      ExecuteFrame(s, k, ma.value, b);
      ExecuteFrame(s, k, mb.value, a);
      SameMemory(Execute(s, k, ma.value, b).value, Execute(s, k, mb.value, a).value);
    }
  }

  lemma {:induction false} ExecuteConcat(s: Scheme, k: Constants, m: Option<Memory>, a: seq<Operation>,
                                         b: seq<Operation>)
    ensures ExecuteAll(s, k, m, a + b) == ExecuteAll(s, k, ExecuteAll(s, k, m, a), b)
    decreases |a|
  {
    if a == [] {
      assert a + b == b;
    } else if m.Some? {
      ExecuteConcat(s, k, Execute(s, k, m.value, a[0]), a[1..], b);
      assert (a + b)[1..] == a[1..] + b;
    }
  }

  lemma {:induction false} OperationCommutes(s: Scheme, k: Constants, m: Option<Memory>, x: Operation,
                                             b: seq<Operation>)
    requires forall y :: y in b ==> Disjoint(k, x, y)
    ensures ExecuteAll(s, k, m, [x] + b) == ExecuteAll(s, k, m, b + [x])
    decreases |b|
  {
    if b == [] {
      assert [x] + b == b + [x];
    } else if m.Some? {
      var y := b[0];
      DisjointCommute(s, k, m.value, x, y);
      ExecuteConcat(s, k, m, [x, y], b[1..]);
      ExecuteConcat(s, k, m, [y, x], b[1..]);
      assert [x] + b == [x, y] + b[1..];
      assert [y] + ([x] + b[1..]) == [y, x] + b[1..];
      ExecuteConcat(s, k, m, [y], [x] + b[1..]);
      OperationCommutes(s, k, ExecuteAll(s, k, m, [y]), x, b[1..]);
      ExecuteConcat(s, k, m, [y], b[1..] + [x]);
      assert [y] + (b[1..] + [x]) == b + [x];
    }
  }

  /** Disjoint macrotasks commute. */
  lemma {:induction false} TasksCommute(s: Scheme, k: Constants, m: Option<Memory>, a: seq<Operation>,
                                        b: seq<Operation>)
    requires DisjointTasks(k, a, b)
    ensures ExecuteAll(s, k, m, a + b) == ExecuteAll(s, k, m, b + a)
    decreases |a|
  {
    if a == [] {
      assert a + b == b == b + a;
    } else {
      var x, rest := a[0], a[1..];
      assert a + b == [x] + (rest + b);
      ExecuteConcat(s, k, m, [x], rest + b);
      TasksCommute(s, k, ExecuteAll(s, k, m, [x]), rest, b);
      ExecuteConcat(s, k, m, [x], b + rest);
      assert [x] + (b + rest) == ([x] + b) + rest;
      ExecuteConcat(s, k, m, [x] + b, rest);
      OperationCommutes(s, k, m, x, b);
      ExecuteConcat(s, k, m, b + [x], rest);
      assert (b + [x]) + rest == b + a;
    }
  }

  /** Every entry of `order` is a macrotask. */
  ghost predicate Names(tasks: seq<seq<Operation>>, order: seq<nat>) {
    forall i :: 0 <= i < |order| ==> order[i] < |tasks|
  }

  /** Macrotasks in the given order. */
  function ExecuteOrder(s: Scheme, k: Constants, tasks: seq<seq<Operation>>, m: Option<Memory>,
                        order: seq<nat>): Option<Memory>
    requires forall i :: 0 <= i < |order| ==> order[i] < |tasks|
    decreases |order|
  {
    if order == [] then m else ExecuteOrder(s, k, tasks, ExecuteAll(s, k, m, tasks[order[0]]), order[1..])
  }

  lemma {:induction false} OrderConcat(s: Scheme, k: Constants, tasks: seq<seq<Operation>>, m: Option<Memory>,
                                       a: seq<nat>, b: seq<nat>)
    requires Names(tasks, a) && Names(tasks, b)
    ensures ExecuteOrder(s, k, tasks, m, a + b) == ExecuteOrder(s, k, tasks, ExecuteOrder(s, k, tasks, m, a), b)
    decreases |a|
  {
    if a == [] {
      assert a + b == b;
    } else {
      assert (a + b)[1..] == a[1..] + b;
      OrderConcat(s, k, tasks, ExecuteAll(s, k, m, tasks[a[0]]), a[1..], b);
    }
  }

  /** Macrotasks that no path of the graph orders do not interfere. */
  ghost predicate Independent(k: Constants, g: Graph, tasks: seq<seq<Operation>>) {
    forall u: nat, v: nat :: u < |tasks| && v < |tasks| && u != v && !g.Before(u, v) && !g.Before(v, u) ==>
      DisjointTasks(k, tasks[u], tasks[v])
  }

  /** No macrotask comes before one it depends on, and none comes twice. */
  ghost predicate Respects(g: Graph, order: seq<nat>) {
    && (forall i, j :: 0 <= i < j < |order| ==> order[i] != order[j])
    && (forall i, j :: 0 <= i < j < |order| ==> !g.Before(order[j], order[i]))
  }

  lemma {:induction false} MoveToFront(s: Scheme, k: Constants, tasks: seq<seq<Operation>>, m: Option<Memory>,
                                       a: seq<nat>, x: nat)
    requires x < |tasks| && Names(tasks, a) && forall i :: 0 <= i < |a| ==> DisjointTasks(k, tasks[x], tasks[a[i]])
    ensures ExecuteOrder(s, k, tasks, m, a + [x]) == ExecuteOrder(s, k, tasks, m, [x] + a)
    decreases |a|
  {
    if a == [] {
      assert a + [x] == [x] + a;
    } else {
      var y, rest := a[0], a[1..];
      var my := ExecuteAll(s, k, m, tasks[y]);
      assert (a + [x])[1..] == rest + [x];
      MoveToFront(s, k, tasks, my, rest, x);
      assert ([x] + rest)[1..] == rest;
      assert ([x] + a)[1..] == a;
      ExecuteConcat(s, k, m, tasks[y], tasks[x]);
      ExecuteConcat(s, k, m, tasks[x], tasks[y]);
      TasksCommute(s, k, m, tasks[x], tasks[y]);
    }
  }

  /** Whatever order respects the graph, the operands come out the same. */
  lemma {:induction false} OrderIrrelevant(s: Scheme, k: Constants, g: Graph, tasks: seq<seq<Operation>>,
                                           m: Option<Memory>, a: seq<nat>, b: seq<nat>)
    requires Independent(k, g, tasks)
    requires multiset(a) == multiset(b)
    requires Respects(g, a) && Respects(g, b)
    requires Names(tasks, a) && Names(tasks, b)
    ensures ExecuteOrder(s, k, tasks, m, a) == ExecuteOrder(s, k, tasks, m, b)
    decreases |a|
  {
    if a == [] {
      assert |multiset(a)| == |multiset(b)|;
    } else {
      var i := SameHead(a, b);
      var x := b[0];
      forall j | 0 <= j < i ensures DisjointTasks(k, tasks[x], tasks[a[j]]) {
        FrontIndependent(k, g, tasks, a, b, i, j);
      }
      BringToFront(s, k, tasks, m, a, i);
      assert ([x] + RemoveAt(a, i))[1..] == RemoveAt(a, i);
      RemoveRespects(g, tasks, a, i);
      RemoveRespects(g, tasks, b, 0);
      assert RemoveAt(b, 0) == b[1..];
      OrderIrrelevant(s, k, g, tasks, ExecuteAll(s, k, m, tasks[x]), RemoveAt(a, i), b[1..]);
    }
  }

  lemma SameHead(a: seq<nat>, b: seq<nat>) returns (i: nat)
    requires multiset(a) == multiset(b) && a != []
    ensures b != [] && i < |a| && a[i] == b[0]
  {
    assert |multiset(a)| == |multiset(b)|;
    assert b[0] in multiset(a);
    i :| 0 <= i < |a| && a[i] == b[0];
  }

  lemma RemoveRespects(g: Graph, tasks: seq<seq<Operation>>, a: seq<nat>, i: nat)
    requires Respects(g, a) && Names(tasks, a) && i < |a|
    ensures Respects(g, RemoveAt(a, i)) && Names(tasks, RemoveAt(a, i))
  {
    hide RemoveAt, Graph.Before;
    var r := RemoveAt(a, i);
    forall p | 0 <= p < |r| ensures r[p] < |tasks| { LeftAt(a, i, p); }
    forall p, q | 0 <= p < q < |r| ensures r[p] != r[q] && !g.Before(r[q], r[p]) {
      LeftAt(a, i, p);
      LeftAt(a, i, q);
    }
  }

  lemma LeftAt(a: seq<nat>, i: nat, p: nat)
    requires i < |a| && p < |a| - 1
    ensures RemoveAt(a, i)[p] == a[if p < i then p else p + 1]
  {
  }

  lemma BringToFront(s: Scheme, k: Constants, tasks: seq<seq<Operation>>, m: Option<Memory>, a: seq<nat>, i: nat)
    requires Names(tasks, a) && i < |a| && forall j :: 0 <= j < i ==> DisjointTasks(k, tasks[a[i]], tasks[a[j]])
    ensures ExecuteOrder(s, k, tasks, m, a) == ExecuteOrder(s, k, tasks, m, [a[i]] + RemoveAt(a, i))
  {
    var x, front, back := a[i], a[..i], a[i + 1..];
    assert a == (front + [x]) + back;
    assert ([x] + front) + back == [x] + RemoveAt(a, i);
    OrderConcat(s, k, tasks, m, front + [x], back);
    MoveToFront(s, k, tasks, m, front, x);
    OrderConcat(s, k, tasks, m, [x] + front, back);
  }

  lemma FrontIndependent(k: Constants, g: Graph, tasks: seq<seq<Operation>>, a: seq<nat>, b: seq<nat>, i: nat, j: nat)
    requires Independent(k, g, tasks) && multiset(a) == multiset(b) && Respects(g, a) && Respects(g, b)
    requires Names(tasks, a)
    requires j < i < |a| && b != [] && a[i] == b[0]
    ensures DisjointTasks(k, tasks[a[i]], tasks[a[j]])
  {
    assert a[j] in multiset(b);
    var p :| 0 <= p < |b| && b[p] == a[j];
    assert p > 0;
  }
}
