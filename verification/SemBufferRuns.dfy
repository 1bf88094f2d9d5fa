/** The bounded buffer of Examples/ex5.c over the semaphores of semaphore.c: the producer
    and the consumer call sem_wait and sem_post, and every step of those calls, shared
    read, swap, suspend or restart, interleaves with every statement of the other
    thread. The program refines the counter program of SemBuffer.dfy. */
module SemBufferRuns {
  import opened Words
  import opened Circular
  import S = Semaphore
  import SW = SemaphoreWakeups
  import SC = SemaphoreCounter
  import B = SemBuffer

  const PRODUCER: Tid := 2
  const CONSUMER: Tid := 4
  const READ: S.Sid := 0     // sem_read
  const WRITE: S.Sid := 1    // sem_write

  datatype Producer = Outside | PutWait(d: int) | Store(d: int) | Advance | Wrap | PutPost
  datatype Consumer = Away | GetWait | Load | Forward | Back | GetPost

  datatype State = State(
    sem: S.State, buffer: seq<int>, readpos: nat, writepos: nat,
    prod: Producer, cons: Consumer,
    put: seq<int>, got: seq<int>)

  datatype Move = Produce(d: int) | Consume

  /** init: nothing to read, BUFFER_SIZE - 1 locations to write. */
  const SEM0 := S.State(map[READ := 1, WRITE := 2 * (BUFFER_SIZE - 1) + 1], map[], map[], {})
  const INITIAL := State(SEM0, B.INITIAL.buffer, 0, 0, Outside, Away, [], [])

  predicate Enabled(c: State, mv: Move) {
    match mv
    case Produce(_) =>
      && (c.prod.PutWait? || c.prod == PutPost ==> S.Enabled(c.sem, PRODUCER))
      && (c.prod.Store? ==> c.writepos < |c.buffer|)
    case Consume =>
      && (c.cons == GetWait || c.cons == GetPost ==> S.Enabled(c.sem, CONSUMER))
      && (c.cons == Load ==> c.readpos < |c.buffer|)
  }

  /** What the thread that moves does to the semaphores, if it is inside a call. */
  function SemCall(c: State, mv: Move): seq<S.Move> {
    match mv
    case Produce(_) =>
      if c.prod.PutWait? then [S.Move(PRODUCER, S.Wait(WRITE))]
      else if c.prod == PutPost then [S.Move(PRODUCER, S.Post(READ))]
      else []
    case Consume =>
      if c.cons == GetWait then [S.Move(CONSUMER, S.Wait(READ))]
      else if c.cons == GetPost then [S.Move(CONSUMER, S.Post(WRITE))]
      else []
  }

  function SemStep(c: State, mv: Move): S.State
    requires Enabled(c, mv)
  {
    var m := SemCall(c, mv);
    if m == [] then c.sem else S.Step(c.sem, m[0].t, m[0].call)
  }

  /** One statement, or one step of a call; a call is over when its thread is idle. */
  function Step(c: State, mv: Move): State
    requires Enabled(c, mv)
  {
    var s := SemStep(c, mv);
    match mv
    case Produce(d) =>
      (match c.prod
       case Outside => c.(prod := PutWait(d))
       case PutWait(x) => c.(sem := s, prod := if s.Pc(PRODUCER) == S.Idle then Store(x) else c.prod)
       case Store(x) => c.(buffer := c.buffer[c.writepos := x], put := c.put + [x], prod := Advance)
       case Advance => c.(writepos := c.writepos + 1, prod := Wrap)
       case Wrap => c.(writepos := if c.writepos >= BUFFER_SIZE then 0 else c.writepos, prod := PutPost)
       case PutPost => c.(sem := s, prod := if s.Pc(PRODUCER) == S.Idle then Outside else c.prod))
    case Consume =>
      (match c.cons
       case Away => c.(cons := GetWait)
       case GetWait => c.(sem := s, cons := if s.Pc(CONSUMER) == S.Idle then Load else c.cons)
       case Load => c.(got := c.got + [c.buffer[c.readpos]], cons := Forward)
       case Forward => c.(readpos := c.readpos + 1, cons := Back)
       case Back => c.(readpos := if c.readpos >= BUFFER_SIZE then 0 else c.readpos, cons := GetPost)
       case GetPost => c.(sem := s, cons := if s.Pc(CONSUMER) == S.Idle then Away else c.cons))
  }

  ghost predicate Legal(ms: seq<Move>) {
    ms == [] || (Legal(ms[..|ms|-1]) && Enabled(Exec(ms[..|ms|-1]), ms[|ms|-1]))
  }

  ghost function Exec(ms: seq<Move>): State {
    if ms == [] then INITIAL
    else var p := Exec(ms[..|ms|-1]); if Enabled(p, ms[|ms|-1]) then Step(p, ms[|ms|-1]) else p
  }

  /** The moves of the semaphores in a run of the program. */
  ghost function SemMoves(ms: seq<Move>): seq<S.Move> {
    if ms == [] then [] else SemMoves(ms[..|ms|-1]) + SemCall(Exec(ms[..|ms|-1]), ms[|ms|-1])
  }

  /** Inside sem_wait(k). */
  predicate Waiting(p: S.Pc, k: S.Sid) {
    p == S.Idle || ((p.WaitRead? || p.WaitLink? || p.WaitCas? || p.WaitSuspend?) && p.k == k)
  }

  /** Inside sem_post(k): still to count up, or past that and waking the waiters. */
  predicate Walking(p: S.Pc) { p.WalkRead? || p.WalkClear? || p.WalkRestart? }

  predicate Posting(p: S.Pc, k: S.Sid) {
    p == S.Idle || ((p.PostRead? || p.PostCas?) && p.k == k) || Walking(p)
  }

  ghost predicate PhasesOk(c: State) {
    && (var p := c.sem.Pc(PRODUCER);
        if c.prod.PutWait? then Waiting(p, WRITE) else if c.prod == PutPost then Posting(p, READ) else p == S.Idle)
    && (var p := c.sem.Pc(CONSUMER);
        if c.cons == GetWait then Waiting(p, READ) else if c.cons == GetPost then Posting(p, WRITE) else p == S.Idle)
    && forall t | t != PRODUCER && t != CONSUMER :: c.sem.Pc(t) == S.Idle
  }

  /** The state of the counter program that this state stands for. */
  function AbsProducer(c: State): B.Producer {
    match c.prod
    case Outside => B.Idle
    case PutWait(_) => B.Idle
    case Store(d) => B.Store(d)
    case Advance => B.Advance
    case Wrap => B.Wrap
    case PutPost => if Walking(c.sem.Pc(PRODUCER)) then B.Idle else B.Post
  }

  function AbsConsumer(c: State): B.Consumer {
    match c.cons
    case Away => B.Waiting
    case GetWait => B.Waiting
    case Load => B.Load
    case Forward => B.Forward
    case Back => B.Back
    case GetPost => if Walking(c.sem.Pc(CONSUMER)) then B.Waiting else B.Hand
  }

  function Abs(c: State): B.State {
    B.State(c.buffer, c.readpos, c.writepos, Decode(c.sem.Status(READ)), Decode(c.sem.Status(WRITE)),
            AbsProducer(c), AbsConsumer(c), c.put, c.got)
  }

  /** A step of sem_wait(k) takes a unit exactly when it ends the call. */
  lemma WaitStep(s: S.State, g: SW.Shape, t: Tid, k: S.Sid, other: S.Sid)
    requires SW.Inv(s, g) && S.Enabled(s, t) && Waiting(s.Pc(t), k) && k != other
    ensures var s', v := S.Step(s, t, S.Wait(k)), Decode(s.Status(k));
      && Waiting(s'.Pc(t), k)
      && Decode(s'.Status(other)) == Decode(s.Status(other))
      && (if s'.Pc(t) == S.Idle then v > 0 && Decode(s'.Status(k)) == v - 1 else Decode(s'.Status(k)) == v)
  {
    SC.StepCounts(s, g, t, S.Wait(k), k);
    SC.StepCounts(s, g, t, S.Wait(k), other);
  }

  /** A step of sem_post(k), below the limit, adds a unit exactly when it starts to wake
      the waiters or, without waiters, ends the call. */
  lemma PostStep(s: S.State, g: SW.Shape, t: Tid, k: S.Sid, other: S.Sid)
    requires SW.Inv(s, g) && S.Enabled(s, t) && Posting(s.Pc(t), k) && k != other
    requires Decode(s.Status(k)) < SC.POST_LIMIT
    ensures var s', v := S.Step(s, t, S.Post(k)), Decode(s.Status(k));
      var p, p' := s.Pc(t), s'.Pc(t);
      && Posting(p', k) && (Walking(p) ==> Walking(p') || p' == S.Idle)
      && Decode(s'.Status(other)) == Decode(s.Status(other))
      && Decode(s'.Status(k)) == if !Walking(p) && (Walking(p') || p' == S.Idle) then v + 1 else v
  {
    SC.StepCounts(s, g, t, S.Post(k), k);
    SC.StepCounts(s, g, t, S.Post(k), other);
  }

  lemma OthersIdle(s: S.State, t: Tid, call: S.Call, u: Tid)
    requires S.Enabled(s, t) && u != t
    ensures S.Step(s, t, call).Pc(u) == s.Pc(u)
  {
    SC.OthersMove(s, S.Move(t, call), u);
  }

  lemma StepKeepsPhases(c: State, g: SW.Shape, mv: Move)
    requires PhasesOk(c) && SW.Inv(c.sem, g) && Enabled(c, mv)
    requires Small(c)
    ensures PhasesOk(Step(c, mv))
  {
    var m := SemCall(c, mv);
    if m != [] {
      var s' := SemStep(c, mv);
      forall u | u != m[0].t ensures s'.Pc(u) == c.sem.Pc(u) { OthersIdle(c.sem, m[0].t, m[0].call, u); }
      if c.prod.PutWait? && mv.Produce? { WaitStep(c.sem, g, PRODUCER, WRITE, READ); }
      if c.prod == PutPost && mv.Produce? { PostStep(c.sem, g, PRODUCER, READ, WRITE); }
      if c.cons == GetWait && mv.Consume? { WaitStep(c.sem, g, CONSUMER, READ, WRITE); }
      if c.cons == GetPost && mv.Consume? { PostStep(c.sem, g, CONSUMER, WRITE, READ); }
    }
  }

  /** A step of the program is a step of the counter program or none at all. */
  ghost predicate Simulates(a: B.State, a': B.State, mv: B.Move) {
    a' == a || (B.Enabled(a, mv) && a' == B.Step(a, mv))
  }

  function AbsMove(c: State, mv: Move): B.Move {
    if mv.Consume? then B.Consume else B.Produce(if c.prod.PutWait? then c.prod.d else 0)
  }

  /** The counters stay far below the limit at which sem_post refuses. */
  predicate Small(c: State) {
    Decode(c.sem.Status(READ)) < SC.POST_LIMIT && Decode(c.sem.Status(WRITE)) < SC.POST_LIMIT
  }

  lemma ProduceSimulates(c: State, g: SW.Shape, d: int)
    requires PhasesOk(c) && SW.Inv(c.sem, g) && Enabled(c, Produce(d)) && Small(c) && |c.buffer| == BUFFER_SIZE
    ensures Simulates(Abs(c), Abs(Step(c, Produce(d))), AbsMove(c, Produce(d)))
  {
    if c.prod.PutWait? { PutWaitSimulates(c, g, d); }
    if c.prod == PutPost {
      PostStep(c.sem, g, PRODUCER, READ, WRITE);
      OthersIdle(c.sem, PRODUCER, S.Post(READ), CONSUMER);
    }
  }

  lemma PutWaitSimulates(c: State, g: SW.Shape, d: int)
    requires PhasesOk(c) && SW.Inv(c.sem, g) && Enabled(c, Produce(d)) && c.prod.PutWait? && |c.buffer| == BUFFER_SIZE
    ensures Simulates(Abs(c), Abs(Step(c, Produce(d))), AbsMove(c, Produce(d)))
  {
    WaitStep(c.sem, g, PRODUCER, WRITE, READ);
    OthersIdle(c.sem, PRODUCER, S.Wait(WRITE), CONSUMER);
  }

  lemma ConsumeSimulates(c: State, g: SW.Shape)
    requires PhasesOk(c) && SW.Inv(c.sem, g) && Enabled(c, Consume) && Small(c) && |c.buffer| == BUFFER_SIZE
    ensures Simulates(Abs(c), Abs(Step(c, Consume)), B.Consume)
  {
    if c.cons == GetWait {
      WaitStep(c.sem, g, CONSUMER, READ, WRITE);
      OthersIdle(c.sem, CONSUMER, S.Wait(READ), PRODUCER);
    }
    if c.cons == GetPost {
      PostStep(c.sem, g, CONSUMER, WRITE, READ);
      OthersIdle(c.sem, CONSUMER, S.Post(WRITE), PRODUCER);
    }
  }

  lemma StartsInitial()
    ensures S.Initial(SEM0)
  {
    assert S.SemInit(false, 0) == S.Ok(SEM0.status[READ]);
    assert S.SemInit(false, BUFFER_SIZE - 1) == S.Ok(SEM0.status[WRITE]);
  }

  lemma SemStays(c: State, mv: Move)
    requires Enabled(c, mv)
    ensures Step(c, mv).sem == SemStep(c, mv) && |SemCall(c, mv)| <= 1
  {
  }

  /** The semaphores of the program make a run of semaphore.c. */
  lemma {:induction false} SemRun(ms: seq<Move>)
    requires Legal(ms)
    ensures S.Legal(SEM0, SemMoves(ms)) && S.Exec(SEM0, SemMoves(ms)) == Exec(ms).sem
    decreases |ms|
  {
    if ms != [] {
      var ms', mv := ms[..|ms|-1], ms[|ms|-1];
      var m := SemCall(Exec(ms'), mv);
      SemRun(ms');
      SemStays(Exec(ms'), mv);
      if m == [] {
        assert SemMoves(ms') + m == SemMoves(ms');
      } else {
        assert m == [m[0]];
        SC.Extend(SEM0, SemMoves(ms'), m[0]);
      }
    }
  }

  /** Refinement: whatever the program does over the real semaphores, the program over
      counters can do, ending with the same buffer, values and counts. */
  lemma {:induction false} Refines(ms: seq<Move>) returns (bs: seq<B.Move>)
    requires Legal(ms)
    ensures B.Legal(bs) && B.Exec(bs) == Abs(Exec(ms)) && PhasesOk(Exec(ms))
    decreases |ms|
  {
    bs := [];
    if ms != [] {
      var ms', mv := ms[..|ms|-1], ms[|ms|-1];
      var c := Exec(ms');
      bs := Refines(ms');
      SemRun(ms');
      StartsInitial();
      var g := SW.RunKeepsInv(SEM0, SemMoves(ms'));
      B.RunKeepsInv(bs);
      StepKeepsPhases(c, g, mv);
      if mv.Produce? { ProduceSimulates(c, g, mv.d); } else { ConsumeSimulates(c, g); }
      if Abs(Exec(ms)) != Abs(c) {
        assert (bs + [AbsMove(c, mv)])[..|bs|] == bs;
        bs := bs + [AbsMove(c, mv)];
      }
    }
  }

  /** The arguments of the calls of put so far, and the number of calls of get. */
  ghost function Given(ms: seq<Move>): seq<int> {
    if ms == [] then []
    else
      var ms', mv := ms[..|ms|-1], ms[|ms|-1];
      Given(ms') + if mv.Produce? && Exec(ms').prod == Outside then [mv.d] else []
  }

  ghost function Asked(ms: seq<Move>): nat {
    if ms == [] then 0
    else
      var ms', mv := ms[..|ms|-1], ms[|ms|-1];
      Asked(ms') + if mv.Consume? && Exec(ms').cons == Away then 1 else 0
  }

  /** The value of a call that has not stored it yet. */
  function InHand(p: Producer): seq<int> { if p.PutWait? || p.Store? then [p.d] else [] }

  /** Every call of put stores its argument, once, and every call of get loads one value. */
  lemma {:induction false} OneValuePerCall(ms: seq<Move>)
    requires Legal(ms)
    ensures var c := Exec(ms);
      && Given(ms) == c.put + InHand(c.prod)
      && Asked(ms) == |c.got| + if c.cons == GetWait || c.cons == Load then 1 else 0
    decreases |ms|
  {
    if ms != [] { OneValuePerCall(ms[..|ms|-1]); }
  }

  /** What comes out is, in order, the beginning of what put was given, and the buffer
      never holds more than BUFFER_SIZE - 1 values. */
  lemma {:induction false} CapacityAndOrder(ms: seq<Move>)
    requires Legal(ms)
    ensures var c := Exec(ms); c.got <= c.put <= Given(ms) && |c.put| - |c.got| <= BUFFER_SIZE - 1
  {
    OneValuePerCall(ms);
    var bs := Refines(ms);
    B.RunKeepsInv(bs);
  }

  /** A thread that sleeps while the other one is outside its call has reason to: the
      buffer is full for the producer and empty for the consumer. And both of them never
      sleep at once. */
  lemma {:induction false} SleepIsJustified(ms: seq<Move>, d: int)
    requires Legal(ms)
    ensures var c := Exec(ms);
      && (!Enabled(c, Produce(d)) && c.cons == Away ==> |c.put| - |c.got| == BUFFER_SIZE - 1)
      && (!Enabled(c, Consume) && c.prod == Outside ==> c.put == c.got)
      && (Enabled(c, Produce(d)) || Enabled(c, Consume))
  {
    var c := Exec(ms);
    var bs := Refines(ms);
    B.RunKeepsInv(bs);
    SemRun(ms);
    StartsInitial();
    if SC.Quiescent(c.sem) {
      SC.NobodyStranded(SEM0, SemMoves(ms), PRODUCER);
      SC.NobodyStranded(SEM0, SemMoves(ms), CONSUMER);
    }
  }
}
