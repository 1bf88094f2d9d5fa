/** The bounded buffer over two semaphores (Examples/ex5.c): one producer and one
    consumer, whose statements interleave freely, on two counters that sem_wait and
    sem_post change in one step. The program over the real semaphores refines this one:
    see SemBufferRuns.dfy. */
module SemBuffer {
  import opened Circular

  datatype Producer = Idle | Store(d: int) | Advance | Wrap | Post
  datatype Consumer = Waiting | Load | Forward | Back | Hand

  datatype State = State(
    buffer: seq<int>, readpos: nat, writepos: nat,
    semRead: nat, semWrite: nat,
    prod: Producer, cons: Consumer,
    put: seq<int>, got: seq<int>)    // what was stored and what was loaded, so far

  datatype Move = Produce(d: int) | Consume

  const INITIAL :=
    State([0, 0, 0, 0, 0, 0, 0, 0, 0, 0, 0, 0, 0, 0, 0, 0], 0, 0, 0, BUFFER_SIZE - 1, Idle, Waiting, [], [])

  predicate Enabled(s: State, mv: Move) {
    && |s.buffer| == BUFFER_SIZE
    && (mv.Produce? && s.prod == Idle ==> s.semWrite > 0)
    && (mv.Produce? && s.prod.Store? ==> s.writepos < BUFFER_SIZE)
    && (mv.Consume? && s.cons == Waiting ==> s.semRead > 0)
    && (mv.Consume? && s.cons == Load ==> s.readpos < BUFFER_SIZE)
  }

  /** One statement of put or of get. */
  function Step(s: State, mv: Move): State
    requires Enabled(s, mv)
  {
    match mv
    case Produce(d) =>
      (match s.prod
       case Idle => s.(semWrite := s.semWrite - 1, prod := Store(d))
       case Store(x) => s.(buffer := s.buffer[s.writepos := x], put := s.put + [x], prod := Advance)
       case Advance => s.(writepos := s.writepos + 1, prod := Wrap)
       case Wrap => s.(writepos := if s.writepos >= BUFFER_SIZE then 0 else s.writepos, prod := Post)
       case Post => s.(semRead := s.semRead + 1, prod := Idle))
    case Consume =>
      (match s.cons
       case Waiting => s.(semRead := s.semRead - 1, cons := Load)
       case Load => s.(got := s.got + [s.buffer[s.readpos]], cons := Forward)
       case Forward => s.(readpos := s.readpos + 1, cons := Back)
       case Back => s.(readpos := if s.readpos >= BUFFER_SIZE then 0 else s.readpos, cons := Hand)
       case Hand => s.(semWrite := s.semWrite + 1, cons := Waiting))
  }

  ghost predicate Legal(ms: seq<Move>) {
    ms == [] || (Legal(ms[..|ms|-1]) && Enabled(Exec(ms[..|ms|-1]), ms[|ms|-1]))
  }

  ghost function Exec(ms: seq<Move>): State {
    if ms == [] then INITIAL
    else var p := Exec(ms[..|ms|-1]); if Enabled(p, ms[|ms|-1]) then Step(p, ms[|ms|-1]) else p
  }

  function Busy(b: bool): nat { if b then 1 else 0 }

  /** Where writing, and reading, will go on after n values. */
  predicate PosOk(pos: nat, n: nat, toAdvance: bool, toWrap: bool) {
    if toAdvance then n > 0 && pos == (n - 1) % BUFFER_SIZE
    else if toWrap then n > 0 && pos == (n - 1) % BUFFER_SIZE + 1
    else pos == n % BUFFER_SIZE
  }

  ghost predicate Inv(s: State) {
    var w, r := |s.put|, |s.got|;
    && Holds(s.buffer, s.put, r)
    && r <= w && s.got == s.put[..r]
    && PosOk(s.writepos, w, s.prod == Advance, s.prod == Wrap)
    && PosOk(s.readpos, r, s.cons == Forward, s.cons == Back)
    && s.semRead + r + Busy(s.cons == Load) + Busy(s.prod == Advance || s.prod == Wrap || s.prod == Post) == w
    && s.semWrite + w + Busy(s.prod.Store?) + Busy(s.cons == Forward || s.cons == Back || s.cons == Hand)
      == BUFFER_SIZE - 1 + r
  }

  lemma ProduceKeepsInv(s: State, d: int)
    requires Inv(s) && Enabled(s, Produce(d))
    ensures Inv(Step(s, Produce(d)))
  {
    match s.prod
    case Store(x) => StoreHolds(s.buffer, s.put, |s.got|, x);
    case Wrap => WrapsAround(|s.put|);
    case _ =>
  }

  lemma ConsumeKeepsInv(s: State)
    requires Inv(s) && Enabled(s, Consume)
    ensures Inv(Step(s, Consume))
  {
    if s.cons == Back { WrapsAround(|s.got|); }
  }

  lemma StepKeepsInv(s: State, mv: Move)
    requires Inv(s) && Enabled(s, mv)
    ensures Inv(Step(s, mv))
  {
    if mv.Produce? { ProduceKeepsInv(s, mv.d); } else { ConsumeKeepsInv(s); }
  }

  lemma RunKeepsInv(ms: seq<Move>)
    requires Legal(ms)
    ensures Inv(Exec(ms))
    decreases |ms|
  {
    if ms != [] { RunKeepsInv(ms[..|ms|-1]); StepKeepsInv(Exec(ms[..|ms|-1]), ms[|ms|-1]); }
  }

  /** The two counters and the operations in progress always make up the capacity;
      what comes out is, in order, the beginning of what went in. */
  lemma {:induction false} CapacityAndOrder(ms: seq<Move>)
    requires Legal(ms)
    ensures var s := Exec(ms);
      && s.semRead + s.semWrite + Busy(s.prod != Idle) + Busy(s.cons != Waiting) == BUFFER_SIZE - 1
      && s.got <= s.put
  {
    RunKeepsInv(ms);
  }

  /** All accesses are in bounds, so that only the semaphores ever block a thread; and
      the two threads never wait for each other. */
  lemma {:induction false} NeverStuck(ms: seq<Move>, d: int)
    requires Legal(ms)
    ensures var s := Exec(ms);
      && (Enabled(s, Produce(d)) <==> (s.prod == Idle ==> s.semWrite > 0))
      && (Enabled(s, Consume) <==> (s.cons == Waiting ==> s.semRead > 0))
      && (Enabled(s, Produce(d)) || Enabled(s, Consume))
  {
    RunKeepsInv(ms);
  }
}
