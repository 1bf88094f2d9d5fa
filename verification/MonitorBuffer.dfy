/** The bounded buffer over a mutex and two conditions (Examples/ex2.c), for any
    number of producers and consumers, as a monitor: getting the mutex, waiting, which
    joins the queue and lets go of the mutex, and signalling, which takes the first of
    the queue, are one step each. The program over the real mutex and conditions
    refines this one: see MonitorBufferTheorems.dfy. */
module MonitorBuffer {
  import opened Circular
  import opened Options
  import opened Seqs

  type Tid = nat

  /** woken: the thread has been taken off a condition queue since it last looked at
      the buffer. */
  datatype Pc =
    | Idle
    | PutLock(d: int, woken: bool) | PutCheck(d: int, woken: bool) | PutWait(d: int)
    | PutStore(d: int, woken: bool) | PutSignal | PutUnlock
    | GetLock(woken: bool) | GetCheck(woken: bool) | GetWait
    | GetLoad(woken: bool) | GetSignal | GetUnlock

  datatype State = State(
    buffer: seq<int>, readpos: nat, writepos: nat,
    lock: Option<Tid>, notEmpty: seq<Tid>, notFull: seq<Tid>, pc: map<Tid, Pc>,
    put: seq<int>, got: seq<int>)
  {
    function Pc(t: Tid): Pc { if t in pc then pc[t] else Idle }
    function Items(): int { |put| - |got| }
    function At(t: Tid, p: Pc): State { this.(pc := pc[t := p]) }
  }

  datatype Call = Put(d: int) | Get
  datatype Move = Move(t: Tid, call: Call)

  const INITIAL := State([0, 0, 0, 0, 0, 0, 0, 0, 0, 0, 0, 0, 0, 0, 0, 0], 0, 0, None, [], [], map[], [], [])

  function Next(pos: nat): nat { if pos + 1 >= BUFFER_SIZE then 0 else pos + 1 }

  predicate Enabled(s: State, mv: Move) {
    match s.Pc(mv.t)
    case PutLock(_, _) => s.lock == None
    case GetLock(_) => s.lock == None
    case PutWait(_) => false
    case GetWait => false
    case PutStore(_, _) => s.writepos < |s.buffer|
    case GetLoad(_) => s.readpos < |s.buffer|
    case _ => true
  }

  /** The thread t, taken off a queue, competes for the mutex. */
  function Wake(s: State, t: Tid): State {
    match s.Pc(t)
    case PutWait(d) => s.At(t, PutLock(d, true))
    case GetWait => s.At(t, GetLock(true))
    case _ => s
  }

  function Step(s: State, mv: Move): State
    requires Enabled(s, mv)
  {
    var t := mv.t;
    match s.Pc(t)
    case Idle => s.At(t, if mv.call.Put? then PutLock(mv.call.d, false) else GetLock(false))
    case PutLock(d, w) => s.(lock := Some(t)).At(t, PutCheck(d, w))
    case PutCheck(d, w) =>
      if (s.writepos + 1) % BUFFER_SIZE == s.readpos then s.(lock := None, notFull := s.notFull + [t]).At(t, PutWait(d))
      else s.At(t, PutStore(d, w))
    case PutStore(d, _) =>
      s.(buffer := s.buffer[s.writepos := d], writepos := Next(s.writepos), put := s.put + [d]).At(t, PutSignal)
    case PutSignal =>
      if s.notEmpty == [] then s.At(t, PutUnlock)
      else Wake(s, s.notEmpty[0]).(notEmpty := s.notEmpty[1..]).At(t, PutUnlock)
    case PutUnlock => s.(lock := None).At(t, Idle)
    case PutWait(_) => s
    case GetLock(w) => s.(lock := Some(t)).At(t, GetCheck(w))
    case GetCheck(w) =>
      if s.writepos == s.readpos then s.(lock := None, notEmpty := s.notEmpty + [t]).At(t, GetWait)
      else s.At(t, GetLoad(w))
    case GetLoad(_) =>
      s.(got := s.got + [s.buffer[s.readpos]], readpos := Next(s.readpos)).At(t, GetSignal)
    case GetSignal =>
      if s.notFull == [] then s.At(t, GetUnlock) else Wake(s, s.notFull[0]).(notFull := s.notFull[1..]).At(t, GetUnlock)
    case GetUnlock => s.(lock := None).At(t, Idle)
    case GetWait => s
  }

  ghost predicate Legal(ms: seq<Move>) {
    ms == [] || (Legal(ms[..|ms|-1]) && Enabled(Exec(ms[..|ms|-1]), ms[|ms|-1]))
  }

  ghost function Exec(ms: seq<Move>): State {
    if ms == [] then INITIAL
    else var p := Exec(ms[..|ms|-1]); if Enabled(p, ms[|ms|-1]) then Step(p, ms[|ms|-1]) else p
  }

  predicate Inside(p: Pc) {
    || p.PutCheck? || p.PutStore? || p.PutSignal? || p.PutUnlock?
    || p.GetCheck? || p.GetLoad? || p.GetSignal? || p.GetUnlock?
  }

  predicate WokenGet(p: Pc) { (p.GetLock? || p.GetCheck? || p.GetLoad?) && p.woken }

  predicate WokenPut(p: Pc) { (p.PutLock? || p.PutCheck? || p.PutStore?) && p.woken }

  function Chosen(pc: map<Tid, Pc>, f: Pc -> bool): set<Tid> { set t | t in pc && f(pc[t]) }

  function WokenGets(pc: map<Tid, Pc>): set<Tid> { Chosen(pc, WokenGet) }

  function WokenPuts(pc: map<Tid, Pc>): set<Tid> { Chosen(pc, WokenPut) }

  /** The thread inside the mutex is about to signal. */
  function Due(s: State, p: Pc): nat { if s.lock.Some? && s.Pc(s.lock.value) == p then 1 else 0 }

  ghost predicate ThreadOk(s: State, t: Tid) {
    && (s.lock == Some(t) <==> Inside(s.Pc(t)))
    && (t in s.notEmpty <==> s.Pc(t) == GetWait)
    && (t in s.notFull <==> s.Pc(t).PutWait?)
    && (s.Pc(t).PutStore? ==> s.Items() < BUFFER_SIZE - 1)
    && (s.Pc(t).GetLoad? ==> s.Items() > 0)
  }

  ghost predicate DataOk(s: State) {
    var w, r := |s.put|, |s.got|;
    && Holds(s.buffer, s.put, r)
    && r <= w <= r + BUFFER_SIZE - 1 && s.got == s.put[..r]
    && s.readpos == r % BUFFER_SIZE && s.writepos == w % BUFFER_SIZE
    && Distinct(s.notEmpty) && Distinct(s.notFull)
  }

  /** If consumers wait, the items are not more than the consumers already woken, or
      about to be; and the same for producers and free slots. */
  ghost predicate WakeOk(s: State) {
    && (s.notEmpty != [] ==> s.Items() <= |WokenGets(s.pc)| + Due(s, PutSignal))
    && (s.notFull != [] ==> BUFFER_SIZE - 1 - s.Items() <= |WokenPuts(s.pc)| + Due(s, GetSignal))
  }

  ghost predicate Inv(s: State) { (forall t :: ThreadOk(s, t)) && DataOk(s) && WakeOk(s) }

  lemma FullIff(w: nat, r: nat)
    requires r <= w <= r + BUFFER_SIZE - 1
    ensures (w % BUFFER_SIZE + 1) % BUFFER_SIZE == r % BUFFER_SIZE <==> w - r == BUFFER_SIZE - 1
    ensures w % BUFFER_SIZE == r % BUFFER_SIZE <==> w == r
  {
  }

  predicate Getting(p: Pc) {
    p.GetLock? || p.GetCheck? || p.GetWait? || p.GetLoad? || p.GetSignal? || p.GetUnlock?
  }

  ghost predicate Around(s: State, t: Tid, u: Tid) {
    && DataOk(s) && ThreadOk(s, t) && ThreadOk(s, u)
    && (s.lock.Some? ==> ThreadOk(s, s.lock.value))
    && (s.notEmpty != [] ==> ThreadOk(s, s.notEmpty[0]))
    && (s.notFull != [] ==> ThreadOk(s, s.notFull[0]))
  }

  lemma GetThread(s: State, mv: Move, t: Tid)
    requires Enabled(s, mv) && Around(s, mv.t, t) && Getting(s.Pc(mv.t))
    ensures ThreadOk(Step(s, mv), t)
  {
    FullIff(|s.put|, |s.got|);
  }

  lemma PutThread(s: State, mv: Move, t: Tid)
    requires Enabled(s, mv) && Around(s, mv.t, t) && !Getting(s.Pc(mv.t))
    ensures ThreadOk(Step(s, mv), t)
  {
    FullIff(|s.put|, |s.got|);
  }

  lemma StoreData(s: State, t: Tid, d: int)
    requires DataOk(s) && s.Items() < BUFFER_SIZE - 1
    ensures DataOk(s.(buffer := s.buffer[s.writepos := d], writepos := Next(s.writepos), put := s.put + [d])
                    .At(t, PutSignal))
  {
    StoreHolds(s.buffer, s.put, |s.got|, d);
    WrapsAround(|s.put| + 1);
  }

  lemma LoadData(s: State, t: Tid)
    requires DataOk(s) && s.Items() > 0
    ensures DataOk(s.(got := s.got + [s.buffer[s.readpos]], readpos := Next(s.readpos)).At(t, GetSignal))
  {
    WrapsAround(|s.got| + 1);
  }

  lemma PutData(s: State, mv: Move)
    requires Enabled(s, mv) && ThreadOk(s, mv.t) && DataOk(s) && !Getting(s.Pc(mv.t))
    ensures DataOk(Step(s, mv))
  {
    match s.Pc(mv.t)
    case PutStore(d, _) => StoreData(s, mv.t, d);
    case PutCheck(_, _) => DistinctAppend(s.notFull, mv.t);
    case _ =>
  }

  lemma GetData(s: State, mv: Move)
    requires Enabled(s, mv) && ThreadOk(s, mv.t) && DataOk(s) && Getting(s.Pc(mv.t))
    ensures DataOk(Step(s, mv))
  {
    match s.Pc(mv.t)
    case GetLoad(_) => LoadData(s, mv.t);
    case GetCheck(_) => DistinctAppend(s.notEmpty, mv.t);
    case _ =>
  }

  function One(b: bool): nat { if b then 1 else 0 }

  lemma ChosenMoved(pc: map<Tid, Pc>, t: Tid, p: Pc, f: Pc -> bool)
    ensures |Chosen(pc[t := p], f)| + One(t in pc && f(pc[t])) == |Chosen(pc, f)| + One(f(p))
  {
    var w, w' := Chosen(pc, f), Chosen(pc[t := p], f);
    assert w' == if f(p) then w + {t} else w - {t};
  }

  /** How the number of woken threads changes when one thread moves. */
  lemma Moved(pc: map<Tid, Pc>, t: Tid, p: Pc)
    ensures |WokenGets(pc[t := p])| + One(t in pc && WokenGet(pc[t])) == |WokenGets(pc)| + One(WokenGet(p))
    ensures |WokenPuts(pc[t := p])| + One(t in pc && WokenPut(pc[t])) == |WokenPuts(pc)| + One(WokenPut(p))
  {
    ChosenMoved(pc, t, p, WokenGet);
    ChosenMoved(pc, t, p, WokenPut);
  }

  lemma PutWake(s: State, mv: Move)
    requires Enabled(s, mv) && Around(s, mv.t, mv.t) && WakeOk(s) && !Getting(s.Pc(mv.t))
    ensures WakeOk(Step(s, mv))
  {
    var s' := Step(s, mv);
    FullIff(|s.put|, |s.got|);
    if s.Pc(mv.t) == PutSignal && s.notEmpty != [] {
      Moved(s.pc, s.notEmpty[0], GetLock(true));
      Moved(s.pc[s.notEmpty[0] := GetLock(true)], mv.t, PutUnlock);
    } else {
      Moved(s.pc, mv.t, s'.Pc(mv.t));
    }
  }

  lemma GetWake(s: State, mv: Move)
    requires Enabled(s, mv) && Around(s, mv.t, mv.t) && WakeOk(s) && Getting(s.Pc(mv.t))
    ensures WakeOk(Step(s, mv))
  {
    var s' := Step(s, mv);
    FullIff(|s.put|, |s.got|);
    if s.Pc(mv.t) == GetSignal && s.notFull != [] {
      Moved(s.pc, s.notFull[0], PutLock(s.Pc(s.notFull[0]).d, true));
      Moved(s.pc[s.notFull[0] := PutLock(s.Pc(s.notFull[0]).d, true)], mv.t, GetUnlock);
    } else {
      Moved(s.pc, mv.t, s'.Pc(mv.t));
    }
  }

  lemma StepKeepsInv(s: State, mv: Move)
    requires Inv(s) && Enabled(s, mv)
    ensures Inv(Step(s, mv))
  {
    forall t ensures Around(s, mv.t, t) { assert ThreadOk(s, t) && ThreadOk(s, mv.t); }
    forall t ensures ThreadOk(Step(s, mv), t) {
      assert Around(s, mv.t, t);
      if Getting(s.Pc(mv.t)) { GetThread(s, mv, t); } else { PutThread(s, mv, t); }
    }
    assert Around(s, mv.t, mv.t);
    if Getting(s.Pc(mv.t)) { GetData(s, mv); GetWake(s, mv); } else { PutData(s, mv); PutWake(s, mv); }
  }

  lemma RunKeepsInv(ms: seq<Move>)
    requires Legal(ms)
    ensures Inv(Exec(ms))
    decreases |ms|
  {
    if ms != [] { RunKeepsInv(ms[..|ms|-1]); StepKeepsInv(Exec(ms[..|ms|-1]), ms[|ms|-1]); }
  }

  /** While consumers wait there are no more items than consumers woken or about to be
      woken, and while producers wait no more free slots than producers so. Values
      come out in the order in which they went in. */
  lemma {:induction false} NobodyStranded(ms: seq<Move>)
    requires Legal(ms)
    ensures WakeOk(Exec(ms)) && Exec(ms).got <= Exec(ms).put && 0 <= Exec(ms).Items() <= BUFFER_SIZE - 1
  {
    RunKeepsInv(ms);
  }

  /** No thread inside a call can go on. */
  ghost predicate AtRest(s: State) {
    forall mv: Move :: s.Pc(mv.t) != Idle ==> !Enabled(s, mv)
  }

  lemma InsideGoesOn(s: State, t: Tid)
    requires Inv(s) && s.lock == Some(t)
    ensures s.Pc(t) != Idle && Enabled(s, Move(t, Get))
  {
    assert ThreadOk(s, t);
  }

  lemma RestIsWaiting(s: State, t: Tid)
    requires Inv(s) && AtRest(s)
    ensures s.Pc(t) == Idle || s.Pc(t) == GetWait || s.Pc(t).PutWait?
  {
    assert ThreadOk(s, t) && (s.Pc(t) == Idle || !Enabled(s, Move(t, Get)));
    if s.lock.Some? { InsideGoesOn(s, s.lock.value); }
  }

  /** So threads get stuck only for a reason: consumers at an empty buffer, producers at
      a full one, and never both. */
  lemma {:induction false} RestIsJustified(ms: seq<Move>)
    requires Legal(ms) && AtRest(Exec(ms))
    ensures var s := Exec(ms);
      && (s.notEmpty != [] ==> s.Items() == 0)
      && (s.notFull != [] ==> s.Items() == BUFFER_SIZE - 1)
      && (s.notEmpty == [] || s.notFull == [])
  {
    var s := Exec(ms);
    RunKeepsInv(ms);
    forall t ensures s.Pc(t) == Idle || s.Pc(t) == GetWait || s.Pc(t).PutWait? { RestIsWaiting(s, t); }
    assert forall t | t in s.pc :: s.Pc(t) == s.pc[t];
    assert WokenGets(s.pc) == {} && WokenPuts(s.pc) == {};
  }
}
