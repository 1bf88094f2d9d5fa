/** The bounded buffer of Examples/ex2.c over the mutexes and conditions of mutex.c and
    condvar.c: any number of producers and consumers call pthread_mutex_lock,
    pthread_cond_wait, pthread_cond_signal and pthread_mutex_unlock, and every step of
    those calls interleaves with every step of the other threads. The statements on the
    buffer between two calls are one step. The program refines the monitor of
    MonitorBuffer.dfy. */
module MonitorBufferRuns {
  import opened Options
  import opened Seqs
  import opened Circular
  import L = Locks
  import LC = LocksCore
  import LI = LocksInvariant
  import B = MonitorBuffer

  type Tid = nat

  const LOCK: L.Mid := 0
  const NOT_EMPTY: L.Cid := 0
  const NOT_FULL: L.Cid := 1

  /** Where a thread stands in put or get. */
  datatype Phase = Locking | Testing | Waiting | Moving | Signalling | Unlocking

  datatype Job = Outside | Job(op: B.Call, at: Phase)

  datatype State = State(
    locks: L.State, buffer: seq<int>, readpos: nat, writepos: nat,
    job: map<Tid, Job>, put: seq<int>, got: seq<int>)
  {
    function JobOf(t: Tid): Job { if t in job then job[t] else Outside }
    function At(t: Tid, j: Job): State { this.(job := job[t := j]) }
  }

  datatype Move = Move(t: Tid, op: B.Call)

  const LOCKS0 := L.State(map[], map[], map[], map[], {}, map[])
  const INITIAL := State(LOCKS0, B.INITIAL.buffer, 0, 0, map[], [], [])

  /** The condition an operation waits for, and the one it signals. */
  function Awaits(op: B.Call): L.Cid { if op.Put? then NOT_FULL else NOT_EMPTY }
  function Announces(op: B.Call): L.Cid { if op.Put? then NOT_EMPTY else NOT_FULL }

  /** The operation must wait: the buffer is full, or empty. */
  predicate MustWait(c: State, op: B.Call) {
    if op.Put? then (c.writepos + 1) % BUFFER_SIZE == c.readpos else c.writepos == c.readpos
  }

  predicate InCall(p: Phase) { !p.Testing? && !p.Moving? }

  /** The library call of a phase. */
  function LockCall(j: Job): L.Call
    requires j.Job? && InCall(j.at)
  {
    match j.at
    case Locking => L.Lock(LOCK)
    case Waiting => L.CondWait(Awaits(j.op), LOCK, false)
    case Signalling => L.Signal(Announces(j.op))
    case _ => L.Unlock(LOCK)
  }

  function LockMove(t: Tid, j: Job): L.Move
    requires j.Job? && InCall(j.at)
  {
    L.Move(t, LockCall(j), false)
  }

  predicate Enabled(c: State, mv: Move) {
    var j := c.JobOf(mv.t);
    && (j.Job? && InCall(j.at) ==> L.Enabled(c.locks, LockMove(mv.t, j)))
    && (j.Job? && j.at.Moving? ==> (if j.op.Put? then c.writepos else c.readpos) < |c.buffer|)
  }

  /** What comes after the call of a phase. */
  function After(j: Job): Job
    requires j.Job?
  {
    match j.at
    case Locking => j.(at := Testing)
    case Waiting => j.(at := Testing)
    case Signalling => j.(at := Unlocking)
    case _ => Outside
  }

  /** Storing or loading a value. */
  function Transfer(c: State, op: B.Call): State
    requires (if op.Put? then c.writepos else c.readpos) < |c.buffer|
  {
    match op
    case Put(d) => c.(buffer := c.buffer[c.writepos := d], writepos := B.Next(c.writepos), put := c.put + [d])
    case Get => c.(got := c.got + [c.buffer[c.readpos]], readpos := B.Next(c.readpos))
  }

  /** One step: of a call, which is over when its thread is idle, or of the statements
      between two calls. */
  function Step(c: State, mv: Move): State
    requires Enabled(c, mv)
  {
    var t, j := mv.t, c.JobOf(mv.t);
    match j
    case Outside => c.At(t, Job(mv.op, Locking))
    case Job(op, at) =>
      if InCall(at) then
        var s := L.Step(c.locks, LockMove(t, j));
        c.(locks := s).At(t, if s.Pc(t) == L.Idle then After(j) else j)
      else if at == Testing then
        c.At(t, Job(op, if MustWait(c, op) then Waiting else Moving))
      else
        Transfer(c, op).At(t, Job(op, Signalling))
  }

  ghost predicate Legal(ms: seq<Move>) {
    ms == [] || (Legal(ms[..|ms|-1]) && Enabled(Exec(ms[..|ms|-1]), ms[|ms|-1]))
  }

  ghost function Exec(ms: seq<Move>): State {
    if ms == [] then INITIAL
    else var p := Exec(ms[..|ms|-1]); if Enabled(p, ms[|ms|-1]) then Step(p, ms[|ms|-1]) else p
  }

  /** The moves of the locks in a run of the program. */
  function LockMoves(c: State, mv: Move): seq<L.Move> {
    var j := c.JobOf(mv.t);
    if j.Job? && InCall(j.at) then [LockMove(mv.t, j)] else []
  }

  ghost function AllLockMoves(ms: seq<Move>): seq<L.Move> {
    if ms == [] then [] else AllLockMoves(ms[..|ms|-1]) + LockMoves(Exec(ms[..|ms|-1]), ms[|ms|-1])
  }

  /** The steps of a call that a phase goes through. */
  predicate Relocking(p: L.Pc) {
    p == L.LockAcq(LOCK) || p == L.LockBody(LOCK) || p == L.LockSuspend(LOCK) || (p.LockRel? && p.m == LOCK)
  }

  predicate Unlocks(p: L.Pc, k: L.Cont) {
    (p.UnlAcq? || p.UnlBody? || p.UnlRel? || p.UnlWake?) && p.m == LOCK && p.k == k
  }

  predicate PhaseOk(j: Job, p: L.Pc) {
    match j
    case Outside => p == L.Idle
    case Job(op, at) =>
      || p == L.Idle
      || (match at
          case Locking => Relocking(p)
          case Testing => false
          case Waiting =>
            var c := Awaits(op);
            || Relocking(p) || Unlocks(p, L.ThenWait(c, false)) || p == L.CondSuspend(c, LOCK)
            || p == L.CondAcq(c, LOCK, false) || p == L.CondEnq(c, LOCK, false) || p == L.CondRel(c, LOCK, false)
          case Moving => false
          case Signalling =>
            var c := Announces(op);
            p == L.SigAcq(c, false) || p == L.SigBody(c, false) || (p.SigRel? && p.c == c) || p.SigWake?
          case Unlocking => Unlocks(p, L.Return))
  }

  /** The stage of the monitor program that a point of this program stands for. */
  datatype Stage = Free | Lock | Check | Wait | Transfers | Signal | Unlock

  function StageOf(at: Phase, p: L.Pc, queued: bool): Stage {
    match at
    case Locking => if p == L.LockRel(LOCK, true) then Check else Lock
    case Testing => Check
    case Waiting =>
      if p == L.Idle || p.CondAcq? || p.CondEnq? || p == L.LockRel(LOCK, true) then Check
      else if Relocking(p) || !queued then Lock
      else Wait
    case Moving => Transfers
    case Signalling => if p.SigRel? || p.SigWake? then Unlock else Signal
    case Unlocking => if p.UnlRel? || p.UnlWake? then Free else Unlock
  }

  predicate IsStage(op: B.Call, g: Stage, p: B.Pc) {
    match g
    case Free => p == B.Idle
    case Lock => if op.Put? then p.PutLock? && p.d == op.d else p.GetLock?
    case Check => if op.Put? then p.PutCheck? && p.d == op.d else p.GetCheck?
    case Wait => if op.Put? then p == B.PutWait(op.d) else p == B.GetWait
    case Transfers => if op.Put? then p.PutStore? && p.d == op.d else p.GetLoad?
    case Signal => p == if op.Put? then B.PutSignal else B.GetSignal
    case Unlock => p == if op.Put? then B.PutUnlock else B.GetUnlock
  }

  /** About to give back the mutex inside pthread_cond_wait. */
  predicate LettingGo(p: L.Pc) {
    p.CondRel? || ((p.UnlAcq? || p.UnlBody?) && p.k != L.Return)
  }

  ghost predicate ThreadSim(c: State, a: B.State, t: Tid) {
    var j, p := c.JobOf(t), c.locks.Pc(t);
    && PhaseOk(j, p)
    && (if j == Outside then a.Pc(t) == B.Idle
        else IsStage(j.op, StageOf(j.at, p, t in c.locks.Cond(Awaits(j.op))), a.Pc(t)))
    && (c.locks.Depth(LOCK, t) > 0 <==> a.lock == Some(t) || LettingGo(p))
    && (j.Job? && j.at == Waiting && (p == L.Idle || p.CondAcq? || p.CondEnq?) ==> MustWait(c, j.op))
  }

  ghost predicate DataSim(c: State, a: B.State) {
    && a.buffer == c.buffer && a.readpos == c.readpos && a.writepos == c.writepos && a.put == c.put && a.got == c.got
    && a.notEmpty == c.locks.Cond(NOT_EMPTY) && a.notFull == c.locks.Cond(NOT_FULL)
    && c.locks.Mu(LOCK).kind == L.Fast
  }

  /** The monitor state a is what this state stands for. */
  ghost predicate Sim(c: State, a: B.State) {
    DataSim(c, a) && forall t :: ThreadSim(c, a, t)
  }

  /** A thread that does not move and whose surroundings stay the same. */
  lemma ThreadFrame(c: State, a: B.State, c': State, a': B.State, u: Tid)
    requires ThreadSim(c, a, u) && B.ThreadOk(a, u)
    requires c'.JobOf(u) == c.JobOf(u) && c'.locks.Pc(u) == c.locks.Pc(u)
    requires c'.locks.Depth(LOCK, u) == c.locks.Depth(LOCK, u)
    requires u in c'.locks.Cond(NOT_EMPTY) <==> u in c.locks.Cond(NOT_EMPTY)
    requires u in c'.locks.Cond(NOT_FULL) <==> u in c.locks.Cond(NOT_FULL)
    requires a'.Pc(u) == a.Pc(u) && (a'.lock == Some(u) <==> a.lock == Some(u))
    requires a.lock == Some(u) ==> c'.readpos == c.readpos && c'.writepos == c.writepos
    ensures ThreadSim(c', a', u)
  {
  }

  /** A step of a call that neither gets nor frees the mutex, nor changes a condition. */
  predicate Quiet(s: L.State, t: Tid) {
    match s.Pc(t)
    case LockBody(m) => !L.Grants(s.Mu(m), t)
    case CondEnq(_, _, _) => false
    case SigBody(_, _) => false
    case UnlBody(_, _) => false
    case _ => true
  }

  lemma QuietLocks(s: L.State, lm: L.Move)
    requires L.Enabled(s, lm) && Quiet(s, lm.t) && !s.Pc(lm.t).TimedCheck? && !s.Pc(lm.t).TryBody?
    ensures var s' := L.Step(s, lm);
      s'.cond == s.cond && s'.depth == s.depth && s'.Mu(LOCK).kind == s.Mu(LOCK).kind
  {
  }

  /** A thread with a pending restart is on no queue. */
  lemma PendingNotQueued(s: L.State, g: map<Tid, LI.Place>, t: Tid, k: L.Cid)
    requires LI.Inv(s, g) && t in s.pending
    ensures t !in s.Cond(k)
  {
    assert LI.ThreadOk(s, g, t) && LI.QueueOk(s, g, L.C(k));
    assert s.Queue(L.C(k)) == s.Cond(k);
  }

  predicate BeforeWait(j: Job, p: L.Pc) {
    j.Job? && j.at == Waiting && (p == L.Idle || p.CondAcq? || p.CondEnq?)
  }

  function NextJob(j: Job, p: L.Pc): Job
    requires j.Job?
  {
    if p == L.Idle then After(j) else j
  }

  /** From one point of a call to the next, in the same stage. */
  ghost predicate SameStage(j: Job, p: L.Pc, j': Job, p': L.Pc, queued: bool)
    requires j.Job?
  {
    && PhaseOk(j', p') && (j'.Job? ==> j'.op == j.op) && LettingGo(p') == LettingGo(p)
    && (BeforeWait(j', p') ==> BeforeWait(j, p))
    && StageOf(j.at, p, queued) == if j' == Outside then Free else StageOf(j'.at, p', queued)
  }

  lemma QuietPoint(s: L.State, t: Tid, j: Job, queued: bool)
    requires j.Job? && InCall(j.at) && PhaseOk(j, s.Pc(t)) && L.Enabled(s, LockMove(t, j)) && Quiet(s, t)
    requires s.Mu(LOCK).kind == L.Fast && (s.Pc(t).CondSuspend? ==> !queued)
    ensures var p' := L.Target(s, LockMove(t, j)); SameStage(j, s.Pc(t), NextJob(j, p'), p', queued)
  {
  }

  lemma MoverStays(c: State, a: B.State, c': State, t: Tid)
    requires ThreadSim(c, a, t) && c.JobOf(t).Job?
    requires c'.locks.cond == c.locks.cond && c'.locks.depth == c.locks.depth
    requires c'.readpos == c.readpos && c'.writepos == c.writepos
    requires var j := c.JobOf(t);
      SameStage(j, c.locks.Pc(t), c'.JobOf(t), c'.locks.Pc(t), t in c.locks.Cond(Awaits(j.op)))
    ensures ThreadSim(c', a, t)
  {
  }

  /** c' comes from c by a step of t inside a call. */
  ghost predicate CallStep(c: State, c': State, t: Tid) {
    var j := c.JobOf(t);
    && j.Job? && InCall(j.at) && c'.JobOf(t) == NextJob(j, c'.locks.Pc(t))
    && c' == c.(locks := c'.locks, job := c'.job) && c'.locks.Mu(LOCK).kind == c.locks.Mu(LOCK).kind
    && forall u | u != t :: c'.locks.Pc(u) == c.locks.Pc(u) && c'.JobOf(u) == c.JobOf(u)
                            && c'.locks.Depth(LOCK, u) == c.locks.Depth(LOCK, u)
  }

  lemma IsCallStep(c: State, mv: Move)
    requires Enabled(c, mv) && c.JobOf(mv.t).Job? && InCall(c.JobOf(mv.t).at) && c.locks.Mu(LOCK).kind == L.Fast
    ensures CallStep(c, Step(c, mv), mv.t)
    ensures Step(c, mv).locks == L.Step(c.locks, LockMove(mv.t, c.JobOf(mv.t)))
  {
    var lm := LockMove(mv.t, c.JobOf(mv.t));
    var s' := L.Step(c.locks, lm);
    KindStays(c.locks, lm);
    forall u | u != mv.t ensures s'.Pc(u) == c.locks.Pc(u) && s'.Depth(LOCK, u) == c.locks.Depth(LOCK, u) {
      LC.OthersStay(c.locks, lm, u);
    }
  }

  lemma KindStays(s: L.State, lm: L.Move)
    requires L.Enabled(s, lm)
    ensures L.Step(s, lm).Mu(LOCK).kind == s.Mu(LOCK).kind
  {
  }

  /** What the monitor program does in that step. */
  function Follow(a: B.State, mv: Move): B.State
    requires B.Enabled(a, B.Move(mv.t, mv.op))
  {
    B.Step(a, B.Move(mv.t, mv.op))
  }

  ghost predicate Related(c: State, a: B.State) { Sim(c, a) && forall u :: B.ThreadOk(a, u) }

  /** Only t moves, in the program and in the monitor. */
  ghost predicate OnlyMoves(c: State, a: B.State, c': State, a': B.State, t: Tid) {
    && (forall u | u != t ::
          && c'.JobOf(u) == c.JobOf(u) && c'.locks.Pc(u) == c.locks.Pc(u)
          && c'.locks.Depth(LOCK, u) == c.locks.Depth(LOCK, u) && a'.Pc(u) == a.Pc(u)
          && (u in c'.locks.Cond(NOT_EMPTY) <==> u in c.locks.Cond(NOT_EMPTY))
          && (u in c'.locks.Cond(NOT_FULL) <==> u in c.locks.Cond(NOT_FULL)))
    && (a'.lock == a.lock || ((a.lock == None || a.lock == Some(t)) && (a'.lock == None || a'.lock == Some(t))))
    && (a.lock == Some(t) || (c'.readpos == c.readpos && c'.writepos == c.writepos))
  }

  lemma MoverDecides(c: State, a: B.State, c': State, a': B.State, t: Tid)
    requires Related(c, a) && OnlyMoves(c, a, c', a', t) && ThreadSim(c', a', t) && DataSim(c', a')
    ensures Sim(c', a')
  {
    forall u ensures ThreadSim(c', a', u) {
      assert ThreadSim(c, a, u) && B.ThreadOk(a, u);
      if u != t { ThreadFrame(c, a, c', a', u); }
    }
  }

  lemma QuietSim(c: State, a: B.State, c': State, t: Tid)
    requires Related(c, a) && CallStep(c, c', t)
    requires c'.locks.cond == c.locks.cond && c'.locks.depth == c.locks.depth
    requires var j := c.JobOf(t);
      SameStage(j, c.locks.Pc(t), c'.JobOf(t), c'.locks.Pc(t), t in c.locks.Cond(Awaits(j.op)))
    ensures Sim(c', a)
  {
    assert ThreadSim(c, a, t);
    MoverStays(c, a, c', t);
    MoverDecides(c, a, c', a, t);
  }

  /** The steps of the monitor program by stage. */
  lemma LockFollows(a: B.State, mv: Move, op: B.Call)
    requires IsStage(op, Lock, a.Pc(mv.t)) && a.lock == None
    ensures B.Enabled(a, B.Move(mv.t, mv.op))
    ensures var a' := Follow(a, mv);
      a' == a.(lock := Some(mv.t)).At(mv.t, a'.Pc(mv.t)) && IsStage(op, Check, a'.Pc(mv.t))
  {
  }

  lemma WaitFollows(c: State, a: B.State, mv: Move, op: B.Call)
    requires IsStage(op, Check, a.Pc(mv.t)) && a.readpos == c.readpos && a.writepos == c.writepos && MustWait(c, op)
    ensures B.Enabled(a, B.Move(mv.t, mv.op))
    ensures var a', t := Follow(a, mv), mv.t;
      && IsStage(op, Wait, a'.Pc(t))
      && a' == (if op.Put? then a.(lock := None, notFull := a.notFull + [t])
                else a.(lock := None, notEmpty := a.notEmpty + [t])).At(t, a'.Pc(t))
  {
  }

  lemma CheckFollows(c: State, a: B.State, mv: Move, op: B.Call)
    requires IsStage(op, Check, a.Pc(mv.t)) && a.readpos == c.readpos && a.writepos == c.writepos && !MustWait(c, op)
    ensures B.Enabled(a, B.Move(mv.t, mv.op))
    ensures var a' := Follow(a, mv); a' == a.At(mv.t, a'.Pc(mv.t)) && IsStage(op, Transfers, a'.Pc(mv.t))
  {
  }

  lemma UnlockFollows(a: B.State, mv: Move, op: B.Call)
    requires IsStage(op, Unlock, a.Pc(mv.t))
    ensures B.Enabled(a, B.Move(mv.t, mv.op)) && Follow(a, mv) == a.(lock := None).At(mv.t, B.Idle)
  {
  }

  function Announced(a: B.State, op: B.Call): seq<Tid> { if op.Put? then a.notEmpty else a.notFull }

  /** A waiter of the other kind goes from the queue to the mutex. */
  predicate Awakes(p: B.Pc, p': B.Pc, op: B.Call) {
    if op.Put? then p == B.GetWait && p' == B.GetLock(true) else p.PutWait? && p' == B.PutLock(p.d, true)
  }

  ghost predicate Signals(a: B.State, a': B.State, t: Tid, op: B.Call) {
    var q := Announced(a, op);
    && IsStage(op, Unlock, a'.Pc(t))
    && a' == a.(notEmpty := if op.Put? && q != [] then q[1..] else a.notEmpty,
                notFull := if op.Get? && q != [] then q[1..] else a.notFull, pc := a'.pc)
    && (forall u | u != t && !(q != [] && u == q[0]) :: a'.Pc(u) == a.Pc(u))
    && (q != [] ==> q[0] != t && Awakes(a.Pc(q[0]), a'.Pc(q[0]), op))
  }

  lemma SignalFollows(a: B.State, mv: Move, op: B.Call)
    requires IsStage(op, Signal, a.Pc(mv.t)) && (Announced(a, op) != [] ==> B.ThreadOk(a, Announced(a, op)[0]))
    ensures B.Enabled(a, B.Move(mv.t, mv.op)) && Signals(a, Follow(a, mv), mv.t, op)
  {
  }

  lemma LockIsFree(c: State, a: B.State, h: map<L.Mid, Tid>)
    requires Sim(c, a) && LC.CountOk(c.locks, h, LOCK) && c.locks.Mu(LOCK).count == 0
    ensures a.lock == None
  {
    forall u: Tid ensures a.lock != Some(u) { assert ThreadSim(c, a, u); }
  }

  lemma GrantLocks(s: L.State, lm: L.Move)
    requires s.Pc(lm.t) == L.LockBody(LOCK) && s.Mu(LOCK).kind == L.Fast && s.Mu(LOCK).count == 0
    ensures var s' := L.Step(s, lm);
      s'.cond == s.cond && s'.Depth(LOCK, lm.t) > 0 && s'.Pc(lm.t) == L.LockRel(LOCK, true)
  {
  }

  /** Getting the mutex, in pthread_mutex_lock or at the end of a wait. */
  lemma GrantSim(c: State, a: B.State, c': State, mv: Move)
    requires Related(c, a) && CallStep(c, c', mv.t) && c.locks.Pc(mv.t) == L.LockBody(LOCK) && a.lock == None
    requires c'.locks.cond == c.locks.cond && c'.locks.Depth(LOCK, mv.t) > 0
    requires c'.locks.Pc(mv.t) == L.LockRel(LOCK, true)
    ensures B.Enabled(a, B.Move(mv.t, mv.op)) && Sim(c', Follow(a, mv))
  {
    assert ThreadSim(c, a, mv.t);
    LockFollows(a, mv, c.JobOf(mv.t).op);
    MoverDecides(c, a, c', Follow(a, mv), mv.t);
  }

  lemma EnqueueLocks(s: L.State, lm: L.Move, k: L.Cid)
    requires s.Pc(lm.t) == L.CondEnq(k, LOCK, false)
    ensures var s' := L.Step(s, lm);
      && s'.Cond(k) == s.Cond(k) + [lm.t] && (forall i | i != k :: s'.Cond(i) == s.Cond(i))
      && s'.depth == s.depth && s'.Pc(lm.t) == L.CondRel(k, LOCK, false)
  {
  }

  /** Joining the queue of the condition. */
  lemma EnqueueSim(c: State, a: B.State, c': State, mv: Move)
    requires Related(c, a) && CallStep(c, c', mv.t) && c.locks.Pc(mv.t).CondEnq?
    requires var k := Awaits(c.JobOf(mv.t).op);
      && c'.locks.Cond(k) == c.locks.Cond(k) + [mv.t] && (forall i | i != k :: c'.locks.Cond(i) == c.locks.Cond(i))
      && c'.locks.depth == c.locks.depth && c'.locks.Pc(mv.t) == L.CondRel(k, LOCK, false)
    ensures B.Enabled(a, B.Move(mv.t, mv.op)) && Sim(c', Follow(a, mv))
  {
    assert ThreadSim(c, a, mv.t) && B.ThreadOk(a, mv.t);
    WaitFollows(c, a, mv, c.JobOf(mv.t).op);
    MoverDecides(c, a, c', Follow(a, mv), mv.t);
  }

  lemma FreeLocks(s: L.State, h: map<L.Mid, Tid>, lm: L.Move)
    requires s.Pc(lm.t).UnlBody? && s.Pc(lm.t).m == LOCK && LC.CountOk(s, h, LOCK) && s.Mu(LOCK).kind == L.Fast
    ensures var s' := L.Step(s, lm); s'.cond == s.cond && s'.Depth(LOCK, lm.t) == 0 && Frees(s.Pc(lm.t), s'.Pc(lm.t))
  {
  }

  predicate Frees(p: L.Pc, p': L.Pc) { p.UnlBody? && p'.UnlRel? && p'.m == p.m && p'.k == p.k }

  /** Freeing the mutex at the end of put or get. */
  lemma UnlockSim(c: State, a: B.State, c': State, mv: Move)
    requires Related(c, a) && CallStep(c, c', mv.t) && c.JobOf(mv.t).at == Unlocking
    requires c'.locks.cond == c.locks.cond && c'.locks.Depth(LOCK, mv.t) == 0
    requires Frees(c.locks.Pc(mv.t), c'.locks.Pc(mv.t))
    ensures B.Enabled(a, B.Move(mv.t, mv.op)) && Sim(c', Follow(a, mv))
  {
    assert ThreadSim(c, a, mv.t) && B.ThreadOk(a, mv.t);
    UnlockFollows(a, mv, c.JobOf(mv.t).op);
    MoverDecides(c, a, c', Follow(a, mv), mv.t);
  }

  /** Freeing it inside a wait: the monitor program did that when it joined the queue. */
  lemma LetGoSim(c: State, a: B.State, c': State, t: Tid)
    requires Related(c, a) && CallStep(c, c', t) && c.JobOf(t).at != Unlocking
    requires c'.locks.cond == c.locks.cond && c'.locks.Depth(LOCK, t) == 0
    requires Frees(c.locks.Pc(t), c'.locks.Pc(t))
    ensures Sim(c', a)
  {
    assert ThreadSim(c, a, t) && B.ThreadOk(a, t);
    MoverDecides(c, a, c', a, t);
  }

  lemma ClaimLocks(s: L.State, lm: L.Move, k: L.Cid)
    requires s.Pc(lm.t) == L.SigBody(k, false)
    ensures var s' := L.Step(s, lm);
      && s'.Cond(k) == (if s.Cond(k) == [] then [] else s.Cond(k)[1..])
      && (forall i | i != k :: s'.Cond(i) == s.Cond(i))
      && s'.depth == s.depth && s'.Pc(lm.t).SigRel? && s'.Pc(lm.t).c == k
  {
  }

  lemma WaiterSim(c: State, a: B.State, c': State, a': B.State, w: Tid, op: B.Call)
    requires ThreadSim(c, a, w) && Awakes(a.Pc(w), a'.Pc(w), op) && a'.lock == a.lock
    requires c'.JobOf(w) == c.JobOf(w) && c'.locks.Pc(w) == c.locks.Pc(w)
    requires c'.locks.Depth(LOCK, w) == c.locks.Depth(LOCK, w) && w !in c'.locks.Cond(Announces(op))
    ensures ThreadSim(c', a', w)
  {
  }

  /** Signalling: the first waiter is no longer queued. */
  lemma ClaimSim(c: State, a: B.State, c': State, a': B.State, t: Tid)
    requires Related(c, a) && CallStep(c, c', t) && c.locks.Pc(t).SigBody? && c.JobOf(t).at == Signalling
    requires Signals(a, a', t, c.JobOf(t).op) && Distinct(Announced(a, c.JobOf(t).op))
    requires var k := Announces(c.JobOf(t).op);
      && c'.locks.Cond(k) == (if c.locks.Cond(k) == [] then [] else c.locks.Cond(k)[1..])
      && (forall i | i != k :: c'.locks.Cond(i) == c.locks.Cond(i))
      && c'.locks.depth == c.locks.depth && c'.locks.Pc(t).SigRel? && c'.locks.Pc(t).c == k
    ensures Sim(c', a')
  {
    var op := c.JobOf(t).op;
    var q := Announced(a, op);
    assert q == c.locks.Cond(Announces(op));
    forall u ensures ThreadSim(c', a', u) {
      assert ThreadSim(c, a, u) && B.ThreadOk(a, u);
      if u != t {
        if q != [] && u == q[0] { WaiterSim(c, a, c', a', u, op); }
        else { ThreadFrame(c, a, c', a', u); }
      }
    }
  }

  lemma StartSim(c: State, a: B.State, mv: Move)
    requires Related(c, a) && Enabled(c, mv) && c.JobOf(mv.t) == Outside
    ensures B.Enabled(a, B.Move(mv.t, mv.op)) && Sim(Step(c, mv), Follow(a, mv))
  {
    assert ThreadSim(c, a, mv.t) && B.ThreadOk(a, mv.t);
    MoverDecides(c, a, Step(c, mv), Follow(a, mv), mv.t);
  }

  /** Having to wait is no step of the monitor program yet. */
  lemma MustWaitSim(c: State, a: B.State, mv: Move)
    requires Related(c, a) && Enabled(c, mv) && c.JobOf(mv.t).Job? && c.JobOf(mv.t).at == Testing
    requires MustWait(c, c.JobOf(mv.t).op)
    ensures Sim(Step(c, mv), a)
  {
    assert ThreadSim(c, a, mv.t) && B.ThreadOk(a, mv.t);
    MoverDecides(c, a, Step(c, mv), a, mv.t);
  }

  lemma MayGoOnSim(c: State, a: B.State, mv: Move)
    requires Related(c, a) && Enabled(c, mv) && c.JobOf(mv.t).Job? && c.JobOf(mv.t).at == Testing
    requires !MustWait(c, c.JobOf(mv.t).op)
    ensures B.Enabled(a, B.Move(mv.t, mv.op)) && Sim(Step(c, mv), Follow(a, mv))
  {
    assert ThreadSim(c, a, mv.t) && B.ThreadOk(a, mv.t);
    CheckFollows(c, a, mv, c.JobOf(mv.t).op);
    MoverDecides(c, a, Step(c, mv), Follow(a, mv), mv.t);
  }

  lemma TransferSim(c: State, a: B.State, mv: Move)
    requires Related(c, a) && Enabled(c, mv) && c.JobOf(mv.t).Job? && c.JobOf(mv.t).at == Moving
    ensures B.Enabled(a, B.Move(mv.t, mv.op)) && Sim(Step(c, mv), Follow(a, mv))
  {
    assert ThreadSim(c, a, mv.t) && B.ThreadOk(a, mv.t);
    MoverDecides(c, a, Step(c, mv), Follow(a, mv), mv.t);
  }

  lemma QuietCall(c: State, a: B.State, mv: Move)
    requires Related(c, a) && Enabled(c, mv) && c.JobOf(mv.t).Job? && InCall(c.JobOf(mv.t).at) && Quiet(c.locks, mv.t)
    requires mv.t in c.locks.pending ==> mv.t !in c.locks.Cond(Awaits(c.JobOf(mv.t).op))
    ensures Sim(Step(c, mv), a)
  {
    var t, j := mv.t, c.JobOf(mv.t);
    assert ThreadSim(c, a, t);
    IsCallStep(c, mv);
    QuietLocks(c.locks, LockMove(t, j));
    QuietPoint(c.locks, t, j, t in c.locks.Cond(Awaits(j.op)));
    QuietSim(c, a, Step(c, mv), t);
  }

  lemma MutexCall(c: State, a: B.State, h: map<L.Mid, Tid>, mv: Move) returns (a': B.State)
    requires Related(c, a) && LC.CountOk(c.locks, h, LOCK)
    requires Enabled(c, mv) && c.JobOf(mv.t).Job? && InCall(c.JobOf(mv.t).at)
    requires c.locks.Pc(mv.t).UnlBody? || (c.locks.Pc(mv.t).LockBody? && !Quiet(c.locks, mv.t))
    ensures Sim(Step(c, mv), a')
    ensures a' == a || (B.Enabled(a, B.Move(mv.t, mv.op)) && a' == Follow(a, mv))
  {
    var c', t, lm := Step(c, mv), mv.t, LockMove(mv.t, c.JobOf(mv.t));
    assert ThreadSim(c, a, t);
    IsCallStep(c, mv);
    a' := a;
    if c.locks.Pc(t).LockBody? {
      GrantLocks(c.locks, lm);
      LockIsFree(c, a, h);
      GrantSim(c, a, c', mv);
      a' := Follow(a, mv);
    } else {
      FreeLocks(c.locks, h, lm);
      if c.JobOf(t).at == Unlocking { UnlockSim(c, a, c', mv); a' := Follow(a, mv); } else { LetGoSim(c, a, c', t); }
    }
  }

  lemma CondCall(c: State, a: B.State, mv: Move)
    requires Related(c, a) && B.DataOk(a)
    requires Enabled(c, mv) && c.JobOf(mv.t).Job? && InCall(c.JobOf(mv.t).at)
    requires c.locks.Pc(mv.t).CondEnq? || c.locks.Pc(mv.t).SigBody?
    ensures B.Enabled(a, B.Move(mv.t, mv.op)) && Sim(Step(c, mv), Follow(a, mv))
  {
    var c', t, op := Step(c, mv), mv.t, c.JobOf(mv.t).op;
    var lm := LockMove(t, c.JobOf(t));
    assert ThreadSim(c, a, t);
    IsCallStep(c, mv);
    if c.locks.Pc(t).CondEnq? {
      EnqueueLocks(c.locks, lm, Awaits(op));
      EnqueueSim(c, a, c', mv);
    } else {
      ClaimLocks(c.locks, lm, Announces(op));
      SignalFollows(a, mv, op);
      ClaimSim(c, a, c', Follow(a, mv), t);
    }
  }

  /** A step of a call: of the monitor program too when it gets or frees the mutex, joins
      a queue or takes a waiter off one. */
  lemma CallSim(c: State, a: B.State, g: map<Tid, LI.Place>, h: map<L.Mid, Tid>, mv: Move) returns (a': B.State)
    requires Related(c, a) && LI.Inv(c.locks, g) && LC.CountOk(c.locks, h, LOCK) && B.DataOk(a)
    requires Enabled(c, mv) && c.JobOf(mv.t).Job? && InCall(c.JobOf(mv.t).at)
    ensures Sim(Step(c, mv), a')
    ensures a' == a || (B.Enabled(a, B.Move(mv.t, mv.op)) && a' == Follow(a, mv))
  {
    var t, p := mv.t, c.locks.Pc(mv.t);
    if Quiet(c.locks, t) {
      if t in c.locks.pending { PendingNotQueued(c.locks, g, t, Awaits(c.JobOf(t).op)); }
      QuietCall(c, a, mv);
      a' := a;
    } else if p.CondEnq? || p.SigBody? {
      CondCall(c, a, mv);
      a' := Follow(a, mv);
    } else {
      a' := MutexCall(c, a, h, mv);
    }
  }

  /** A step of the program is a step of the monitor program or none at all. */
  lemma StepSim(c: State, a: B.State, g: map<Tid, LI.Place>, h: map<L.Mid, Tid>, mv: Move) returns (a': B.State)
    requires Sim(c, a) && B.Inv(a) && LI.Inv(c.locks, g) && LC.Core(c.locks, h) && Enabled(c, mv)
    ensures Sim(Step(c, mv), a')
    ensures a' == a || (B.Enabled(a, B.Move(mv.t, mv.op)) && a' == Follow(a, mv))
  {
    var j := c.JobOf(mv.t);
    assert LC.CountOk(c.locks, h, LOCK);
    if j == Outside { StartSim(c, a, mv); a' := Follow(a, mv); }
    else if InCall(j.at) { a' := CallSim(c, a, g, h, mv); }
    else if j.at == Moving { TransferSim(c, a, mv); a' := Follow(a, mv); }
    else if MustWait(c, j.op) { MustWaitSim(c, a, mv); a' := a; }
    else { MayGoOnSim(c, a, mv); a' := Follow(a, mv); }
  }
}
