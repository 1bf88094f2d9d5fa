/** Every joint run is three runs of the systems on their own. */
module JointRuns {
  import Words
  import S = Semaphore
  import SC = SemaphoreCounter
  import L = Locks
  import LT = LocksTheorems
  import F = Lifecycle
  import FT = LifecycleTheorems
  import opened Joint
  import opened JointViews

  /** The moves of a joint run that belong to each system. */
  function SemMoves(ms: seq<Move>): seq<S.Move> {
    if ms == [] then []
    else var r, mv := SemMoves(ms[..|ms|-1]), ms[|ms|-1]; if mv.Sem? then r + [S.Move(Address(mv.n), mv.call)] else r
  }

  function LockMoves(ms: seq<Move>): seq<L.Move> {
    if ms == [] then []
    else var r, mv := LockMoves(ms[..|ms|-1]), ms[|ms|-1]; if mv.Lock? then r + [mv.lm] else r
  }

  function LifeMoves(ms: seq<Move>): seq<F.Move> {
    if ms == [] then []
    else var r, mv := LifeMoves(ms[..|ms|-1]), ms[|ms|-1]; if mv.Life? then r + [mv.fm] else r
  }

  /** Each system with a set of pending restarts of its own. */
  datatype Own = Own(s: S.State, l: L.State, f: F.State)

  ghost function Apart(j: State, ms: seq<Move>): Own {
    Own(S.Exec(j.sem, SemMoves(ms)), L.Exec(j.locks, LockMoves(ms)), F.Exec(j.life, LifeMoves(ms)))
  }

  predicate Owns(o: Own, p: Protocol, n: Tid) {
    match p
    case InSem => Address(n) in o.s.pending
    case InLocks => n in o.l.pending
    case InLife => n in o.f.pending
  }

  /** The joint state is the three states with their pending sets thrown together. */
  ghost predicate Merges(j: State, o: Own) {
    && j.sem == o.s.(pending := {}) && j.locks == o.l.(pending := {}) && j.life == o.f.(pending := {})
    && forall n :: n in j.pending <==> Owns(o, InSem, n) || Owns(o, InLocks, n) || Owns(o, InLife, n)
  }

  /** A thread is inside a call of at most one system. */
  ghost predicate OneCall(j: State, n: Tid) {
    forall p, q | j.Inside(p, n) && j.Inside(q, n) :: p == q
  }

  /** n is at a suspend of p. */
  predicate Sleeps(j: State, p: Protocol, n: Tid) {
    match p
    case InSem => j.sem.Pc(Address(n)).WaitSuspend?
    case InLocks => LockSleeps(j.locks.Pc(n))
    case InLife => LifeSleeps(j.life.Pc(n))
  }

  /** The suspend of n in p, if it is at one, finds no restart of another system. */
  ghost predicate Undisturbed(j: State, o: Own, p: Protocol, n: Tid) {
    Sleeps(j, p, n) ==> forall q | q != p :: !Owns(o, q, n)
  }

  lemma Addresses(p: set<Tid>, n: Tid)
    ensures Address(n) in (set m | m in p :: Address(m)) <==> n in p
  {
  }

  lemma Numbers(p: set<Words.Tid>, n: Tid)
    ensures n in (set u | u in p :: Number(u)) <==> Address(n) in p
  {
    assert Number(Address(n)) == n;
    forall u | u in p && Number(u) == n ensures u == Address(n) { }
  }

  /** A joint step is a step of one of the three systems on its own, with the same event. */
  lemma SemMerges(j: State, o: Own, n: Tid, call: S.Call)
    requires Merges(j, o) && Enabled(j, Sem(n, call))
    requires Undisturbed(j, o, InSem, n)
    ensures S.Enabled(o.s, Address(n))
    ensures S.EventOf(j.Sem(), Address(n), call) == S.EventOf(o.s, Address(n), call)
    ensures Merges(Step(j, Sem(n, call)), o.(s := S.Step(o.s, Address(n), call)))
  {
    var v, t := j.Sem(), Address(n);
    Addresses(j.pending, n);
    SemView(o.s, v.pending, t, call);
    forall m ensures m in Step(j, Sem(n, call)).pending <==>
      Address(m) in S.Step(o.s, t, call).pending || Owns(o, InLocks, m) || Owns(o, InLife, m)
    {
      Addresses(j.pending, m);
      Numbers(S.Step(v, t, call).pending, m);
      SemPending(v, t, call, Address(m));
      SemPending(o.s, t, call, Address(m));
    }
  }

  lemma LockMerges(j: State, o: Own, lm: L.Move)
    requires Merges(j, o) && Enabled(j, Lock(lm))
    requires Undisturbed(j, o, InLocks, lm.t)
    ensures L.Enabled(o.l, lm)
    ensures L.EventOf(j.Locks(), lm) == L.EventOf(o.l, lm)
    ensures Merges(Step(j, Lock(lm)), o.(l := L.Step(o.l, lm)))
  {
    LockView(o.l, j.pending, lm);
    forall m ensures m in Step(j, Lock(lm)).pending <==>
      Owns(o, InSem, m) || m in L.Step(o.l, lm).pending || Owns(o, InLife, m)
    {
      LockPending(j.Locks(), lm, m);
      LockPending(o.l, lm, m);
    }
  }

  lemma LifeMerges(j: State, o: Own, fm: F.Move)
    requires Merges(j, o) && Enabled(j, Life(fm))
    requires fm.Go? ==> Undisturbed(j, o, InLife, fm.t)
    ensures F.Enabled(o.f, fm)
    ensures F.EventOf(j.Life(), fm) == F.EventOf(o.f, fm)
    ensures Merges(Step(j, Life(fm)), o.(f := F.Step(o.f, fm)))
  {
    LifeView(o.f, j.pending, fm);
    forall m ensures m in Step(j, Life(fm)).pending <==>
      Owns(o, InSem, m) || Owns(o, InLocks, m) || m in F.Step(o.f, fm).pending
    {
      LifePending(j.Life(), fm, m);
      LifePending(o.f, fm, m);
    }
  }

  /** The step is n's, in system p. */
  predicate Moves(mv: Move, p: Protocol, n: Tid) {
    match mv
    case Sem(m, _) => p == InSem && m == n
    case Lock(lm) => p == InLocks && lm.t == n
    case Life(fm) => p == InLife && fm.Go? && fm.t == n
  }

  lemma CallsStay(j: State, mv: Move, p: Protocol, n: Tid)
    requires Enabled(j, mv) && !Moves(mv, p, n)
    ensures Step(j, mv).Inside(p, n) ==> j.Inside(p, n)
  {
    match mv
    case Sem(m, call) => if p == InSem { SC.OthersMove(j.Sem(), S.Move(Address(m), call), Address(n)); }
    case Lock(lm) => if p == InLocks { LT.OthersWait(j.Locks(), lm, n); }
    case Life(fm) => if p == InLife { LifeOthers(j.Life(), fm, n); }
  }

  /** A call starts only outside all calls, so a thread is never inside two. */
  lemma StepKeepsOneCall(j: State, mv: Move, n: Tid)
    requires Enabled(j, mv) && OneCall(j, n)
    ensures OneCall(Step(j, mv), n)
  {
    var j' := Step(j, mv);
    forall p, q | j'.Inside(p, n) && j'.Inside(q, n) ensures p == q {
      if !Moves(mv, p, n) { CallsStay(j, mv, p, n); }
      if !Moves(mv, q, n) { CallsStay(j, mv, q, n); }
    }
  }

  lemma LifeOthers(s: F.State, fm: F.Move, n: Tid)
    requires F.Enabled(s, fm) && !(fm.Go? && fm.t == n)
    ensures var p := F.Step(s, fm).Pc(n); p == s.Pc(n) || p == F.Running
  {
  }

  /** Runs of the three systems on their own. */
  ghost predicate RunsApart(j0: State, ms: seq<Move>) {
    && S.Legal(j0.sem, SemMoves(ms))
    && L.Legal(j0.locks, LockMoves(ms))
    && F.Legal(j0.life, LifeMoves(ms))
  }

  ghost predicate CleanApart(j0: State, ms: seq<Move>) { L.CleanRun(j0.locks, LockMoves(ms)) }

  /** A restart a system has sent and that is still pending is for a wait of that system. */
  lemma {:induction false} OwnedWaits(j0: State, ms: seq<Move>, j: State, p: Protocol, n: Tid)
    requires Initial(j0) && RunsApart(j0, ms) && CleanApart(j0, ms) && Merges(j, Apart(j0, ms))
    requires Owns(Apart(j0, ms), p, n)
    ensures Waits(j, p, n)
  {
    match p
    case InSem => SC.OneRestartPerWait(j0.sem, SemMoves(ms), Address(n));
    case InLocks => LT.OneRestartPerWait(j0.locks, LockMoves(ms), n);
    case InLife => FT.OneRestartPerWait(LifeMoves(ms), n);
  }

  lemma WaitsInCall(j: State, p: Protocol, n: Tid)
    requires Waits(j, p, n)
    ensures j.Inside(p, n)
  {
  }

  lemma SleepsInCall(j: State, p: Protocol, n: Tid)
    requires Sleeps(j, p, n)
    ensures j.Inside(p, n)
  {
  }

  /** So, if no time-out has raced with a signal, no suspend is disturbed. */
  lemma {:induction false} CleanIsUndisturbed(j0: State, ms: seq<Move>, j: State, p: Protocol, n: Tid)
    requires Initial(j0) && RunsApart(j0, ms) && CleanApart(j0, ms) && Merges(j, Apart(j0, ms)) && OneCall(j, n)
    ensures Undisturbed(j, Apart(j0, ms), p, n)
  {
    if Sleeps(j, p, n) {
      SleepsInCall(j, p, n);
      forall q | q != p ensures !Owns(Apart(j0, ms), q, n) {
        if Owns(Apart(j0, ms), q, n) { OwnedWaits(j0, ms, j, q, n); WaitsInCall(j, q, n); }
      }
    }
  }

  lemma {:induction false} Projections(ms: seq<Move>, mv: Move)
    ensures SemMoves(ms + [mv]) == if mv.Sem? then SemMoves(ms) + [S.Move(Address(mv.n), mv.call)] else SemMoves(ms)
    ensures LockMoves(ms + [mv]) == if mv.Lock? then LockMoves(ms) + [mv.lm] else LockMoves(ms)
    ensures LifeMoves(ms + [mv]) == if mv.Life? then LifeMoves(ms) + [mv.fm] else LifeMoves(ms)
  {
    assert (ms + [mv])[..|ms|] == ms;
  }

  lemma {:induction false} ExtendLocks(s: L.State, ms: seq<L.Move>, mv: L.Move)
    requires L.Legal(s, ms) && L.Enabled(L.Exec(s, ms), mv)
    ensures L.Legal(s, ms + [mv]) && L.Exec(s, ms + [mv]) == L.Step(L.Exec(s, ms), mv)
    ensures L.Trace(s, ms + [mv]) == L.Trace(s, ms) + [L.EventOf(L.Exec(s, ms), mv)]
    ensures L.CleanRun(s, ms + [mv]) <==> L.CleanRun(s, ms) && L.Clean(L.Exec(s, ms), mv.t)
  {
    assert (ms + [mv])[..|ms|] == ms;
  }

  lemma {:induction false} ExtendLife(s: F.State, ms: seq<F.Move>, mv: F.Move)
    requires F.Legal(s, ms) && F.Enabled(F.Exec(s, ms), mv)
    ensures F.Legal(s, ms + [mv]) && F.Exec(s, ms + [mv]) == F.Step(F.Exec(s, ms), mv)
    ensures F.Trace(s, ms + [mv]) == F.Trace(s, ms) + [F.EventOf(F.Exec(s, ms), mv)]
  {
    assert (ms + [mv])[..|ms|] == ms;
  }

  lemma {:induction false} SemRuns(j0: State, ms: seq<Move>, mv: Move)
    requires mv.Sem? && RunsApart(j0, ms) && S.Enabled(Apart(j0, ms).s, Address(mv.n))
    ensures RunsApart(j0, ms + [mv]) && (CleanApart(j0, ms + [mv]) <==> CleanApart(j0, ms))
    ensures Apart(j0, ms + [mv]) == Apart(j0, ms).(s := S.Step(Apart(j0, ms).s, Address(mv.n), mv.call))
  {
    Projections(ms, mv);
    var r, m := SemMoves(ms), S.Move(Address(mv.n), mv.call);
    SC.Extend(j0.sem, r, m);
    assert SemMoves(ms + [mv]) == r + [m];
  }

  lemma {:induction false} LockRuns(j0: State, ms: seq<Move>, mv: Move)
    requires mv.Lock? && RunsApart(j0, ms) && L.Enabled(Apart(j0, ms).l, mv.lm)
    ensures RunsApart(j0, ms + [mv])
    ensures CleanApart(j0, ms + [mv]) <==> CleanApart(j0, ms) && L.Clean(Apart(j0, ms).l, mv.lm.t)
    ensures Apart(j0, ms + [mv]) == Apart(j0, ms).(l := L.Step(Apart(j0, ms).l, mv.lm))
  {
    Projections(ms, mv);
    ExtendLocks(j0.locks, LockMoves(ms), mv.lm);
  }

  lemma {:induction false} LifeRuns(j0: State, ms: seq<Move>, mv: Move)
    requires mv.Life? && RunsApart(j0, ms) && F.Enabled(Apart(j0, ms).f, mv.fm)
    ensures RunsApart(j0, ms + [mv]) && (CleanApart(j0, ms + [mv]) <==> CleanApart(j0, ms))
    ensures Apart(j0, ms + [mv]) == Apart(j0, ms).(f := F.Step(Apart(j0, ms).f, mv.fm))
  {
    Projections(ms, mv);
    ExtendLife(j0.life, LifeMoves(ms), mv.fm);
  }

  /** The event a joint step shows is that of the system on its own. */
  ghost predicate SameEvent(j: State, o: Own, mv: Move)
    requires Enabled(j, mv)
  {
    match mv
    case Sem(n, call) =>
      S.Enabled(o.s, Address(n)) && S.EventOf(j.Sem(), Address(n), call) == S.EventOf(o.s, Address(n), call)
    case Lock(lm) => L.Enabled(o.l, lm) && L.EventOf(j.Locks(), lm) == L.EventOf(o.l, lm)
    case Life(fm) => F.Enabled(o.f, fm) && F.EventOf(j.Life(), fm) == F.EventOf(o.f, fm)
  }

  ghost function Moved(j: State, o: Own, mv: Move): Own
    requires Enabled(j, mv) && SameEvent(j, o, mv)
  {
    match mv
    case Sem(n, call) => o.(s := S.Step(o.s, Address(n), call))
    case Lock(lm) => o.(l := L.Step(o.l, lm))
    case Life(fm) => o.(f := F.Step(o.f, fm))
  }

  /** The thread that moves, if it is one, and its system. */
  ghost predicate MoverUndisturbed(j: State, o: Own, mv: Move) {
    match mv
    case Sem(n, _) => Undisturbed(j, o, InSem, n)
    case Lock(lm) => Undisturbed(j, o, InLocks, lm.t)
    case Life(fm) => fm.Go? ==> Undisturbed(j, o, InLife, fm.t)
  }

  lemma {:induction false} StepMerges(j0: State, ms: seq<Move>, j: State, mv: Move)
    requires RunsApart(j0, ms) && Merges(j, Apart(j0, ms))
    requires Enabled(j, mv) && MoverUndisturbed(j, Apart(j0, ms), mv)
    ensures RunsApart(j0, ms + [mv]) && Merges(Step(j, mv), Apart(j0, ms + [mv]))
    ensures CleanApart(j0, ms + [mv]) <==> CleanApart(j0, ms) && Clean(j, mv)
    ensures SameEvent(j, Apart(j0, ms), mv)
    ensures Apart(j0, ms + [mv]) == Moved(j, Apart(j0, ms), mv)
  {
    var o := Apart(j0, ms);
    match mv
    case Sem(n, call) => SemMerges(j, o, n, call); SemRuns(j0, ms, mv);
    case Lock(lm) => LockMerges(j, o, lm); LockRuns(j0, ms, mv);
    case Life(fm) => LifeMerges(j, o, fm); LifeRuns(j0, ms, mv);
  }

  /** No suspend in the run finds a restart of another system. */
  ghost predicate OwnRun(j0: State, ms: seq<Move>) {
    ms == [] || (OwnRun(j0, ms[..|ms|-1]) && OwnStep(j0, ms[..|ms|-1], ms[|ms|-1]))
  }

  ghost predicate OwnStep(j0: State, ms: seq<Move>, mv: Move) {
    MoverUndisturbed(Exec(j0, ms), Apart(j0, ms), mv)
  }

  lemma {:induction false} LastStep(j0: State, ms: seq<Move>)
    requires Legal(j0, ms) && ms != []
    ensures var ms', mv := ms[..|ms|-1], ms[|ms|-1];
      && Legal(j0, ms') && Enabled(Exec(j0, ms'), mv) && Exec(j0, ms) == Step(Exec(j0, ms'), mv) && ms == ms' + [mv]
  {
  }

  lemma {:induction false} AlwaysOneCall(j0: State, ms: seq<Move>, n: Tid)
    requires Initial(j0) && Legal(j0, ms)
    ensures OneCall(Exec(j0, ms), n)
    decreases |ms|
  {
    if ms != [] {
      LastStep(j0, ms);
      AlwaysOneCall(j0, ms[..|ms|-1], n);
      StepKeepsOneCall(Exec(j0, ms[..|ms|-1]), ms[|ms|-1], n);
    }
  }

  /** Every such run is three runs of the systems on their own, and its pending set is
      theirs thrown together. */
  lemma {:induction false} OwnRunMerges(j0: State, ms: seq<Move>)
    requires Initial(j0) && Legal(j0, ms) && OwnRun(j0, ms)
    ensures RunsApart(j0, ms) && Merges(Exec(j0, ms), Apart(j0, ms))
    decreases |ms|
  {
    if ms != [] {
      LastStep(j0, ms);
      OwnRunMerges(j0, ms[..|ms|-1]);
      StepMerges(j0, ms[..|ms|-1], Exec(j0, ms[..|ms|-1]), ms[|ms|-1]);
    }
  }

  lemma {:induction false} CleanMover(j0: State, ms: seq<Move>, j: State, mv: Move)
    requires Initial(j0) && RunsApart(j0, ms) && CleanApart(j0, ms) && Merges(j, Apart(j0, ms))
    requires forall n :: OneCall(j, n)
    ensures MoverUndisturbed(j, Apart(j0, ms), mv)
  {
    match mv
    case Sem(n, _) => CleanIsUndisturbed(j0, ms, j, InSem, n);
    case Lock(lm) => CleanIsUndisturbed(j0, ms, j, InLocks, lm.t);
    case Life(fm) => if fm.Go? { CleanIsUndisturbed(j0, ms, j, InLife, fm.t); }
  }

  lemma {:induction false} CleanStep(j0: State, ms: seq<Move>, j: State, mv: Move)
    requires Initial(j0) && RunsApart(j0, ms) && CleanApart(j0, ms) && Merges(j, Apart(j0, ms))
    requires (forall n :: OneCall(j, n)) && Enabled(j, mv) && Clean(j, mv)
    ensures MoverUndisturbed(j, Apart(j0, ms), mv) && CleanApart(j0, ms + [mv])
  {
    CleanMover(j0, ms, j, mv);
    StepMerges(j0, ms, j, mv);
  }

  lemma {:induction false} CleanOwn(j0: State, ms: seq<Move>)
    requires Initial(j0) && Legal(j0, ms) && CleanRun(j0, ms)
    ensures OwnRun(j0, ms) && CleanApart(j0, ms)
    decreases |ms|
  {
    if ms != [] {
      var ms', mv := ms[..|ms|-1], ms[|ms|-1];
      LastStep(j0, ms);
      CleanOwn(j0, ms');
      OwnRunMerges(j0, ms');
      forall n ensures OneCall(Exec(j0, ms'), n) { AlwaysOneCall(j0, ms', n); }
      CleanStep(j0, ms', Exec(j0, ms'), mv);
      assert OwnStep(j0, ms', mv);
    }
  }

  /** Main lemma: every joint run in which no time-out races with a signal is such a run. */
  lemma {:induction false} RunMerges(j0: State, ms: seq<Move>)
    requires Initial(j0) && Legal(j0, ms) && CleanRun(j0, ms)
    ensures OwnRun(j0, ms) && RunsApart(j0, ms) && CleanApart(j0, ms) && Merges(Exec(j0, ms), Apart(j0, ms))
    ensures forall n :: OneCall(Exec(j0, ms), n)
  {
    CleanOwn(j0, ms);
    OwnRunMerges(j0, ms);
    forall n ensures OneCall(Exec(j0, ms), n) { AlwaysOneCall(j0, ms, n); }
  }
}
