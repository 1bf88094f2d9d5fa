/** One pending bit per thread is enough for the whole library: in every joint run the
    three systems behave as if each had its own, and no restart of one of them ends a
    wait of another. */
module JointTheorems {
  import opened Options
  import S = Semaphore
  import SC = SemaphoreCounter
  import SK = SemaphoreCalls
  import L = Locks
  import LT = LocksTheorems
  import LK = LocksCalls
  import F = Lifecycle
  import FI = LifecycleInvariant
  import FT = LifecycleTheorems
  import opened Joint
  import opened JointViews
  import opened JointRuns

  /** The shared bit of a thread stands for at most one restart: the pending restarts
      are the disjoint union of those of the three systems, each is for a wait of the
      system that sent it, and no thread has two waits outstanding. */
  lemma {:induction false} OneBitPerThread(j0: State, ms: seq<Move>, n: Tid)
    requires Initial(j0) && Legal(j0, ms) && CleanRun(j0, ms)
    ensures var j, o := Exec(j0, ms), Apart(j0, ms);
      && (n in j.pending <==> exists p :: Owns(o, p, n))
      && (forall p, q | Owns(o, p, n) && Owns(o, q, n) :: p == q)
      && (forall p | Owns(o, p, n) :: Waits(j, p, n))
      && (forall p, q | Waits(j, p, n) && Waits(j, q, n) :: p == q)
  {
    var j, o := Exec(j0, ms), Apart(j0, ms);
    RunMerges(j0, ms);
    forall p | Owns(o, p, n) ensures Waits(j, p, n) { OwnedWaits(j0, ms, j, p, n); }
    forall p | Waits(j, p, n) ensures j.Inside(p, n) { WaitsInCall(j, p, n); }
    assert OneCall(j, n);
  }

  /** How often n was parked, restarted, resumed and withdrawn. */
  datatype Tally = Tally(parked: nat, restarted: nat, resumed: nat, withdrawn: nat)

  function Bump(y: Tally, k: Token, n: Tid): Tally {
    match k
    case Nothing => y
    case Park(m) => if m == n then y.(parked := y.parked + 1) else y
    case Restart(m) => if m == n then y.(restarted := y.restarted + 1) else y
    case Resume(m) => if m == n then y.(resumed := y.resumed + 1) else y
    case Withdraw(m) => if m == n then y.(withdrawn := y.withdrawn + 1) else y
  }

  function TallyOf(tr: seq<Event>, n: Tid): Tally {
    if tr == [] then Tally(0, 0, 0, 0) else Bump(TallyOf(tr[..|tr|-1], n), tr[|tr|-1].token, n)
  }

  function Plus(a: Tally, b: Tally): Tally {
    Tally(a.parked + b.parked, a.restarted + b.restarted, a.resumed + b.resumed, a.withdrawn + b.withdrawn)
  }

  function SemTally(tr: seq<S.Event>, n: Tid): Tally {
    var u := Address(n);
    Tally(SC.Count(tr, S.Parked(u)), SC.Count(tr, S.Restarted(u)), SC.Count(tr, S.Resumed(u)), 0)
  }

  function LockTally(tr: seq<L.Event>, n: Tid): Tally {
    var y := LT.TallyOf(tr, n);
    Tally(y.parked, y.restarted, y.resumed, y.withdrawn)
  }

  function LifeTally(tr: seq<F.Event>, n: Tid): Tally {
    var y := FT.TallyOf(tr, n);
    Tally(y.parked, y.restarted, y.resumed, 0)
  }

  /** The tallies of the three systems on their own, added up. */
  ghost function Tallies(j0: State, ms: seq<Move>, n: Tid): Tally
    requires RunsApart(j0, ms)
  {
    Plus(SemTally(S.Trace(j0.sem, SemMoves(ms)), n),
         Plus(LockTally(L.Trace(j0.locks, LockMoves(ms)), n), LifeTally(F.Trace(j0.life, LifeMoves(ms)), n)))
  }

  lemma SemTallyStep(tr: seq<S.Event>, e: S.Event, n: Tid)
    ensures SemTally(tr + [e], n) == Bump(SemTally(tr, n), SemToken(e), n)
  {
    assert (tr + [e])[..|tr|] == tr;
  }

  lemma LockTallyStep(tr: seq<L.Event>, e: L.Event, n: Tid)
    ensures LockTally(tr + [e], n) == Bump(LockTally(tr, n), LockToken(e), n)
  {
    assert (tr + [e])[..|tr|] == tr;
  }

  lemma LifeTallyStep(tr: seq<F.Event>, e: F.Event, n: Tid)
    ensures LifeTally(tr + [e], n) == Bump(LifeTally(tr, n), LifeToken(e), n)
  {
    assert (tr + [e])[..|tr|] == tr;
  }

  /** A step adds its event to the trace of its own system and to no other. */
  lemma {:induction false} SemTrace(j0: State, ms: seq<Move>, mv: Move)
    requires mv.Sem? && S.Legal(j0.sem, SemMoves(ms)) && S.Legal(j0.sem, SemMoves(ms + [mv]))
    requires S.Enabled(Apart(j0, ms).s, Address(mv.n))
    ensures LockMoves(ms + [mv]) == LockMoves(ms) && LifeMoves(ms + [mv]) == LifeMoves(ms)
    ensures S.Trace(j0.sem, SemMoves(ms + [mv])) ==
      S.Trace(j0.sem, SemMoves(ms)) + [S.EventOf(Apart(j0, ms).s, Address(mv.n), mv.call)]
  {
    Projections(ms, mv);
    var r, m := SemMoves(ms), S.Move(Address(mv.n), mv.call);
    SC.Extend(j0.sem, r, m);
    assert SemMoves(ms + [mv]) == r + [m];
  }

  lemma {:induction false} LockTrace(j0: State, ms: seq<Move>, mv: Move)
    requires mv.Lock? && L.Legal(j0.locks, LockMoves(ms)) && L.Legal(j0.locks, LockMoves(ms + [mv]))
    requires L.Enabled(Apart(j0, ms).l, mv.lm)
    ensures SemMoves(ms + [mv]) == SemMoves(ms) && LifeMoves(ms + [mv]) == LifeMoves(ms)
    ensures L.Trace(j0.locks, LockMoves(ms + [mv])) ==
      L.Trace(j0.locks, LockMoves(ms)) + [L.EventOf(Apart(j0, ms).l, mv.lm)]
  {
    Projections(ms, mv);
    ExtendLocks(j0.locks, LockMoves(ms), mv.lm);
  }

  lemma {:induction false} LifeTrace(j0: State, ms: seq<Move>, mv: Move)
    requires mv.Life? && F.Legal(j0.life, LifeMoves(ms)) && F.Legal(j0.life, LifeMoves(ms + [mv]))
    requires F.Enabled(Apart(j0, ms).f, mv.fm)
    ensures SemMoves(ms + [mv]) == SemMoves(ms) && LockMoves(ms + [mv]) == LockMoves(ms)
    ensures F.Trace(j0.life, LifeMoves(ms + [mv])) ==
      F.Trace(j0.life, LifeMoves(ms)) + [F.EventOf(Apart(j0, ms).f, mv.fm)]
  {
    Projections(ms, mv);
    ExtendLife(j0.life, LifeMoves(ms), mv.fm);
  }

  lemma BumpPlus(a: Tally, b: Tally, c: Tally, k: Token, n: Tid)
    ensures Bump(Plus(a, Plus(b, c)), k, n) == Plus(Bump(a, k, n), Plus(b, c))
    ensures Bump(Plus(a, Plus(b, c)), k, n) == Plus(a, Plus(Bump(b, k, n), c))
    ensures Bump(Plus(a, Plus(b, c)), k, n) == Plus(a, Plus(b, Bump(c, k, n)))
  {
  }

  lemma {:induction false} TalliesStep(j0: State, ms: seq<Move>, mv: Move, j: State, n: Tid)
    requires RunsApart(j0, ms) && RunsApart(j0, ms + [mv])
    requires Enabled(j, mv) && SameEvent(j, Apart(j0, ms), mv)
    ensures Tallies(j0, ms + [mv], n) == Bump(Tallies(j0, ms, n), EventOf(j, mv).token, n)
  {
    var o := Apart(j0, ms);
    var a, b, c := S.Trace(j0.sem, SemMoves(ms)), L.Trace(j0.locks, LockMoves(ms)), F.Trace(j0.life, LifeMoves(ms));
    BumpPlus(SemTally(a, n), LockTally(b, n), LifeTally(c, n), EventOf(j, mv).token, n);
    match mv
    case Sem(m, call) =>
      SemTrace(j0, ms, mv);
      SemTallyStep(a, S.EventOf(o.s, Address(m), call), n);
    case Lock(lm) =>
      LockTrace(j0, ms, mv);
      LockTallyStep(b, L.EventOf(o.l, lm), n);
    case Life(fm) =>
      LifeTrace(j0, ms, mv);
      LifeTallyStep(c, F.EventOf(o.f, fm), n);
  }

  lemma {:induction false} TalliesAdd(j0: State, ms: seq<Move>, n: Tid)
    requires Initial(j0) && Legal(j0, ms) && CleanRun(j0, ms)
    ensures RunsApart(j0, ms) && TallyOf(Trace(j0, ms), n) == Tallies(j0, ms, n)
    decreases |ms|
  {
    RunMerges(j0, ms);
    if ms != [] {
      var ms', mv := ms[..|ms|-1], ms[|ms|-1];
      LastStep(j0, ms);
      TalliesAdd(j0, ms', n);
      RunMerges(j0, ms');
      CleanMover(j0, ms', Exec(j0, ms'), mv);
      StepMerges(j0, ms', Exec(j0, ms'), mv);
      TalliesStep(j0, ms', mv, Exec(j0, ms'), n);
      assert Trace(j0, ms)[..|Trace(j0, ms)|-1] == Trace(j0, ms');
    }
  }

  function Bit(b: bool): nat { if b then 1 else 0 }

  ghost predicate Balanced(y: Tally, waits: bool, pending: bool) {
    y.parked == y.resumed + y.withdrawn + Bit(waits) && y.restarted == y.resumed + Bit(pending)
  }

  lemma {:induction false} SemBalanced(j0: State, ms: seq<Move>, j: State, n: Tid)
    requires Initial(j0) && RunsApart(j0, ms) && Merges(j, Apart(j0, ms))
    ensures Balanced(SemTally(S.Trace(j0.sem, SemMoves(ms)), n), Waits(j, InSem, n), Owns(Apart(j0, ms), InSem, n))
  {
    SC.OneRestartPerWait(j0.sem, SemMoves(ms), Address(n));
  }

  lemma {:induction false} LockBalanced(j0: State, ms: seq<Move>, j: State, n: Tid)
    requires Initial(j0) && RunsApart(j0, ms) && CleanApart(j0, ms) && Merges(j, Apart(j0, ms))
    ensures Balanced(LockTally(L.Trace(j0.locks, LockMoves(ms)), n), Waits(j, InLocks, n),
                     Owns(Apart(j0, ms), InLocks, n))
  {
    LT.OneRestartPerWait(j0.locks, LockMoves(ms), n);
  }

  lemma {:induction false} LifeBalanced(j0: State, ms: seq<Move>, j: State, n: Tid)
    requires Initial(j0) && RunsApart(j0, ms) && Merges(j, Apart(j0, ms))
    ensures Balanced(LifeTally(F.Trace(j0.life, LifeMoves(ms)), n), Waits(j, InLife, n), Owns(Apart(j0, ms), InLife, n))
  {
    FT.OneRestartPerWait(LifeMoves(ms), n);
  }

  predicate AtMostOne(a: bool, b: bool, c: bool) { !(a && b) && !(a && c) && !(b && c) }

  lemma SumBalanced(a: Tally, b: Tally, c: Tally, w: (bool, bool, bool), p: (bool, bool, bool))
    requires Balanced(a, w.0, p.0) && Balanced(b, w.1, p.1) && Balanced(c, w.2, p.2)
    requires AtMostOne(w.0, w.1, w.2) && AtMostOne(p.0, p.1, p.2)
    ensures Balanced(Plus(a, Plus(b, c)), w.0 || w.1 || w.2, p.0 || p.1 || p.2)
  {
  }

  lemma {:induction false} AtMostOneWait(j0: State, ms: seq<Move>, n: Tid)
    requires Initial(j0) && Legal(j0, ms) && CleanRun(j0, ms)
    ensures var j, o := Exec(j0, ms), Apart(j0, ms);
      && AtMostOne(Waits(j, InSem, n), Waits(j, InLocks, n), Waits(j, InLife, n))
      && AtMostOne(Owns(o, InSem, n), Owns(o, InLocks, n), Owns(o, InLife, n))
      && (n in j.pending <==> Owns(o, InSem, n) || Owns(o, InLocks, n) || Owns(o, InLife, n))
  {
    OneBitPerThread(j0, ms, n);
  }

  lemma {:induction false} SumApart(j0: State, ms: seq<Move>, j: State, n: Tid)
    requires Initial(j0) && RunsApart(j0, ms) && CleanApart(j0, ms) && Merges(j, Apart(j0, ms))
    requires AtMostOne(Waits(j, InSem, n), Waits(j, InLocks, n), Waits(j, InLife, n))
    requires var o := Apart(j0, ms);
      && AtMostOne(Owns(o, InSem, n), Owns(o, InLocks, n), Owns(o, InLife, n))
      && (n in j.pending <==> Owns(o, InSem, n) || Owns(o, InLocks, n) || Owns(o, InLife, n))
    ensures Balanced(Tallies(j0, ms, n), exists p :: Waits(j, p, n), n in j.pending)
  {
    var o := Apart(j0, ms);
    SemBalanced(j0, ms, j, n);
    LockBalanced(j0, ms, j, n);
    LifeBalanced(j0, ms, j, n);
    SumBalanced(
      SemTally(S.Trace(j0.sem, SemMoves(ms)), n), LockTally(L.Trace(j0.locks, LockMoves(ms)), n),
      LifeTally(F.Trace(j0.life, LifeMoves(ms)), n),
      (Waits(j, InSem, n), Waits(j, InLocks, n), Waits(j, InLife, n)),
      (Owns(o, InSem, n), Owns(o, InLocks, n), Owns(o, InLife, n)));
    WaitsSomewhere(j, n);
  }

  /** Restart tokens over the whole library: every wait that is not withdrawn by its own
      time-out is sent exactly one restart and every restart ends exactly one wait, in
      any mix of semaphores, mutexes, conditions, creates, joins and exits. */
  lemma {:induction false} OneRestartPerWait(j0: State, ms: seq<Move>, n: Tid)
    requires Initial(j0) && Legal(j0, ms) && CleanRun(j0, ms)
    ensures var j := Exec(j0, ms);
      Balanced(TallyOf(Trace(j0, ms), n), exists p :: Waits(j, p, n), n in j.pending)
  {
    TalliesAdd(j0, ms, n);
    RunMerges(j0, ms);
    AtMostOneWait(j0, ms, n);
    SumApart(j0, ms, Exec(j0, ms), n);
  }

  lemma WaitsSomewhere(j: State, n: Tid)
    ensures (exists p :: Waits(j, p, n)) <==> Waits(j, InSem, n) || Waits(j, InLocks, n) || Waits(j, InLife, n)
  {
  }

  /** The system that sent n its latest restart. */
  function Sender(tr: seq<Event>, n: Tid): Option<Protocol> {
    if tr == [] then None
    else if tr[|tr|-1].token == Restart(n) then Some(tr[|tr|-1].at)
    else Sender(tr[..|tr|-1], n)
  }

  /** A bit a system owns after a step was owned before, or the step sent it. */
  ghost predicate Acquires(o: Own, o': Own, e: Event, p: Protocol, n: Tid) {
    && (Owns(o', p, n) ==> Owns(o, p, n) || e == Event(p, Restart(n)))
    && (e == Event(p, Restart(n)) ==> Owns(o', p, n))
  }

  lemma Acquired(j: State, o: Own, mv: Move, p: Protocol, n: Tid)
    requires Enabled(j, mv) && SameEvent(j, o, mv)
    ensures Acquires(o, Moved(j, o, mv), EventOf(j, mv), p, n)
  {
    match mv
    case Sem(m, call) => SemPending(o.s, Address(m), call, Address(n));
    case Lock(lm) => LockPending(o.l, lm, n);
    case Life(fm) => LifePending(o.f, fm, n); LifeTokens(F.EventOf(o.f, fm), n);
  }

  lemma LifeTokens(e: F.Event, n: Tid)
    ensures (LifeToken(e) == Restart(n) <==> e == F.Restarted(n)) && (LifeToken(e) == Resume(n) <==> e == F.Resumed(n))
  {
  }

  lemma SenderStep(o: Own, o': Own, tr: seq<Event>, e: Event, p: Protocol, n: Tid)
    requires Acquires(o, o', e, p, n) && Acquires(o, o', e, e.at, n)
    requires Owns(o', p, n) && forall q | Owns(o', q, n) :: q == p
    requires Owns(o, p, n) ==> Sender(tr, n) == Some(p)
    ensures Sender(tr + [e], n) == Some(p)
  {
    assert (tr + [e])[..|tr|] == tr;
  }

  lemma {:induction false} SoleOwner(j0: State, ms: seq<Move>, p: Protocol, n: Tid)
    requires Initial(j0) && Legal(j0, ms) && CleanRun(j0, ms) && Owns(Apart(j0, ms), p, n)
    ensures forall q | Owns(Apart(j0, ms), q, n) :: q == p
  {
    OneBitPerThread(j0, ms, n);
  }

  lemma {:induction false} SenderOwns(j0: State, ms: seq<Move>, p: Protocol, n: Tid)
    requires Initial(j0) && Legal(j0, ms) && CleanRun(j0, ms) && Owns(Apart(j0, ms), p, n)
    ensures Sender(Trace(j0, ms), n) == Some(p)
    decreases |ms|
  {
    SoleOwner(j0, ms, p, n);
    if ms != [] {
      var ms', mv := ms[..|ms|-1], ms[|ms|-1];
      var j, o := Exec(j0, ms'), Apart(j0, ms');
      assert ms == ms' + [mv];
      RunMerges(j0, ms');
      CleanMover(j0, ms', Exec(j0, ms'), mv);
      StepMerges(j0, ms', Exec(j0, ms'), mv);
      Acquired(j, o, mv, p, n);
      Acquired(j, o, mv, EventOf(j, mv).at, n);
      if Owns(o, p, n) { SenderOwns(j0, ms', p, n); }
      SenderStep(o, Apart(j0, ms), Trace(j0, ms'), EventOf(j, mv), p, n);
    }
  }

  lemma Consumes(j: State, o: Own, mv: Move, n: Tid)
    requires Enabled(j, mv) && SameEvent(j, o, mv) && EventOf(j, mv).token == Resume(n)
    ensures Owns(o, EventOf(j, mv).at, n)
  {
  }

  /** A suspend is ended by a restart of its own system: the latest restart its thread was
      sent, by any system, was sent for this very wait. */
  lemma {:induction false} EndedByItsOwn(j0: State, ms: seq<Move>, mv: Move, n: Tid)
    requires Initial(j0) && Legal(j0, ms) && CleanRun(j0, ms)
    requires Enabled(Exec(j0, ms), mv) && Clean(Exec(j0, ms), mv) && EventOf(Exec(j0, ms), mv).token == Resume(n)
    ensures var p := EventOf(Exec(j0, ms), mv).at;
      Waits(Exec(j0, ms), p, n) && Sender(Trace(j0, ms), n) == Some(p)
  {
    var j, o := Exec(j0, ms), Apart(j0, ms);
    RunMerges(j0, ms);
    CleanMover(j0, ms, j, mv);
    StepMerges(j0, ms, j, mv);
    Consumes(j, o, mv, n);
    OwnedWaits(j0, ms, j, EventOf(j, mv).at, n);
    SenderOwns(j0, ms, EventOf(j, mv).at, n);
  }

  /** What one system guarantees on its own it guarantees among the others, as long as no
      suspend is disturbed: a join delivers the value its target gave to pthread_exit. */
  lemma {:induction false} JoinDelivers(j0: State, ms: seq<Move>, fm: F.Move)
    requires Initial(j0) && Legal(j0, ms) && OwnRun(j0, ms)
    requires Enabled(Exec(j0, ms), Life(fm)) && F.EventOf(Exec(j0, ms).Life(), fm).Joined?
    ensures F.Legal(F.INITIAL, LifeMoves(ms))
    ensures var e := F.EventOf(Exec(j0, ms).Life(), fm);
      && FT.LastCall(LifeMoves(ms), e.t) == Some(F.Join(e.th))
      && FT.LastCall(LifeMoves(ms), e.th) == Some(F.Exit(e.v))
      && FT.ExitValue(F.Trace(F.INITIAL, LifeMoves(ms)), e.th) == Some(e.v)
  {
    OwnRunMerges(j0, ms);
    JoinedAwake(Exec(j0, ms).Life(), fm);
    StepMerges(j0, ms, Exec(j0, ms), Life(fm));
    FT.JoinDelivers(LifeMoves(ms), fm);
  }

  lemma JoinedAwake(s: F.State, fm: F.Move)
    requires F.Enabled(s, fm) && F.EventOf(s, fm).Joined?
    ensures fm.Go? && !LifeSleeps(s.Pc(fm.t))
  {
  }

  /** In the same way, a call of a mutex or condition function has done what it should when
      it returns, ... */
  lemma {:induction false} LockCallReturns(j0: State, ms: seq<Move>, n: Tid)
    requires Initial(j0) && Legal(j0, ms) && OwnRun(j0, ms) && Exec(j0, ms).locks.Pc(n) == L.Idle
    ensures L.Legal(j0.locks, LockMoves(ms))
    ensures var r := LK.Latest(j0.locks, LockMoves(ms), n); r.Some? ==> LK.Done(r.value, Exec(j0, ms).locks, n)
  {
    OwnRunMerges(j0, ms);
    if LK.Latest(j0.locks, LockMoves(ms), n).Some? { LK.CallReturns(j0.locks, LockMoves(ms), n); }
  }

  /** ... and so has a call of a semaphore function. */
  lemma {:induction false} SemCallReturns(j0: State, ms: seq<Move>, n: Tid)
    requires Initial(j0) && Legal(j0, ms) && OwnRun(j0, ms) && Exec(j0, ms).sem.Pc(Address(n)) == S.Idle
    ensures S.Legal(j0.sem, SemMoves(ms))
    ensures var r := SK.Latest(j0.sem, SemMoves(ms), Address(n));
      r.Some? ==> r.value.when.Some? && r.value.shown == [SK.Answer(r.value.call, r.value.when.value)]
  {
    OwnRunMerges(j0, ms);
    if SK.Latest(j0.sem, SemMoves(ms), Address(n)).Some? { SK.CallReturns(j0.sem, SemMoves(ms), Address(n)); }
  }

  /** Exactly when the suspend of a join may end. After any run in which no suspend was
      disturbed so far, time-outs that race with signals included, a suspended join that
      resumes now finds its target terminated if and only if the target has sent it the
      restart, or is about to; whatever else is pending for it does not count. */
  lemma {:induction false} JoinResumesExactly(j0: State, ms: seq<Move>, n: Tid, th: Tid)
    requires Initial(j0) && Legal(j0, ms) && OwnRun(j0, ms) && Exec(j0, ms).life.Pc(n) == F.JoinSuspend(th)
    ensures var j := Exec(j0, ms);
      j.life.D(th).terminated <==> Owns(Apart(j0, ms), InLife, n) || FI.Owed(j.life.Pc(th)) == Some(n)
  {
    OwnRunMerges(j0, ms);
    FI.RunKeepsInv(LifeMoves(ms));
    ResumesExactly(Apart(j0, ms).f, n, th);
  }

  lemma ResumesExactly(s: F.State, n: Tid, th: Tid)
    requires FI.Inv(s) && s.Pc(n) == F.JoinSuspend(th)
    ensures s.D(th).terminated <==> n in s.pending || FI.Owed(s.Pc(th)) == Some(n)
  {
    assert FI.JoinerOk(s, n) && FI.ProcOk(s, th);
  }
}
