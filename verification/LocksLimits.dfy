/** Where the mutex and condition code falls short, and exactly when. */
module LocksLimits {
  import opened Options
  import opened Locks
  import opened LocksCore
  import opened LocksInvariant
  import opened LocksTheorems

  /** A timed waiter that was not signaled is taken off the queue and returns. That
      is clean if and only if it still is on the queue at that moment: otherwise
      a signaller has already dequeued it, and it leaves with a restart that is
      still owed or pending and that no wait of its own accounts for. */
  lemma {:induction false} TimeoutExact(s0: State, ms: seq<Move>, mv: Move)
    requires Initial(s0) && Legal(s0, ms) && CleanRun(s0, ms)
    requires Exec(s0, ms).Pc(mv.t).TimedCheck? && !Exec(s0, ms).Pc(mv.t).signaled
    ensures var s := Exec(s0, ms);
      Accounted(Step(s, mv), mv.t) <==> mv.t in s.Cond(s.Pc(mv.t).c)
  {
    var g := RunKeepsInv(s0, ms);
    if mv.t in Exec(s0, ms).Cond(Exec(s0, ms).Pc(mv.t).c) { LeavesCleanly(Exec(s0, ms), g, mv); }
    else { LeavesTooLate(Exec(s0, ms), g, mv); }
  }

  lemma LeavesCleanly(s: State, g: map<Tid, Place>, mv: Move)
    requires Inv(s, g) && s.Pc(mv.t).TimedCheck? && !s.Pc(mv.t).signaled && mv.t in s.Cond(s.Pc(mv.t).c)
    ensures Accounted(Step(s, mv), mv.t)
  {
    WithdrawKeepsInv(s, g, mv, s.Pc(mv.t).c);
    ThreadAccounted(Step(s, mv), NextPlaces(s, g, mv), mv.t);
  }

  lemma LeavesTooLate(s: State, g: map<Tid, Place>, mv: Move)
    requires Inv(s, g) && s.Pc(mv.t).TimedCheck? && !s.Pc(mv.t).signaled && mv.t !in s.Cond(s.Pc(mv.t).c)
    ensures !Accounted(Step(s, mv), mv.t)
  {
    assert ThreadOk(s, g, mv.t);
    if At(g, mv.t).OwedBy? { assert mv.t in Owed(Step(s, mv).Pc(At(g, mv.t).p)); }
  }

  /** A run written out with the states it goes through. */
  datatype Run = Begin(s0: State) | Then(run: Run, mv: Move, s: State)

  function Start(r: Run): State { if r.Begin? then r.s0 else Start(r.run) }

  function End(r: Run): State { if r.Begin? then r.s0 else r.s }

  function Moves(r: Run): seq<Move> { if r.Begin? then [] else Moves(r.run) + [r.mv] }

  predicate Leads(s: State, mv: Move, s': State) { Enabled(s, mv) && Clean(s, mv.t) && Step(s, mv) == s' }

  predicate Good(r: Run) { r.Then? ==> Good(r.run) && Leads(End(r.run), r.mv, r.s) }

  /** Nobody but threads 0 and 1 moves. */
  predicate ByTwo(r: Run) { r.Then? ==> ByTwo(r.run) && r.mv.t <= 1 }

  lemma Extend(r: Run, s: State, mv: Move, s': State) returns (r': Run)
    requires Good(r) && End(r) == s && Leads(s, mv, s') && ByTwo(r) && mv.t <= 1
    ensures Good(r') && End(r') == s' && Start(r') == Start(r) && ByTwo(r')
  {
    r' := Then(r, mv, s');
  }

  lemma {:induction false} GoodRun(r: Run)
    requires Good(r)
    ensures Legal(Start(r), Moves(r)) && CleanRun(Start(r), Moves(r)) && Exec(Start(r), Moves(r)) == End(r)
  {
    if r.Then? {
      GoodRun(r.run);
      assert Moves(r)[..|Moves(r)|-1] == Moves(r.run);
    }
  }

  /** Thread 0 takes the mutex, ... */
  const FREE := Mutex(Recursive, 0, Some(0), [])
  const TAKEN := Mutex(Recursive, 1, Some(0), [])
  const GO := Move(0, Lock(0), false)
  const S0 := State(map[0 := Mutex(Recursive, 0, None, [])], map[], map[], map[], {}, map[])
  const S1 := S0.(pc := map[0 := LockAcq(0)])
  const S2 := S0.(pc := map[0 := LockBody(0)], spin := map[M(0) := 0])
  const S3 := S2.(pc := map[0 := LockRel(0, true)], mutex := map[0 := TAKEN], depth := map[(0, 0) := 1])

  function A(x: Mutex, d: nat, cond: map<Cid, seq<Tid>>, spin: map<Obj, Tid>, pc: map<Tid, Pc>): State {
    State(map[0 := x], cond, spin, pc, {}, map[(0, 0) := d])
  }

  const S4 := A(TAKEN, 1, map[], map[], map[0 := Idle])

  lemma LocksA()
    ensures Leads(S0, GO, S1) && Leads(S1, GO, S2)
  {
  }

  lemma LocksB()
    ensures Leads(S2, GO, S3) && Leads(S3, GO, S4)
  {
  }

  /** ... begins a timed wait, ... */
  const WAIT := Move(0, CondWait(0, 0, true), false)
  const S5 := A(TAKEN, 1, map[], map[], map[0 := CondAcq(0, 0, true)])
  const S6 := A(TAKEN, 1, map[], map[C(0) := 0], map[0 := CondEnq(0, 0, true)])
  const S7 := A(TAKEN, 1, map[0 := [0]], map[C(0) := 0], map[0 := CondRel(0, 0, true)])
  const S8 := A(TAKEN, 1, map[0 := [0]], map[], map[0 := UnlAcq(0, ThenWait(0, true))])

  lemma WaitsA()
    ensures Leads(S4, WAIT, S5) && Leads(S5, WAIT, S6)
  {
  }

  lemma WaitsB()
    ensures Leads(S6, WAIT, S7) && Leads(S7, WAIT, S8)
  {
    assert [] + [0] == [0];
  }

  /** ... lets go of the mutex and sleeps until the time is over, ... */
  const EXPIRE := Move(0, Lock(0), true)
  const S9 := A(TAKEN, 1, map[0 := [0]], map[M(0) := 0], map[0 := UnlBody(0, ThenWait(0, true))])
  const S10 := A(FREE, 0, map[0 := [0]], map[M(0) := 0], map[0 := UnlRel(0, ThenWait(0, true), [])])
  const S11 := A(FREE, 0, map[0 := [0]], map[], map[0 := TimedSleep(0, 0)])
  const S12 := A(FREE, 0, map[0 := [0]], map[], map[0 := TimedAcq(0, 0, false)])

  lemma SleepsA()
    ensures Leads(S8, GO, S9)
  {
  }

  lemma SleepsB()
    ensures Leads(S9, GO, S10)
  {
  }

  lemma SleepsC()
    ensures Leads(S10, GO, S11)
  {
  }

  lemma SleepsD()
    ensures Leads(S11, EXPIRE, S12)
  {
  }

  /** ... thread 1 signals and takes it off the queue, and only then it looks there. */
  const SIGNAL := Move(1, Signal(0), false)
  const S13 := A(FREE, 0, map[0 := [0]], map[], map[0 := TimedAcq(0, 0, false), 1 := SigAcq(0, false)])
  const S14 := A(FREE, 0, map[0 := [0]], map[C(0) := 1], map[0 := TimedAcq(0, 0, false), 1 := SigBody(0, false)])
  const S15 := A(FREE, 0, map[0 := []], map[C(0) := 1], map[0 := TimedAcq(0, 0, false), 1 := SigRel(0, [0])])
  const S16 := A(FREE, 0, map[0 := []], map[], map[0 := TimedAcq(0, 0, false), 1 := SigWake([0])])
  const S17 := A(FREE, 0, map[0 := []], map[C(0) := 0], map[0 := TimedCheck(0, 0, false), 1 := SigWake([0])])

  lemma SignalsA()
    ensures Leads(S12, SIGNAL, S13) && Leads(S13, SIGNAL, S14)
  {
  }

  lemma SignalsB()
    ensures Leads(S14, SIGNAL, S15)
  {
    assert [0][..1] == [0] && [0][1..] == [];
  }

  lemma SignalsC()
    ensures Leads(S15, SIGNAL, S16)
  {
  }

  lemma Looks()
    ensures Leads(S16, GO, S17)
  {
  }

  lemma FallsAsleep() returns (r: Run)
    ensures Good(r) && Start(r) == S0 && End(r) == S12 && ByTwo(r)
  {
    LocksA(); LocksB(); WaitsA(); WaitsB(); SleepsA(); SleepsB(); SleepsC(); SleepsD();
    r := Extend(Begin(S0), S0, GO, S1);
    r := Extend(r, S1, GO, S2);
    r := Extend(r, S2, GO, S3);
    r := Extend(r, S3, GO, S4);
    r := Extend(r, S4, WAIT, S5);
    r := Extend(r, S5, WAIT, S6);
    r := Extend(r, S6, WAIT, S7);
    r := Extend(r, S7, WAIT, S8);
    r := Extend(r, S8, GO, S9);
    r := Extend(r, S9, GO, S10);
    r := Extend(r, S10, GO, S11);
    r := Extend(r, S11, EXPIRE, S12);
  }

  lemma Races() returns (r: Run)
    ensures Good(r) && Start(r) == S0 && End(r) == S17 && ByTwo(r)
  {
    SignalsA(); SignalsB(); SignalsC(); Looks();
    r := FallsAsleep();
    r := Extend(r, S12, SIGNAL, S13);
    r := Extend(r, S13, SIGNAL, S14);
    r := Extend(r, S14, SIGNAL, S15);
    r := Extend(r, S15, SIGNAL, S16);
    r := Extend(r, S16, GO, S17);
  }

  /** The race is real: the wait times out, a signal dequeues the waiter, and only
      then does the waiter look at the queue. */
  lemma {:induction false} TimeoutRace() returns (ms: seq<Move>)
    ensures Initial(S0) && Legal(S0, ms) && CleanRun(S0, ms)
    ensures Exec(S0, ms).Pc(0) == TimedCheck(0, 0, false) && 0 !in Exec(S0, ms).Cond(0)
  {
    var r := Races();
    GoodRun(r);
    ms := Moves(r);
  }

  /** A state of a run with one mutex and one condition, its queue empty. */
  function B(x: Mutex, spin: map<Obj, Tid>, pending: set<Tid>, depth: map<(Mid, Tid), nat>, pc: map<Tid, Pc>): State {
    State(map[0 := x], map[0 := []], spin, pc, pending, depth)
  }

  const HELD := Mutex(Recursive, 1, Some(2), [])
  const FREED := Mutex(Recursive, 0, Some(2), [0])

  /** The time-out goes on to take the mutex again, which thread 2 takes first, ... */
  const T1 := B(FREE, map[C(0) := 0], {}, map[(0, 0) := 0], map[0 := TimedRel(0, 0), 1 := SigWake([0])])
  const T2 := B(FREE, map[], {}, map[(0, 0) := 0], map[0 := LockAcq(0), 1 := SigWake([0])])
  const T3 := B(FREE, map[], {}, map[(0, 0) := 0], map[0 := LockAcq(0), 1 := SigWake([0]), 2 := LockAcq(0)])
  const T4 := B(FREE, map[M(0) := 2], {}, map[(0, 0) := 0], map[0 := LockAcq(0), 1 := SigWake([0]), 2 := LockBody(0)])
  const T5 := B(HELD, map[M(0) := 2], {}, map[(0, 0) := 0, (0, 2) := 1],
    map[0 := LockAcq(0), 1 := SigWake([0]), 2 := LockRel(0, true)])
  const T6 := B(HELD, map[], {}, map[(0, 0) := 0, (0, 2) := 1],
    map[0 := LockAcq(0), 1 := SigWake([0]), 2 := Idle])
  /** ... thread 3 queues up for it, and thread 0 behind it, ... */
  const T7 := B(HELD, map[], {}, map[(0, 0) := 0, (0, 2) := 1],
    map[0 := LockAcq(0), 1 := SigWake([0]), 2 := Idle, 3 := LockAcq(0)])
  const T8 := B(HELD, map[M(0) := 3], {}, map[(0, 0) := 0, (0, 2) := 1],
    map[0 := LockAcq(0), 1 := SigWake([0]), 2 := Idle, 3 := LockBody(0)])
  const T9 := B(HELD.(queue := [3]), map[M(0) := 3], {}, map[(0, 0) := 0, (0, 2) := 1],
    map[0 := LockAcq(0), 1 := SigWake([0]), 2 := Idle, 3 := LockRel(0, false)])
  const T10 := B(HELD.(queue := [3]), map[], {}, map[(0, 0) := 0, (0, 2) := 1],
    map[0 := LockAcq(0), 1 := SigWake([0]), 2 := Idle, 3 := LockSuspend(0)])
  const T11 := B(HELD.(queue := [3]), map[M(0) := 0], {}, map[(0, 0) := 0, (0, 2) := 1],
    map[0 := LockBody(0), 1 := SigWake([0]), 2 := Idle, 3 := LockSuspend(0)])
  const T12 := B(HELD.(queue := [3, 0]), map[M(0) := 0], {}, map[(0, 0) := 0, (0, 2) := 1],
    map[0 := LockRel(0, false), 1 := SigWake([0]), 2 := Idle, 3 := LockSuspend(0)])
  const T13 := B(HELD.(queue := [3, 0]), map[], {}, map[(0, 0) := 0, (0, 2) := 1],
    map[0 := LockSuspend(0), 1 := SigWake([0]), 2 := Idle, 3 := LockSuspend(0)])
  /** ... the restart of the signal, which thread 0 has not waited for, ends its suspend, ... */
  const T14 := B(HELD.(queue := [3, 0]), map[], {0}, map[(0, 0) := 0, (0, 2) := 1],
    map[0 := LockSuspend(0), 1 := SigWake([]), 2 := Idle, 3 := LockSuspend(0)])
  const T15 := B(HELD.(queue := [3, 0]), map[], {}, map[(0, 0) := 0, (0, 2) := 1],
    map[0 := LockAcq(0), 1 := SigWake([]), 2 := Idle, 3 := LockSuspend(0)])
  /** ... and when thread 2 frees the mutex and takes thread 3 off the queue, thread 0,
      still on it, gets the mutex. */
  const T16 := B(HELD.(queue := [3, 0]), map[], {}, map[(0, 0) := 0, (0, 2) := 1],
    map[0 := LockAcq(0), 1 := SigWake([]), 2 := UnlAcq(0, Return), 3 := LockSuspend(0)])
  const T17 := B(HELD.(queue := [3, 0]), map[M(0) := 2], {}, map[(0, 0) := 0, (0, 2) := 1],
    map[0 := LockAcq(0), 1 := SigWake([]), 2 := UnlBody(0, Return), 3 := LockSuspend(0)])
  const T18 := B(FREED, map[M(0) := 2], {}, map[(0, 0) := 0, (0, 2) := 0],
    map[0 := LockAcq(0), 1 := SigWake([]), 2 := UnlRel(0, Return, [3]), 3 := LockSuspend(0)])
  const T19 := B(FREED, map[], {}, map[(0, 0) := 0, (0, 2) := 0],
    map[0 := LockAcq(0), 1 := SigWake([]), 2 := UnlWake(0, Return, [3]), 3 := LockSuspend(0)])
  const T20 := B(FREED, map[M(0) := 0], {}, map[(0, 0) := 0, (0, 2) := 0],
    map[0 := LockBody(0), 1 := SigWake([]), 2 := UnlWake(0, Return, [3]), 3 := LockSuspend(0)])
  const T21 := B(Mutex(Recursive, 1, Some(0), [0]), map[M(0) := 0], {}, map[(0, 0) := 1, (0, 2) := 0],
    map[0 := LockRel(0, true), 1 := SigWake([]), 2 := UnlWake(0, Return, [3]), 3 := LockSuspend(0)])

  predicate Reaches(s: State, mv: Move, s': State) { Enabled(s, mv) && Step(s, mv) == s' }

  lemma StraysA()
    ensures Reaches(S17, GO, T1)
  {
  }

  lemma StraysB()
    ensures Reaches(T1, GO, T2)
  {
  }

  lemma StraysC()
    ensures Reaches(T2, Move(2, Lock(0), false), T3)
    ensures Reaches(T3, Move(2, Lock(0), false), T4)
  {
  }

  lemma StraysD()
    ensures Reaches(T4, Move(2, Lock(0), false), T5)
    ensures Reaches(T5, Move(2, Lock(0), false), T6)
  {
  }

  lemma StraysE()
    ensures Reaches(T6, Move(3, Lock(0), false), T7)
    ensures Reaches(T7, Move(3, Lock(0), false), T8)
  {
  }

  lemma StraysF()
    ensures Reaches(T8, Move(3, Lock(0), false), T9)
    ensures Reaches(T9, Move(3, Lock(0), false), T10)
  {
    assert [] + [3] == [3];
  }

  lemma StraysG()
    ensures Reaches(T10, GO, T11)
  {
  }

  lemma StraysH()
    ensures Reaches(T11, GO, T12)
  {
    assert !Grants(T11.Mu(0), 0) && [3] + [0] == [3, 0];
  }

  lemma StraysI()
    ensures Reaches(T12, GO, T13)
  {
  }

  lemma StraysJ()
    ensures Reaches(T13, Move(1, Lock(0), false), T14)
  {
    assert [0][1..] == [];
  }

  lemma StraysK()
    ensures Reaches(T14, GO, T15)
    ensures Reaches(T15, Move(2, Unlock(0), false), T16)
  {
  }

  lemma StraysL()
    ensures Reaches(T16, Move(2, Lock(0), false), T17)
  {
  }

  lemma StraysM()
    ensures Reaches(T17, Move(2, Lock(0), false), T18)
  {
    assert [3, 0][..1] == [3] && [3, 0][1..] == [0];
  }

  lemma StraysN()
    ensures Reaches(T18, Move(2, Lock(0), false), T19)
    ensures Reaches(T19, GO, T20)
  {
  }

  lemma GrantsQueued()
    ensures Grants(T20.Mu(0), 0)
    ensures Grant(T20, 0, 0).mutex == T21.mutex && Grant(T20, 0, 0).depth == T21.depth
  {
  }

  lemma StraysO()
    ensures Reaches(T20, GO, T21)
  {
    GrantsQueued();
  }

  lemma {:induction false} Go(s: State, ms: seq<Move>, mv: Move, s': State) returns (ms': seq<Move>)
    requires Legal(S0, ms) && Exec(S0, ms) == s && Reaches(s, mv, s')
    ensures Legal(S0, ms') && Exec(S0, ms') == s'
  {
    ms' := ms + [mv];
    assert ms'[..|ms|] == ms;
  }

  lemma {:induction false} Returns() returns (ms: seq<Move>)
    ensures Legal(S0, ms) && Exec(S0, ms) == T4
  {
    var r := Races();
    GoodRun(r);
    ms := Moves(r);
    StraysA(); StraysB(); StraysC();
    ms := Go(S17, ms, GO, T1);
    ms := Go(T1, ms, GO, T2);
    ms := Go(T2, ms, Move(2, Lock(0), false), T3);
    ms := Go(T3, ms, Move(2, Lock(0), false), T4);
  }

  lemma {:induction false} TakenFirst() returns (ms: seq<Move>)
    ensures Legal(S0, ms) && Exec(S0, ms) == T8
  {
    ms := Returns();
    StraysD(); StraysE();
    ms := Go(T4, ms, Move(2, Lock(0), false), T5);
    ms := Go(T5, ms, Move(2, Lock(0), false), T6);
    ms := Go(T6, ms, Move(3, Lock(0), false), T7);
    ms := Go(T7, ms, Move(3, Lock(0), false), T8);
  }

  lemma {:induction false} QueuesUp() returns (ms: seq<Move>)
    ensures Legal(S0, ms) && Exec(S0, ms) == T12
  {
    ms := TakenFirst();
    StraysF(); StraysG(); StraysH();
    ms := Go(T8, ms, Move(3, Lock(0), false), T9);
    ms := Go(T9, ms, Move(3, Lock(0), false), T10);
    ms := Go(T10, ms, GO, T11);
    ms := Go(T11, ms, GO, T12);
  }

  lemma {:induction false} Restarts() returns (ms: seq<Move>)
    ensures Legal(S0, ms) && Exec(S0, ms) == T16
  {
    ms := QueuesUp();
    StraysI(); StraysJ(); StraysK();
    ms := Go(T12, ms, GO, T13);
    ms := Go(T13, ms, Move(1, Lock(0), false), T14);
    ms := Go(T14, ms, GO, T15);
    ms := Go(T15, ms, Move(2, Unlock(0), false), T16);
  }

  lemma {:induction false} Frees() returns (ms: seq<Move>)
    ensures Legal(S0, ms) && Exec(S0, ms) == T20
  {
    ms := Restarts();
    StraysL(); StraysM(); StraysN();
    ms := Go(T16, ms, Move(2, Lock(0), false), T17);
    ms := Go(T17, ms, Move(2, Lock(0), false), T18);
    ms := Go(T18, ms, Move(2, Lock(0), false), T19);
    ms := Go(T19, ms, GO, T20);
  }

  lemma {:induction false} TakesQueued() returns (ms: seq<Move>)
    ensures Legal(S0, ms) && Exec(S0, ms) == T21
  {
    ms := Frees();
    StraysO();
    ms := Go(T20, ms, GO, T21);
  }

  /** Where the queue half of HolderNotRefused ends: in a run in which a time-out races
      with a signal, a thread can hold a recursive mutex and be on its queue. */
  lemma {:induction false} QueuedHolder() returns (ms: seq<Move>)
    ensures Initial(S0) && Legal(S0, ms)
    ensures var s := Exec(S0, ms); s.Mu(0).kind == Recursive && s.Depth(0, 0) > 0 && 0 in s.Mu(0).queue
  {
    ms := TakesQueued();
  }

  /** The spinlock of m is taken and nobody is going to give it back. */
  ghost predicate Leaked(s: State, m: Mid) {
    M(m) in s.spin && forall t :: Crit(s.Pc(t)) != Some(M(m))
  }

  /** Lock, trylock and unlock give the spinlock back if and only if the kind of
      the mutex is valid: on any other kind they return EINVAL and keep it. */
  lemma InvalidKindLeaks(s: State, mv: Move, m: Mid)
    requires s.Pc(mv.t) == LockBody(m) || s.Pc(mv.t) == TryBody(m) || exists k :: s.Pc(mv.t) == UnlBody(m, k)
    requires M(m) in s.spin && forall t | Crit(s.Pc(t)) == Some(M(m)) :: t == mv.t
    ensures Leaked(Step(s, mv), m) <==> s.Mu(m).kind == Other
  {
    var s' := Step(s, mv);
    if s.Mu(m).kind == Other {
      forall t ensures Crit(s'.Pc(t)) != Some(M(m)) { assert t != mv.t ==> s'.Pc(t) == s.Pc(t); }
    } else {
      assert Crit(s'.Pc(mv.t)) == Some(M(m));
    }
  }

  lemma StaysLeaked(s: State, mv: Move, m: Mid)
    requires Leaked(s, m) && Enabled(s, mv)
    ensures Leaked(Step(s, mv), m)
  {
    var s' := Step(s, mv);
    assert Crit(s.Pc(mv.t)) != Some(M(m));
    assert Crit(s'.Pc(mv.t)) != Some(M(m)) && M(m) in s'.spin;
    forall t ensures Crit(s'.Pc(t)) != Some(M(m)) { assert Crit(s.Pc(t)) != Some(M(m)); }
  }

  /** From then on no run lets a locker, a trylocker or an unlocker past the spinlock of
      that mutex. */
  lemma {:induction false} LeakBlocksForever(s: State, ms: seq<Move>, m: Mid, mv: Move)
    requires Leaked(s, m) && Legal(s, ms)
    ensures Leaked(Exec(s, ms), m)
    ensures var p := Exec(s, ms).Pc(mv.t);
      p == LockAcq(m) || p == TryAcq(m) || (p.UnlAcq? && p.m == m) ==> !Enabled(Exec(s, ms), mv)
    decreases |ms|
  {
    if ms != [] {
      LeakBlocksForever(s, ms[..|ms|-1], m, mv);
      StaysLeaked(Exec(s, ms[..|ms|-1]), ms[|ms|-1], m);
    }
  }

  /** pthread_cond_timedwait turns an absolute time into a relative one. */
  datatype RelTime = TimedOut | Relative(sec: int, nsec: int)

  function RelativeTime(absSec: int, absNsec: int, nowSec: int, nowUsec: int): RelTime {
    var sec, nsec := absSec - nowSec, absNsec - nowUsec * 1000;
    var s, n := if nsec < 0 then sec - 1 else sec, if nsec < 0 then nsec + 1000000000 else nsec;
    if s < 0 then TimedOut else Relative(s, n)
  }

  /** The relative time is a proper timespec of exactly the remaining length, and
      the call returns at once if and only if the deadline has passed. */
  lemma RelativeTimeExact(absSec: int, absNsec: int, nowSec: int, nowUsec: int)
    requires 0 <= absNsec < 1000000000 && 0 <= nowUsec < 1000000
    ensures var left := (absSec - nowSec) * 1000000000 + absNsec - nowUsec * 1000;
      match RelativeTime(absSec, absNsec, nowSec, nowUsec)
      case TimedOut => left < 0
      case Relative(sec, nsec) => left >= 0 && sec >= 0 && 0 <= nsec < 1000000000 && sec * 1000000000 + nsec == left
  {
  }
}
