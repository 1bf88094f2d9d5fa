/** What a time-out that races with a signal does to the rest of the library: it leaves
    a restart that nobody waits for, and the next suspend of that thread, wherever it
    is, takes it for its own. */
module JointLimits {
  import opened Options
  import S = Semaphore
  import L = Locks
  import LL = LocksLimits
  import F = Lifecycle
  import LW = LifecycleWindow
  import opened Joint

  function PutLocks(j: State, s: L.State): State { j.(locks := s.(pending := {}), pending := s.pending) }
  function PutLife(j: State, s: F.State): State { j.(life := s.(pending := {}), pending := s.pending) }

  function LockAll(ms: seq<L.Move>): seq<Move> {
    if ms == [] then [] else LockAll(ms[..|ms|-1]) + [Lock(ms[|ms|-1])]
  }

  function LifeAll(ms: seq<F.Move>): seq<Move> {
    if ms == [] then [] else LifeAll(ms[..|ms|-1]) + [Life(ms[|ms|-1])]
  }

  lemma {:induction false} Extends(j0: State, ks: seq<Move>, mv: Move)
    requires Legal(j0, ks) && Enabled(Exec(j0, ks), mv)
    ensures Legal(j0, ks + [mv]) && Exec(j0, ks + [mv]) == Step(Exec(j0, ks), mv)
  {
    assert (ks + [mv])[..|ks|] == ks;
  }

  lemma {:induction false} LocksGoOn(j0: State, ks: seq<Move>, j: State, s: L.State, lm: L.Move)
    requires Legal(j0, ks) && Exec(j0, ks) == PutLocks(j, s) && L.Enabled(s, lm)
    requires j.Exists(lm.t) && !j.Inside(InSem, lm.t) && !j.Inside(InLife, lm.t)
    ensures Legal(j0, ks + [Lock(lm)]) && Exec(j0, ks + [Lock(lm)]) == PutLocks(j, L.Step(s, lm))
  {
    assert PutLocks(j, s).Locks() == s;
    Extends(j0, ks, Lock(lm));
  }

  lemma {:induction false} LifeGoesOn(j0: State, ks: seq<Move>, j: State, s: F.State, fm: F.Move)
    requires Legal(j0, ks) && Exec(j0, ks) == PutLife(j, s) && F.Enabled(s, fm)
    requires fm.Go? ==> !j.Inside(InSem, fm.t) && !j.Inside(InLocks, fm.t)
    ensures Legal(j0, ks + [Life(fm)]) && Exec(j0, ks + [Life(fm)]) == PutLife(j, F.Step(s, fm))
  {
    assert PutLife(j, s).Life() == s;
    Extends(j0, ks, Life(fm));
  }

  /** A run of one system, by threads that are outside the others, continues a joint run. */
  lemma {:induction false} LiftLocks(j0: State, ks: seq<Move>, j: State, ms: seq<L.Move>)
    requires Legal(j0, ks) && Exec(j0, ks) == j && j.locks.pending == {} && L.Legal(j.Locks(), ms)
    requires forall i | 0 <= i < |ms| :: j.Exists(ms[i].t) && !j.Inside(InSem, ms[i].t) && !j.Inside(InLife, ms[i].t)
    ensures Legal(j0, ks + LockAll(ms)) && Exec(j0, ks + LockAll(ms)) == PutLocks(j, L.Exec(j.Locks(), ms))
    decreases |ms|
  {
    if ms == [] {
      assert ks + [] == ks;
    } else {
      var ms', lm := ms[..|ms|-1], ms[|ms|-1];
      LiftLocks(j0, ks, j, ms');
      LocksGoOn(j0, ks + LockAll(ms'), j, L.Exec(j.Locks(), ms'), lm);
      assert ks + LockAll(ms) == ks + LockAll(ms') + [Lock(lm)];
    }
  }

  lemma {:induction false} LiftLife(j0: State, ks: seq<Move>, j: State, ms: seq<F.Move>)
    requires Legal(j0, ks) && Exec(j0, ks) == j && j.life.pending == {} && F.Legal(j.Life(), ms)
    requires forall i | 0 <= i < |ms| && ms[i].Go? :: !j.Inside(InSem, ms[i].t) && !j.Inside(InLocks, ms[i].t)
    ensures Legal(j0, ks + LifeAll(ms)) && Exec(j0, ks + LifeAll(ms)) == PutLife(j, F.Exec(j.Life(), ms))
    decreases |ms|
  {
    if ms == [] {
      assert ks + [] == ks;
    } else {
      var ms', fm := ms[..|ms|-1], ms[|ms|-1];
      LiftLife(j0, ks, j, ms');
      LifeGoesOn(j0, ks + LifeAll(ms'), j, F.Exec(j.Life(), ms'), fm);
      assert ks + LifeAll(ms) == ks + LifeAll(ms') + [Life(fm)];
    }
  }

  /** Thread 0 creates thread 1, ... */
  const J0 := State(S.State(map[], map[], map[], {}), LL.S0, F.INITIAL, {})

  lemma TwoThreads() returns (ms: seq<F.Move>)
    ensures F.Legal(F.INITIAL, ms) && F.Exec(F.INITIAL, ms) == LW.N9.s
  {
    LW.TerminatesStepsA();
    LW.TerminatesStepsB();
    var r := LW.Creates();
    r := LW.Extend(r, LW.N6, LW.MANAGE, LW.N7);
    r := LW.Extend(r, LW.N7, LW.MAIN_GOES, LW.N8);
    r := LW.Extend(r, LW.N8, LW.MAIN_GOES, LW.N9);
    LW.GoodRun(r);
    ms := LW.Moves(r);
  }

  /** ... times out in a condition wait just as thread 1 signals it, and goes on with the
      mutex and a restart that is no longer for anything, ... */
  function A(x: L.Mutex, d: nat, spin: map<L.Obj, L.Tid>, p0: L.Pc, p1: L.Pc): L.State {
    L.State(map[0 := x], map[0 := []], spin, map[0 := p0, 1 := p1], {0}, map[(0, 0) := d])
  }

  const S18 := A(LL.FREE, 0, map[L.C(0) := 0], L.TimedCheck(0, 0, false), L.SigWake([]))
  const S19 := A(LL.FREE, 0, map[L.C(0) := 0], L.TimedCheck(0, 0, false), L.Idle)
  const S20 := A(LL.FREE, 0, map[L.C(0) := 0], L.TimedRel(0, 0), L.Idle)
  const S21 := A(LL.FREE, 0, map[], L.LockAcq(0), L.Idle)
  const S22 := A(LL.FREE, 0, map[L.M(0) := 0], L.LockBody(0), L.Idle)
  const S23 := A(LL.TAKEN, 1, map[L.M(0) := 0], L.LockRel(0, true), L.Idle)
  const S24 := A(LL.TAKEN, 1, map[], L.Idle, L.Idle)

  predicate Leads(s: L.State, mv: L.Move, s': L.State) { L.Enabled(s, mv) && L.Step(s, mv) == s' }

  lemma StraysA()
    ensures Leads(LL.S17, LL.SIGNAL, S18)
  {
    assert [0][1..] == [];
  }

  lemma StraysB()
    ensures Leads(S18, LL.SIGNAL, S19)
  {
  }

  lemma StraysC()
    ensures Leads(S19, LL.GO, S20)
  {
  }

  lemma StraysD()
    ensures Leads(S20, LL.GO, S21) && Leads(S21, LL.GO, S22)
  {
  }

  lemma StraysE()
    ensures Leads(S22, LL.GO, S23) && Leads(S23, LL.GO, S24)
  {
  }

  lemma {:induction false} Longer(ms: seq<L.Move>, s: L.State, mv: L.Move, s': L.State) returns (ms': seq<L.Move>)
    requires L.Legal(LL.S0, ms) && L.Exec(LL.S0, ms) == s && Leads(s, mv, s')
    requires mv.t <= 1 && forall i | 0 <= i < |ms| :: ms[i].t <= 1
    ensures L.Legal(LL.S0, ms') && L.Exec(LL.S0, ms') == s' && forall i | 0 <= i < |ms'| :: ms'[i].t <= 1
  {
    ms' := ms + [mv];
    assert ms'[..|ms|] == ms;
  }

  lemma {:induction false} MovesByTwo(r: LL.Run)
    requires LL.ByTwo(r)
    ensures forall i | 0 <= i < |LL.Moves(r)| :: LL.Moves(r)[i].t <= 1
  {
    if r.Then? { MovesByTwo(r.run); }
  }

  lemma Strays() returns (ms: seq<L.Move>)
    ensures L.Legal(LL.S0, ms) && L.Exec(LL.S0, ms) == S24 && forall i | 0 <= i < |ms| :: ms[i].t <= 1
  {
    var r := LL.Races();
    LL.GoodRun(r);
    MovesByTwo(r);
    ms := LL.Moves(r);
    StraysA(); StraysB(); StraysC(); StraysD(); StraysE();
    ms := Longer(ms, LL.S17, LL.SIGNAL, S18);
    ms := Longer(ms, S18, LL.SIGNAL, S19);
    ms := Longer(ms, S19, LL.GO, S20);
    ms := Longer(ms, S20, LL.GO, S21);
    ms := Longer(ms, S21, LL.GO, S22);
    ms := Longer(ms, S22, LL.GO, S23);
    ms := Longer(ms, S23, LL.GO, S24);
  }

  /** ... which ends its pthread_join of thread 1 at once. */
  const JOIN := F.Go(0, F.Join(1))
  const AWAITED := LW.NEW.(joining := Some(0))
  const LOCKED := Some(F.Thread(0))

  function B(p: F.Pc, d: F.Desc, waking: set<F.Tid>): F.State { LW.B(p, F.Running, d, waking) }

  const F0 := B(F.Running, LW.NEW, {0})
  const F1 := B(F.JoinAcq(1), LW.NEW, {0})
  const F2 := B(F.JoinBody(1), LW.NEW.(spin := LOCKED), {0})
  const F3 := B(F.JoinPark(1), AWAITED.(spin := LOCKED), {0})
  const F4 := B(F.JoinSuspend(1), AWAITED, {0})
  const F5 := B(F.JoinReacq(1), AWAITED, {})
  const F6 := B(F.JoinTake(1), AWAITED.(spin := LOCKED), {})
  const F7 := B(F.JoinRel(1, F.Null), AWAITED.(spin := LOCKED), {})
  const F8 := B(F.JoinSend(1, F.Null), AWAITED, {})

  predicate Joins(s: F.State, s': F.State) { F.Enabled(s, JOIN) && F.Step(s, JOIN) == s' }

  lemma JoinsA()
    ensures Joins(F0, F1) && Joins(F1, F2)
  {
  }

  lemma JoinsB()
    ensures Joins(F2, F3)
  {
  }

  lemma JoinsE()
    ensures Joins(F3, F4)
  {
  }

  lemma JoinsC()
    ensures Joins(F4, F5) && Joins(F5, F6)
  {
  }

  lemma JoinsD()
    ensures Joins(F6, F7)
  {
  }

  lemma JoinsF()
    ensures Joins(F7, F8)
  {
  }

  predicate OnlyJoins(ms: seq<F.Move>) { forall i | 0 <= i < |ms| :: ms[i] == JOIN }

  lemma {:induction false} JoinsOn(ms: seq<F.Move>, s: F.State, s': F.State) returns (ms': seq<F.Move>)
    requires F.Legal(F0, ms) && F.Exec(F0, ms) == s && Joins(s, s') && OnlyJoins(ms)
    ensures F.Legal(F0, ms') && F.Exec(F0, ms') == s' && OnlyJoins(ms')
  {
    ms' := ms + [JOIN];
    assert ms'[..|ms|] == ms;
  }

  lemma JoinsThrough() returns (ms: seq<F.Move>)
    ensures F.Legal(F0, ms) && F.Exec(F0, ms) == F8 && OnlyJoins(ms)
  {
    JoinsA(); JoinsB(); JoinsE(); JoinsC(); JoinsD(); JoinsF();
    ms := JoinsOn([], F0, F1);
    ms := JoinsOn(ms, F1, F2);
    ms := JoinsOn(ms, F2, F3);
    ms := JoinsOn(ms, F3, F4);
    ms := JoinsOn(ms, F4, F5);
    ms := JoinsOn(ms, F5, F6);
    ms := JoinsOn(ms, F6, F7);
    ms := JoinsOn(ms, F7, F8);
  }

  /** The joint states between the three parts of the run. */
  const J1 := J0.(life := LW.N9.s)
  const J2 := J1.(locks := S24.(pending := {}), pending := {0})

  lemma Part0()
    ensures J0.Life() == F.INITIAL && PutLife(J0, LW.N9.s) == J1 && J0.life.pending == {}
    ensures forall n :: !J0.Inside(InSem, n) && !J0.Inside(InLocks, n)
  {
  }

  lemma Part1()
    ensures J1.Locks() == LL.S0 && PutLocks(J1, S24) == J2 && J1.locks.pending == {}
    ensures forall n | n <= 1 :: J1.Exists(n) && !J1.Inside(InSem, n) && !J1.Inside(InLife, n)
  {
  }

  lemma Part2()
    ensures J2.Life() == F0 && J2.life.pending == {} && !J2.Inside(InSem, 0) && !J2.Inside(InLocks, 0)
  {
  }

  lemma CreatesFirst() returns (ks: seq<Move>)
    ensures Legal(J0, ks) && Exec(J0, ks) == J1
  {
    var fs := TwoThreads();
    Part0();
    LiftLife(J0, [], J0, fs);
    ks := [] + LifeAll(fs);
  }

  lemma RacesThen() returns (ks: seq<Move>)
    ensures Legal(J0, ks) && Exec(J0, ks) == J2
  {
    ks := CreatesFirst();
    var ls := Strays();
    Part1();
    LiftLocks(J0, ks, J1, ls);
    ks := ks + LockAll(ls);
  }

  lemma {:induction false} PutBack(fs: seq<F.Move>)
    requires F.Exec(F0, fs) == F8
    ensures PutLife(J2, F.Exec(J2.Life(), fs)).Life() == F8
  {
    Part2();
  }

  lemma StartsInitial()
    ensures Initial(J0)
  {
  }

  lemma StillRunning(s: F.State)
    requires s == F8
    ensures F.Enabled(s, JOIN) && F.EventOf(s, JOIN) == F.Joined(0, 1, F.Null)
    ensures s.Proc(1) == F.Alive && s.Pc(1) == F.Running && !s.D(1).terminated
  {
  }

  /** pthread_join returns although its target is still running: in a joint run that is
      not clean, JoinDelivers fails. */
  lemma {:induction false} JoinTooEarly() returns (ms: seq<Move>)
    ensures Initial(J0) && Legal(J0, ms)
    ensures var s := Exec(J0, ms).Life();
      && F.Enabled(s, JOIN) && F.EventOf(s, JOIN) == F.Joined(0, 1, F.Null)
      && s.Proc(1) == F.Alive && s.Pc(1) == F.Running && !s.D(1).terminated
  {
    var ks := RacesThen();
    var fs := JoinsThrough();
    Part2();
    LiftLife(J0, ks, J2, fs);
    ms := ks + LifeAll(fs);
    PutBack(fs);
    StillRunning(Exec(J0, ms).Life());
    StartsInitial();
  }
}
