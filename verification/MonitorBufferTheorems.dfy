/** What put and get of Examples/ex2.c guarantee over the real mutex and conditions. */
module MonitorBufferTheorems {
  import opened Circular
  import L = Locks
  import LC = LocksCore
  import LI = LocksInvariant
  import LT = LocksTheorems
  import B = MonitorBuffer
  import opened MonitorBufferRuns

  /** The locks of the program make a run of mutex.c and condvar.c without time-outs. */
  ghost predicate LockRun(ms: seq<Move>) {
    var ls := AllLockMoves(ms);
    L.Legal(LOCKS0, ls) && L.CleanRun(LOCKS0, ls) && L.Exec(LOCKS0, ls) == Exec(ms).locks
  }

  lemma LocksStay(c: State, mv: Move)
    requires Enabled(c, mv)
    ensures var m := LockMoves(c, mv);
      |m| <= 1 && Step(c, mv).locks == if m == [] then c.locks else L.Step(c.locks, m[0])
  {
  }

  lemma {:induction false} LongerRun(ls: seq<L.Move>, lm: L.Move)
    requires L.Legal(LOCKS0, ls) && L.CleanRun(LOCKS0, ls)
    requires L.Enabled(L.Exec(LOCKS0, ls), lm) && L.Clean(L.Exec(LOCKS0, ls), lm.t)
    ensures L.Legal(LOCKS0, ls + [lm]) && L.CleanRun(LOCKS0, ls + [lm])
    ensures L.Exec(LOCKS0, ls + [lm]) == L.Step(L.Exec(LOCKS0, ls), lm)
  {
    assert (ls + [lm])[..|ls|] == ls;
  }

  lemma IsClean(c: State, a: B.State, t: Tid)
    requires Sim(c, a)
    ensures L.Clean(c.locks, t)
  {
    assert ThreadSim(c, a, t);
  }

  lemma {:induction false} LockRunOn(ms: seq<Move>, mv: Move, a: B.State)
    requires LockRun(ms) && Sim(Exec(ms), a) && Enabled(Exec(ms), mv)
    ensures LockRun(ms + [mv])
  {
    var c, m := Exec(ms), LockMoves(Exec(ms), mv);
    assert (ms + [mv])[..|ms|] == ms;
    LocksStay(c, mv);
    if m == [] {
      assert AllLockMoves(ms) + m == AllLockMoves(ms);
    } else {
      IsClean(c, a, mv.t);
      assert m == [m[0]];
      LongerRun(AllLockMoves(ms), m[0]);
    }
  }

  lemma StartsSim()
    ensures Sim(INITIAL, B.INITIAL) && B.Inv(B.INITIAL) && L.Initial(LOCKS0)
  {
    B.RunKeepsInv([]);
  }

  /** Refinement: whatever the program does over the real mutex and conditions, the
      monitor program can do, with the same buffer, values and queues. */
  lemma {:induction false} Refines(ms: seq<Move>) returns (bs: seq<B.Move>)
    requires Legal(ms)
    ensures B.Legal(bs) && Sim(Exec(ms), B.Exec(bs)) && LockRun(ms)
    decreases |ms|
  {
    bs := [];
    StartsSim();
    if ms != [] {
      var ms', mv := ms[..|ms|-1], ms[|ms|-1];
      bs := Refines(ms');
      B.RunKeepsInv(bs);
      var g := LI.RunKeepsInv(LOCKS0, AllLockMoves(ms'));
      var h := LC.RunKeepsCore(LOCKS0, AllLockMoves(ms'));
      var a := B.Exec(bs);
      assert ms == ms' + [mv];
      LockRunOn(ms', mv, a);
      var a' := StepSim(Exec(ms'), a, g, h, mv);
      if a' != a {
        assert (bs + [B.Move(mv.t, mv.op)])[..|bs|] == bs;
        bs := bs + [B.Move(mv.t, mv.op)];
      }
    }
  }

  /** What comes out is, in order, the beginning of what went in, and the buffer never
      holds more than BUFFER_SIZE - 1 values. */
  lemma {:induction false} CapacityAndOrder(ms: seq<Move>)
    requires Legal(ms)
    ensures var c := Exec(ms); c.got <= c.put && |c.put| - |c.got| <= BUFFER_SIZE - 1
  {
    var bs := Refines(ms);
    B.NobodyStranded(bs);
  }

  /** The calls of put and get that t has made, and those it has carried out, as the
      values that went in and out tell it. */
  ghost function Given(ms: seq<Move>, t: Tid): seq<B.Call> {
    if ms == [] then []
    else
      var ms', mv := ms[..|ms|-1], ms[|ms|-1];
      Given(ms', t) + if mv.t == t && Exec(ms').JobOf(t) == Outside then [mv.op] else []
  }

  ghost function Carried(ms: seq<Move>, t: Tid): seq<B.Call> {
    if ms == [] then []
    else
      var c, c' := Exec(ms[..|ms|-1]), Exec(ms);
      Carried(ms[..|ms|-1], t) +
        if ms[|ms|-1].t != t then []
        else if |c'.put| > |c.put| then [B.Put(c'.put[|c.put|])]
        else if |c'.got| > |c.got| then [B.Get]
        else []
  }

  /** The call of a thread that has not moved a value yet. */
  function InHand(j: Job): seq<B.Call> {
    if j.Outside? || j.at.Signalling? || j.at.Unlocking? then [] else [j.op]
  }

  lemma OwnCarries(c: State, mv: Move)
    requires Enabled(c, mv) && c.JobOf(mv.t).Job?
    ensures var c' := Step(c, mv);
      InHand(c.JobOf(mv.t)) == InHand(c'.JobOf(mv.t)) +
        if |c'.put| > |c.put| then [B.Put(c'.put[|c.put|])] else if |c'.got| > |c.got| then [B.Get] else []
  {
  }

  lemma OthersCarry(c: State, mv: Move, t: Tid)
    requires Enabled(c, mv) && mv.t != t
    ensures Step(c, mv).JobOf(t) == c.JobOf(t)
  {
  }

  /** Every call of put stores its argument, once, and every call of get loads one value:
      what a thread has put are the arguments of its calls, in order. */
  lemma {:induction false} OneValuePerCall(ms: seq<Move>, t: Tid)
    requires Legal(ms)
    ensures Given(ms, t) == Carried(ms, t) + InHand(Exec(ms).JobOf(t))
    decreases |ms|
  {
    if ms != [] {
      var ms', mv := ms[..|ms|-1], ms[|ms|-1];
      OneValuePerCall(ms', t);
      if mv.t != t {
        OthersCarry(Exec(ms'), mv, t);
      } else if Exec(ms').JobOf(t).Job? {
        OwnCarries(Exec(ms'), mv);
      }
    }
  }

  /** put and get keep the rules of the library: they unlock and wait with the mutex only
      while they hold it, and stay inside the array. A thread is held up only inside a
      library call, by a spinlock or asleep. */
  lemma {:induction false} KeepsTheRules(ms: seq<Move>, mv: Move)
    requires Legal(ms) && Exec(ms).locks.Pc(mv.t) == L.Idle
    ensures Enabled(Exec(ms), mv)
  {
    var bs := Refines(ms);
    B.RunKeepsInv(bs);
    assert ThreadSim(Exec(ms), B.Exec(bs), mv.t) && B.ThreadOk(B.Exec(bs), mv.t);
  }

  /** No thread inside put or get can go on. */
  ghost predicate AtRest(c: State) {
    forall mv: Move | c.JobOf(mv.t) != Outside :: !Enabled(c, mv)
  }

  lemma {:induction false} LocksRest(ms: seq<Move>, a: B.State)
    requires Legal(ms) && Sim(Exec(ms), a) && AtRest(Exec(ms))
    ensures LT.Quiescent(Exec(ms).locks)
  {
    var c := Exec(ms);
    forall t, call | c.locks.Pc(t) != L.Idle ensures !L.Enabled(c.locks, L.Move(t, call, false)) {
      assert ThreadSim(c, a, t);
      assert !Enabled(c, Move(t, B.Get));
    }
  }

  /** At rest a thread inside put or get is asleep in the library. */
  predicate Asleep(c: State, t: Tid) {
    var p := c.locks.Pc(t);
    p == L.LockSuspend(LOCK) || (p.CondSuspend? && t in c.locks.Cond(p.c))
  }

  lemma {:induction false} RestIsAsleep(ms: seq<Move>, a: B.State, t: Tid)
    requires Legal(ms) && LockRun(ms) && Sim(Exec(ms), a) && AtRest(Exec(ms)) && Exec(ms).JobOf(t) != Outside
    ensures Asleep(Exec(ms), t)
    ensures Exec(ms).locks.Pc(t).LockSuspend? ==> exists u: Tid :: Exec(ms).locks.Depth(LOCK, u) > 0
  {
    var c := Exec(ms);
    StartsSim();
    LocksRest(ms, a);
    if c.locks.Pc(t) == L.Idle { KeepsTheRules(ms, Move(t, B.Get)); }
    LT.RestIsJustified(LOCKS0, AllLockMoves(ms), t);
    SleepsHere(c, a, t);
  }

  /** Only at this mutex, and without a time-out. */
  lemma SleepsHere(c: State, a: B.State, t: Tid)
    requires Sim(c, a)
    ensures !c.locks.Pc(t).TimedSleep? && (c.locks.Pc(t).LockSuspend? ==> c.locks.Pc(t).m == LOCK)
  {
    assert ThreadSim(c, a, t);
  }

  lemma {:induction false} RestIsFree(ms: seq<Move>, a: B.State, u: Tid)
    requires Legal(ms) && LockRun(ms) && Sim(Exec(ms), a) && B.Inv(a) && AtRest(Exec(ms))
    ensures Exec(ms).locks.Depth(LOCK, u) == 0
  {
    if Exec(ms).JobOf(u) != Outside { RestIsAsleep(ms, a, u); }
    AsleepIsOut(Exec(ms), a, u);
  }

  lemma AsleepIsOut(c: State, a: B.State, u: Tid)
    requires Sim(c, a) && B.ThreadOk(a, u) && (c.JobOf(u) == Outside || Asleep(c, u))
    ensures c.locks.Depth(LOCK, u) == 0
  {
    assert ThreadSim(c, a, u);
  }

  lemma {:induction false} RestIsQueued(ms: seq<Move>, a: B.State, t: Tid)
    requires Legal(ms) && LockRun(ms) && Sim(Exec(ms), a) && B.Inv(a) && AtRest(Exec(ms))
      && Exec(ms).JobOf(t) != Outside
    ensures var c, op := Exec(ms), Exec(ms).JobOf(t).op;
      && t in c.locks.Cond(Awaits(op)) && c.locks.Pc(t) == L.CondSuspend(Awaits(op), LOCK)
      && IsStage(op, Wait, a.Pc(t))
  {
    RestIsAsleep(ms, a, t);
    forall u: Tid ensures Exec(ms).locks.Depth(LOCK, u) == 0 { RestIsFree(ms, a, u); }
    QueuedStage(Exec(ms), a, t);
  }

  lemma QueuedStage(c: State, a: B.State, t: Tid)
    requires ThreadSim(c, a, t) && c.JobOf(t).Job? && c.locks.Pc(t).CondSuspend? && t in c.locks.Cond(c.locks.Pc(t).c)
    ensures var op := c.JobOf(t).op;
      c.locks.Pc(t) == L.CondSuspend(Awaits(op), LOCK) && IsStage(op, Wait, a.Pc(t))
  {
  }

  lemma {:induction false} MonitorRests(ms: seq<Move>, a: B.State)
    requires Legal(ms) && LockRun(ms) && Sim(Exec(ms), a) && B.Inv(a) && AtRest(Exec(ms))
    ensures B.AtRest(a)
  {
    forall bm: B.Move | a.Pc(bm.t) != B.Idle ensures !B.Enabled(a, bm) {
      assert ThreadSim(Exec(ms), a, bm.t);
      RestIsQueued(ms, a, bm.t);
    }
  }

  /** When everything has come to rest, nobody is stuck at the mutex: every thread inside
      put or get sleeps on the queue of its condition, consumers at an empty buffer,
      producers at a full one, and never both. */
  lemma {:induction false} RestIsJustified(ms: seq<Move>, t: Tid)
    requires Legal(ms) && AtRest(Exec(ms)) && Exec(ms).JobOf(t) != Outside
    ensures var c := Exec(ms);
      var op := c.JobOf(t).op;
      && t in c.locks.Cond(Awaits(op)) && c.locks.Pc(t) == L.CondSuspend(Awaits(op), LOCK)
      && |c.put| - |c.got| == (if op.Put? then BUFFER_SIZE - 1 else 0)
      && c.locks.Cond(Announces(op)) == []
  {
    var bs := Refines(ms);
    B.RunKeepsInv(bs);
    MonitorRests(ms, B.Exec(bs));
    RestIsQueued(ms, B.Exec(bs), t);
    B.RestIsJustified(bs);
  }
}
