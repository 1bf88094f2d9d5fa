/** What mutexes and condition variables guarantee over whole runs. */
module LocksTheorems {
  import opened Options
  import opened Seqs
  import opened Locks
  import opened LocksCore
  import opened LocksInvariant

  lemma TraceEnd(s0: State, ms: seq<Move>)
    requires Legal(s0, ms) && ms != []
    ensures var ms', mv := ms[..|ms|-1], ms[|ms|-1];
      && Trace(s0, ms)[..|Trace(s0, ms)|-1] == Trace(s0, ms')
      && Trace(s0, ms)[|Trace(s0, ms)|-1] == EventOf(Exec(s0, ms'), mv)
      && Exec(s0, ms) == Step(Exec(s0, ms'), mv)
  {
  }

  /** At most one thread is inside a mutex; its nesting depth is the count, and a
      recursive mutex names it, although the owner field is never cleared. */
  lemma {:induction false} MutualExclusion(s0: State, ms: seq<Move>, m: Mid)
    requires Initial(s0) && Legal(s0, ms)
    ensures var s := Exec(s0, ms);
      && (forall t: Tid, u: Tid | s.Depth(m, t) > 0 && s.Depth(m, u) > 0 :: t == u)
      && (forall t: Tid | s.Depth(m, t) > 0 :: s.Mu(m).count == s.Depth(m, t))
      && (forall t: Tid | s.Depth(m, t) > 0 && s.Mu(m).kind == Recursive :: s.Mu(m).owner == Some(t))
      && (s.Mu(m).count > 0 ==> exists t: Tid :: s.Depth(m, t) > 0)
      && (s.Mu(m).kind == Fast ==> s.Mu(m).count <= 1)
  {
    var h := RunKeepsCore(s0, ms);
    assert CountOk(Exec(s0, ms), h, m);
  }

  /** No two threads are between taking and giving back the same spinlock. */
  lemma {:induction false} SpinlockExclusion(s0: State, ms: seq<Move>, t: Tid, u: Tid)
    requires Initial(s0) && Legal(s0, ms)
    requires Crit(Exec(s0, ms).Pc(t)).Some? && Crit(Exec(s0, ms).Pc(t)) == Crit(Exec(s0, ms).Pc(u))
    ensures t == u
  {
    var h := RunKeepsCore(s0, ms);
    assert CritOk(Exec(s0, ms), t) && CritOk(Exec(s0, ms), u);
  }

  /** m is free, or recursive and held by t already. */
  predicate Open(s: State, m: Mid, t: Tid) {
    s.Mu(m).count == 0 || (s.Mu(m).kind == Recursive && s.Depth(m, t) > 0)
  }

  /** Who gets a mutex: the thread that finds it open enters it once more, and nothing
      else about the mutex changes. Otherwise a lock joins the end of the queue and a
      trylock leaves everything as it was. */
  lemma {:induction false} LockExact(s0: State, ms: seq<Move>, mv: Move, m: Mid)
    requires Initial(s0) && Legal(s0, ms) && Enabled(Exec(s0, ms), mv)
    requires Exec(s0, ms).Pc(mv.t) == LockBody(m) || Exec(s0, ms).Pc(mv.t) == TryBody(m)
    ensures var s, s', t := Exec(s0, ms), Step(Exec(s0, ms), mv), mv.t;
      if Open(s, m, t) then
        s'.Depth(m, t) == s.Depth(m, t) + 1 == s'.Mu(m).count && s'.Mu(m).queue == s.Mu(m).queue
      else
        && s'.Depth(m, t) == s.Depth(m, t) && s'.Mu(m).count == s.Mu(m).count
        && s'.Mu(m).queue == s.Mu(m).queue + if s.Pc(t).LockBody? then [t] else []
  {
    var h := RunKeepsCore(s0, ms);
    assert CountOk(Exec(s0, ms), h, m);
  }

  /** A thread inside a recursive mutex is never made to wait for it: it is not
      suspended on it, or about to be, and, unless a time-out has raced with a signal,
      not on its queue. */
  lemma {:induction false} HolderNotRefused(s0: State, ms: seq<Move>, m: Mid, t: Tid)
    requires Initial(s0) && Legal(s0, ms)
    requires Exec(s0, ms).Mu(m).kind == Recursive && Exec(s0, ms).Depth(m, t) > 0
    ensures Exec(s0, ms).Pc(t) != LockSuspend(m) && Exec(s0, ms).Pc(t) != LockRel(m, false)
    ensures CleanRun(s0, ms) ==> t !in Exec(s0, ms).Mu(m).queue
  {
    RunRefused(s0, ms, t);
    if CleanRun(s0, ms) {
      NoLostWakeup(s0, ms, t);
      assert Exec(s0, ms).Mu(m).queue == Exec(s0, ms).Queue(M(m));
    }
  }

  /** At no time is a thread inside m on its queue. */
  ghost predicate HeldOff(s0: State, ms: seq<Move>, m: Mid) {
    && (forall t | Exec(s0, ms).Depth(m, t) > 0 :: t !in Exec(s0, ms).Mu(m).queue)
    && (ms == [] || HeldOff(s0, ms[..|ms|-1], m))
  }

  /** Whoever gets m is off its queue when it gets it. */
  ghost predicate TakenOff(s0: State, ms: seq<Move>, m: Mid) {
    ms == [] ||
      var s, t := Exec(s0, ms[..|ms|-1]), ms[|ms|-1].t;
      && TakenOff(s0, ms[..|ms|-1], m)
      && ((s.Pc(t) == LockBody(m) || s.Pc(t) == TryBody(m)) && Open(s, m, t) ==> t !in s.Mu(m).queue)
  }

  lemma OffQueueStays(s: State, h: map<Mid, Tid>, mv: Move, m: Mid, u: Tid)
    requires Enabled(s, mv) && CountOk(s, h, m) && s.Mu(m).kind == Recursive
    requires (s.Pc(mv.t) == LockBody(m) || s.Pc(mv.t) == TryBody(m)) && Open(s, m, mv.t) ==> mv.t !in s.Mu(m).queue
    requires s.Depth(m, u) > 0 ==> u !in s.Mu(m).queue
    ensures Step(s, mv).Depth(m, u) > 0 ==> u !in Step(s, mv).Mu(m).queue
  {
  }

  /** Exactly when, in runs of any kind: a holder of a recursive mutex is never on its
      queue if and only if nobody ever gets the mutex while on its queue, which only a
      restart that was not meant for this wait makes possible. */
  lemma {:induction false} HolderOffQueueExact(s0: State, ms: seq<Move>, m: Mid)
    requires Initial(s0) && Legal(s0, ms) && s0.Mu(m).kind == Recursive
    ensures Exec(s0, ms).Mu(m).kind == Recursive
    ensures HeldOff(s0, ms, m) <==> TakenOff(s0, ms, m)
    decreases |ms|
  {
    if ms != [] {
      var ms', mv := ms[..|ms|-1], ms[|ms|-1];
      var s := Exec(s0, ms');
      HolderOffQueueExact(s0, ms', m);
      KindsStay(s, mv, m);
      var h := RunKeepsCore(s0, ms');
      assert CountOk(s, h, m);
      if TakenOff(s0, ms, m) {
        forall u | Step(s, mv).Depth(m, u) > 0 ensures u !in Step(s, mv).Mu(m).queue {
          OffQueueStays(s, h, mv, m, u);
        }
      } else if TakenOff(s0, ms', m) {
        LockExact(s0, ms', mv, m);
      }
    }
  }

  /** The outstanding wait of t is recorded exactly once, or t does not wait. */
  ghost predicate Accounted(s: State, t: Tid) {
    && (forall p, q | t in Owed(s.Pc(p)) && t in Owed(s.Pc(q)) :: p == q)
    && (forall o | t in s.Queue(o) :: Waits(s.Pc(t)) == Some(o))
    && match Waits(s.Pc(t))
       case None => t !in s.pending && forall p :: t !in Owed(s.Pc(p))
       case Some(o) =>
         || (t in s.Queue(o) && t !in s.pending && forall p :: t !in Owed(s.Pc(p)))
         || (t !in s.Queue(o) && t !in s.pending && exists p :: t in Owed(s.Pc(p)))
         || (t !in s.Queue(o) && t in s.pending && forall p :: t !in Owed(s.Pc(p)))
  }

  lemma ThreadAccounted(s: State, g: map<Tid, Place>, t: Tid)
    requires Inv(s, g)
    ensures Accounted(s, t)
  {
    assert ThreadOk(s, g, t);
    forall p | t in Owed(s.Pc(p)) ensures At(g, t) == OwedBy(p) { assert OwedOk(s, g, p); }
    forall o | t in s.Queue(o) ensures At(g, t) == Queued(o) { assert QueueOk(s, g, o); }
    if At(g, t).OwedBy? { assert t in Owed(s.Pc(At(g, t).p)); }
  }

  /** Waiting is atomic: from the moment a thread is enqueued, before it has even
      released the mutex, until its suspend returns, it is on the queue it waits on,
      or owed a restart by exactly one thread, or has that restart pending. No
      thread is on two queues. */
  lemma {:induction false} NoLostWakeup(s0: State, ms: seq<Move>, t: Tid)
    requires Initial(s0) && Legal(s0, ms) && CleanRun(s0, ms)
    ensures Accounted(Exec(s0, ms), t)
  {
    var g := RunKeepsInv(s0, ms);
    ThreadAccounted(Exec(s0, ms), g, t);
  }

  /** t is on its way to try mutex m again, with its restart owed, pending or taken. */
  predicate Retries(s: State, t: Tid, m: Mid) {
    && t !in s.Mu(m).queue
    && (s.Pc(t) == LockRel(m, false) || s.Pc(t) == LockSuspend(m) || s.Pc(t) == LockAcq(m) || s.Pc(t) == LockBody(m))
  }

  /** The threads that an unlock has taken off the queue of m and that have not tried
      m again since. */
  ghost function NextBack(s: State, b: set<Tid>, mv: Move, m: Mid): set<Tid>
    requires Enabled(s, mv)
  {
    var e := EventOf(s, mv);
    (if s.Pc(mv.t) == LockBody(m) then b - {mv.t} else b)
    + (if e.Claimed? && e.at == M(m) then set x | x in e.q else {})
  }

  ghost function Back(s0: State, ms: seq<Move>, m: Mid): set<Tid>
    requires Legal(s0, ms)
  {
    if ms == [] then {} else NextBack(Exec(s0, ms[..|ms|-1]), Back(s0, ms[..|ms|-1], m), ms[|ms|-1], m)
  }

  ghost predicate BackOk(s: State, b: set<Tid>, m: Mid) {
    && (forall t | t in b :: Retries(s, t, m))
    && (s.Mu(m).count == 0 && s.Mu(m).queue != [] ==> b != {})
  }

  /** A thread on its way stays on it until it looks. */
  lemma RetriesOn(s: State, mv: Move, t: Tid, m: Mid)
    requires Enabled(s, mv) && Retries(s, t, m) && s.Pc(mv.t) != LockBody(m)
    requires forall x | x in Step(s, mv).Mu(m).queue :: x in s.Mu(m).queue
    ensures Retries(Step(s, mv), t, m)
  {
  }

  lemma LookBack(s: State, b: set<Tid>, mv: Move, m: Mid)
    requires Enabled(s, mv) && BackOk(s, b, m) && KindOk(s, s.Pc(mv.t)) && s.Pc(mv.t) == LockBody(m)
    ensures BackOk(Step(s, mv), NextBack(s, b, mv, m), m)
  {
    forall t | t in b && t != mv.t ensures Retries(Step(s, mv), t, m) { assert Retries(s, t, m); OthersStay(s, mv, t); }
  }

  lemma UnlockBack(s: State, g: map<Tid, Place>, b: set<Tid>, mv: Move, m: Mid)
    requires Enabled(s, mv) && BackOk(s, b, m) && KindOk(s, s.Pc(mv.t)) && s.Pc(mv.t).UnlBody? && s.Pc(mv.t).m == m
    requires QueueOk(s, g, M(m)) && (s.Mu(m).queue != [] ==> ThreadOk(s, g, s.Mu(m).queue[0]))
    ensures BackOk(Step(s, mv), NextBack(s, b, mv, m), m)
  {
    var s', q := Step(s, mv), s.Mu(m).queue;
    forall t | t in b ensures Retries(s', t, m) { assert Retries(s, t, m); RetriesOn(s, mv, t, m); }
    if q != [] && !Inner(s.Mu(m)) {
      assert q == [q[0]] + q[1..] && q[..1] == [q[0]];
      assert q[0] in NextBack(s, b, mv, m);
    }
  }

  lemma OtherBack(s: State, b: set<Tid>, mv: Move, m: Mid)
    requires Enabled(s, mv) && BackOk(s, b, m)
    requires s.Pc(mv.t) != LockBody(m) && !(s.Pc(mv.t).UnlBody? && s.Pc(mv.t).m == m)
    ensures BackOk(Step(s, mv), NextBack(s, b, mv, m), m)
  {
    OtherQueues(s, mv, m);
    forall t | t in b ensures Retries(Step(s, mv), t, m) { assert Retries(s, t, m); RetriesOn(s, mv, t, m); }
  }

  lemma OtherQueues(s: State, mv: Move, m: Mid)
    requires Enabled(s, mv) && s.Pc(mv.t) != LockBody(m) && !(s.Pc(mv.t).UnlBody? && s.Pc(mv.t).m == m)
    ensures Step(s, mv).Mu(m).queue == s.Mu(m).queue && (Step(s, mv).Mu(m).count == 0 ==> s.Mu(m).count == 0)
    ensures EventOf(s, mv).Claimed? ==> EventOf(s, mv).at != M(m)
  {
  }

  lemma {:induction false} RunBack(s0: State, ms: seq<Move>, m: Mid)
    requires Initial(s0) && Legal(s0, ms) && CleanRun(s0, ms)
    ensures BackOk(Exec(s0, ms), Back(s0, ms, m), m)
    decreases |ms|
  {
    if ms != [] {
      var s, b, mv := Exec(s0, ms[..|ms|-1]), Back(s0, ms[..|ms|-1], m), ms[|ms|-1];
      RunBack(s0, ms[..|ms|-1], m);
      var g := RunKeepsInv(s0, ms[..|ms|-1]);
      var h := RunKeepsCore(s0, ms[..|ms|-1]);
      KindsAreOk(s, h, mv.t);
      if s.Pc(mv.t) == LockBody(m) {
        LookBack(s, b, mv, m);
      } else if s.Pc(mv.t).UnlBody? && s.Pc(mv.t).m == m {
        assert QueueOk(s, g, M(m));
        if s.Mu(m).queue != [] { assert ThreadOk(s, g, s.Mu(m).queue[0]); }
        UnlockBack(s, g, b, mv, m);
      } else {
        OtherBack(s, b, mv, m);
      }
    }
  }

  /** In every reachable state a free mutex with waiters has a thread that an unlock
      took off its queue, that has not tried the mutex since and is on its way to. */
  lemma {:induction false} NoStrandedWaiter(s0: State, ms: seq<Move>, m: Mid)
    requires Initial(s0) && Legal(s0, ms) && CleanRun(s0, ms)
    requires Exec(s0, ms).Mu(m).count == 0 && Exec(s0, ms).Mu(m).queue != []
    ensures exists t :: t in Back(s0, ms, m) && Retries(Exec(s0, ms), t, m)
  {
    RunBack(s0, ms, m);
    var t :| t in Back(s0, ms, m);
    assert Retries(Exec(s0, ms), t, m);
  }

  /** Nothing can move except by starting a new operation or by a time-out. */
  ghost predicate Quiescent(s: State) {
    forall t, call | s.Pc(t) != Idle :: !Enabled(s, Move(t, call, false))
  }

  /** The holder of a spinlock is never blocked. */
  lemma HolderRuns(s: State, h: map<Mid, Tid>, o: Obj)
    requires Core(s, h) && o in s.spin
    ensures s.Pc(s.spin[o]) != Idle && Enabled(s, Move(s.spin[o], Lock(0), false))
  {
    assert SpinOk(s, o);
  }

  lemma SpinFree(s: State, h: map<Mid, Tid>, o: Obj)
    requires Core(s, h) && Quiescent(s)
    ensures o !in s.spin
  {
    if o in s.spin { HolderRuns(s, h, o); }
  }

  /** When everything has come to rest, every thread that is not idle sleeps on the
      queue of a condition or of a mutex that somebody holds; if the mutex is recursive,
      somebody else. */
  lemma {:induction false} RestIsJustified(s0: State, ms: seq<Move>, t: Tid)
    requires Initial(s0) && Legal(s0, ms) && CleanRun(s0, ms) && Quiescent(Exec(s0, ms))
    requires Exec(s0, ms).Pc(t) != Idle
    ensures var s := Exec(s0, ms);
      match s.Pc(t)
      case LockSuspend(m) =>
        t in s.Mu(m).queue && exists u: Tid :: s.Depth(m, u) > 0 && (s.Mu(m).kind == Recursive ==> u != t)
      case CondSuspend(c, _) => t in s.Cond(c)
      case TimedSleep(c, _) => t in s.Cond(c)
      case _ => false
  {
    var s := Exec(s0, ms);
    var g := RunKeepsInv(s0, ms);
    var h := RunKeepsCore(s0, ms);
    forall o ensures o !in s.spin { SpinFree(s, h, o); }
    assert !Enabled(s, Move(t, Lock(0), false));
    assert ThreadOk(s, g, t);
    if At(g, t).OwedBy? { OwingThreadRuns(s, g, t); }
    if s.Pc(t).LockSuspend? {
      var m := s.Pc(t).m;
      assert CountOk(s, h, m);
      RunRefused(s0, ms, t);
      if s.Mu(m).count == 0 {
        NoStrandedWaiter(s0, ms, m);
        var w :| Retries(s, w, m);
        RetryingThreadRuns(s, g, h, w, m);
      }
    }
  }

  lemma OwingThreadRuns(s: State, g: map<Tid, Place>, t: Tid)
    requires Inv(s, g) && At(g, t).OwedBy?
    ensures s.Pc(At(g, t).p) != Idle && Enabled(s, Move(At(g, t).p, Lock(0), false))
  {
    assert ThreadOk(s, g, t);
  }

  lemma RetryingThreadRuns(s: State, g: map<Tid, Place>, h: map<Mid, Tid>, t: Tid, m: Mid)
    requires Inv(s, g) && Core(s, h) && Retries(s, t, m) && forall o :: o !in s.spin
    ensures exists w :: s.Pc(w) != Idle && Enabled(s, Move(w, Lock(0), false))
  {
    assert ThreadOk(s, g, t) && CritOk(s, t);
    if At(g, t).OwedBy? { OwingThreadRuns(s, g, t); }
    else { assert Enabled(s, Move(t, Lock(0), false)); }
  }

  /** How often t was parked, restarted, resumed and withdrawn. */
  datatype Tally = Tally(parked: nat, restarted: nat, resumed: nat, withdrawn: nat)

  function Bump(y: Tally, e: Event, t: Tid): Tally {
    match e
    case Parked(u, _) => if u == t then y.(parked := y.parked + 1) else y
    case Restarted(_, u) => if u == t then y.(restarted := y.restarted + 1) else y
    case Resumed(u) => if u == t then y.(resumed := y.resumed + 1) else y
    case Withdrawn(u, _) => if u == t then y.(withdrawn := y.withdrawn + 1) else y
    case _ => y
  }

  function TallyOf(tr: seq<Event>, t: Tid): Tally {
    if tr == [] then Tally(0, 0, 0, 0) else Bump(TallyOf(tr[..|tr|-1], t), tr[|tr|-1], t)
  }

  ghost predicate Balanced(s: State, y: Tally, t: Tid) {
    && y.parked == y.resumed + y.withdrawn + (if Waits(s.Pc(t)).Some? then 1 else 0)
    && y.restarted == y.resumed + (if t in s.pending then 1 else 0)
    && (t in s.pending ==> Waits(s.Pc(t)).Some?)
  }

  lemma OthersWait(s: State, mv: Move, t: Tid)
    requires Enabled(s, mv) && t != mv.t
    ensures Step(s, mv).Pc(t) == s.Pc(t)
    ensures var e := EventOf(s, mv); e.Parked? || e.Resumed? || e.Withdrawn? ==> e.t == mv.t
  {
  }

  /** A thread starts and stops waiting exactly at the events that say so, ... */
  lemma StepWaits(s: State, mv: Move)
    requires Enabled(s, mv) && KindOk(s, s.Pc(mv.t))
    ensures var e := EventOf(s, mv);
      var w, w' := Waits(s.Pc(mv.t)).Some?, Waits(Step(s, mv).Pc(mv.t)).Some?;
      && (w' <==> e.Parked? || (w && !e.Resumed? && !e.Withdrawn?))
      && (e.Parked? ==> !w) && (e.Resumed? || e.Withdrawn? ==> w)
      && (e.Parked? || e.Resumed? || e.Withdrawn? ==> e.t == mv.t)
  {
  }

  predicate Signalling(p: Pc) { p.UnlWake? || p.SigWake? || p.LockSuspend? || p.CondSuspend? || p.TimedSleep? }

  lemma PendingUntouched(s: State, mv: Move)
    requires Enabled(s, mv) && !Signalling(s.Pc(mv.t))
    ensures Step(s, mv).pending == s.pending && !EventOf(s, mv).Restarted? && !EventOf(s, mv).Resumed?
    ensures EventOf(s, mv).Withdrawn? ==> s.Pc(mv.t).TimedCheck? && EventOf(s, mv).t == mv.t
  {
  }

  lemma SignalRestarts(s: State, g: map<Tid, Place>, mv: Move, t: Tid)
    requires Enabled(s, mv) && Signalling(s.Pc(mv.t)) && ThreadOk(s, g, t) && OwedOk(s, g, mv.t)
    ensures var e := EventOf(s, mv);
      var sent := e.Restarted? && e.t == t;
      && (t in Step(s, mv).pending <==> sent || (t in s.pending && e != Resumed(t)))
      && (sent ==> t !in s.pending && Waits(s.Pc(t)).Some?)
      && (e == Resumed(t) ==> t in s.pending) && !e.Withdrawn?
  {
  }

  /** ... and a restart finds its target waiting, with no restart pending. */
  lemma StepRestarts(s: State, g: map<Tid, Place>, mv: Move, t: Tid)
    requires Inv(s, g) && Enabled(s, mv) && Clean(s, mv.t)
    ensures var e := EventOf(s, mv);
      var sent := e.Restarted? && e.t == t;
      && (t in Step(s, mv).pending <==> sent || (t in s.pending && e != Resumed(t)))
      && (sent ==> t !in s.pending && Waits(s.Pc(t)).Some?)
      && (e == Resumed(t) ==> t in s.pending)
      && (e.Withdrawn? && e.t == t ==> t !in s.pending)
  {
    assert ThreadOk(s, g, t) && OwedOk(s, g, mv.t);
    if Signalling(s.Pc(mv.t)) {
      SignalRestarts(s, g, mv, t);
    } else {
      PendingUntouched(s, mv);
      if s.Pc(mv.t).TimedCheck? { assert QueueOk(s, g, C(s.Pc(mv.t).c)); }
    }
  }

  lemma StepBalances(s: State, g: map<Tid, Place>, mv: Move, y: Tally, t: Tid)
    requires Inv(s, g) && Enabled(s, mv) && Clean(s, mv.t) && KindOk(s, s.Pc(mv.t)) && Balanced(s, y, t)
    ensures Balanced(Step(s, mv), Bump(y, EventOf(s, mv), t), t)
  {
    if t == mv.t { StepWaits(s, mv); } else { OthersWait(s, mv, t); }
    StepRestarts(s, g, mv, t);
  }

  /** Restart tokens: a wait that is not withdrawn by its own time-out is sent
      exactly one restart, and every restart ends exactly one wait, so the single
      pending signal of a thread never stands for two wake-ups. */
  lemma {:induction false} OneRestartPerWait(s0: State, ms: seq<Move>, t: Tid)
    requires Initial(s0) && Legal(s0, ms) && CleanRun(s0, ms)
    ensures Balanced(Exec(s0, ms), TallyOf(Trace(s0, ms), t), t)
    decreases |ms|
  {
    if ms != [] {
      var ms', mv := ms[..|ms|-1], ms[|ms|-1];
      OneRestartPerWait(s0, ms', t);
      var g := RunKeepsInv(s0, ms');
      var h := RunKeepsCore(s0, ms');
      KindsAreOk(Exec(s0, ms'), h, mv.t);
      StepBalances(Exec(s0, ms'), g, mv, TallyOf(Trace(s0, ms'), t), t);
      TraceEnd(s0, ms);
    }
  }

  function DropLast(q: seq<Tid>, t: Tid): seq<Tid> {
    if q == [] then []
    else if q[|q|-1] == t then q[..|q|-1]
    else DropLast(q[..|q|-1], t) + [q[|q|-1]]
  }

  /** The threads that joined the queue of o, in order, time-outs taken back. */
  function Joins(j: seq<Tid>, e: Event, o: Obj): seq<Tid> {
    if e.Parked? && e.at == o then j + [e.t]
    else if e.Withdrawn? && e.at == o then DropLast(j, e.t)
    else j
  }

  function Joined(tr: seq<Event>, o: Obj): seq<Tid> {
    if tr == [] then [] else Joins(Joined(tr[..|tr|-1], o), tr[|tr|-1], o)
  }

  /** The threads taken off it by unlock, signal and broadcast, in order. */
  function Serves(e: Event, o: Obj): seq<Tid> {
    if e.Claimed? && e.at == o then e.q else []
  }

  function Served(tr: seq<Event>, o: Obj): seq<Tid> {
    if tr == [] then [] else Served(tr[..|tr|-1], o) + Serves(tr[|tr|-1], o)
  }

  lemma RemoveAppend(a: seq<Tid>, x: Tid, t: Tid)
    ensures Remove(a + [x], t) == if t in a then Remove(a, t) + [x] else if x == t then a else a + [x]
  {
    if a == [] { assert a + [x] == [x]; }
    else {
      assert (a + [x])[1..] == a[1..] + [x];
      assert a == [a[0]] + a[1..];
      RemoveAppend(a[1..], x, t);
    }
  }

  lemma DropLastConcat(a: seq<Tid>, q: seq<Tid>, t: Tid)
    requires t in q && Distinct(q)
    ensures DropLast(a + q, t) == a + Remove(q, t)
    decreases |q|
  {
    var n := |q| - 1;
    var q', x := q[..n], q[n];
    assert q == q' + [x];
    assert (a + q)[..|a + q|-1] == a + q';
    RemoveAppend(q', x, t);
    DistinctPrefix(q, n);
    if x == t {
      if t in q' { DistinctSplit(q, n, t); }
    } else {
      DropLastConcat(a, q', t);
    }
  }

  /** What an event does to a queue of o. */
  ghost predicate QueueEffect(e: Event, o: Obj, q: seq<Tid>, q': seq<Tid>) {
    if e.Parked? && e.at == o then q' == q + [e.t]
    else if e.Withdrawn? && e.at == o then e.t in q && q' == Remove(q, e.t)
    else if e.Claimed? && e.at == o then q == e.q + q'
    else q' == q
  }

  lemma MutexUntouched(s: State, mv: Move)
    requires Enabled(s, mv) && !s.Pc(mv.t).LockBody? && !s.Pc(mv.t).TryBody? && !s.Pc(mv.t).UnlBody?
    ensures Step(s, mv).mutex == s.mutex
    ensures var e := EventOf(s, mv); e.Parked? || e.Withdrawn? || e.Claimed? ==> e.at.C?
  {
  }

  lemma LockQueue(s: State, mv: Move, m: Mid)
    requires Enabled(s, mv) && KindOk(s, s.Pc(mv.t)) && (s.Pc(mv.t).LockBody? || s.Pc(mv.t).TryBody?)
    ensures QueueEffect(EventOf(s, mv), M(m), s.Mu(m).queue, Step(s, mv).Mu(m).queue)
  {
  }

  lemma UnlockQueue(s: State, mv: Move, m: Mid)
    requires Enabled(s, mv) && KindOk(s, s.Pc(mv.t)) && s.Pc(mv.t).UnlBody?
    ensures QueueEffect(EventOf(s, mv), M(m), s.Mu(m).queue, Step(s, mv).Mu(m).queue)
  {
  }

  lemma StepMutexQueue(s: State, mv: Move, m: Mid)
    requires Enabled(s, mv) && KindOk(s, s.Pc(mv.t))
    ensures QueueEffect(EventOf(s, mv), M(m), s.Mu(m).queue, Step(s, mv).Mu(m).queue)
  {
    match s.Pc(mv.t)
    case LockBody(n) => LockQueue(s, mv, m);
    case TryBody(n) => LockQueue(s, mv, m);
    case UnlBody(n, _) => UnlockQueue(s, mv, m);
    case _ => MutexUntouched(s, mv);
  }

  lemma CondUntouched(s: State, mv: Move)
    requires Enabled(s, mv) && !s.Pc(mv.t).CondEnq? && !s.Pc(mv.t).TimedCheck? && !s.Pc(mv.t).SigBody?
    ensures Step(s, mv).cond == s.cond
    ensures var e := EventOf(s, mv); e.Parked? || e.Withdrawn? || e.Claimed? ==> e.at.M?
  {
  }

  lemma StepCondQueue(s: State, mv: Move, c: Cid)
    requires Enabled(s, mv) && Clean(s, mv.t)
    ensures QueueEffect(EventOf(s, mv), C(c), s.Cond(c), Step(s, mv).Cond(c))
  {
    match s.Pc(mv.t)
    case CondEnq(_, _, _) =>
    case TimedCheck(_, _, _) =>
    case SigBody(_, _) =>
    case _ => CondUntouched(s, mv);
  }

  lemma QueueArithmetic(e: Event, o: Obj, j: seq<Tid>, served: seq<Tid>, q: seq<Tid>, q': seq<Tid>)
    requires QueueEffect(e, o, q, q') && j == served + q && Distinct(q)
    ensures Joins(j, e, o) == served + Serves(e, o) + q'
  {
    if e.Withdrawn? && e.at == o { DropLastConcat(served, q, e.t); }
  }

  lemma StepFifo(s: State, g: map<Tid, Place>, mv: Move, o: Obj, j: seq<Tid>, served: seq<Tid>)
    requires Inv(s, g) && Enabled(s, mv) && Clean(s, mv.t) && KindOk(s, s.Pc(mv.t)) && j == served + s.Queue(o)
    ensures Joins(j, EventOf(s, mv), o) == served + Serves(EventOf(s, mv), o) + Step(s, mv).Queue(o)
  {
    if o.M? { StepMutexQueue(s, mv, o.m); } else { StepCondQueue(s, mv, o.c); }
    assert QueueOk(s, g, o);
    QueueArithmetic(EventOf(s, mv), o, j, served, s.Queue(o), Step(s, mv).Queue(o));
  }

  /** Every queue is first in, first out: what joined it is what was served followed
      by what is still on it. So signals and unlocks take waiters in the order of
      arrival, and a broadcast takes exactly those on the queue when it runs. */
  lemma {:induction false} FirstInFirstOut(s0: State, ms: seq<Move>, o: Obj)
    requires Initial(s0) && Legal(s0, ms) && CleanRun(s0, ms)
    ensures Joined(Trace(s0, ms), o) == Served(Trace(s0, ms), o) + Exec(s0, ms).Queue(o)
    decreases |ms|
  {
    if ms != [] {
      var ms', mv := ms[..|ms|-1], ms[|ms|-1];
      FirstInFirstOut(s0, ms', o);
      var g := RunKeepsInv(s0, ms');
      var h := RunKeepsCore(s0, ms');
      KindsAreOk(Exec(s0, ms'), h, mv.t);
      StepFifo(Exec(s0, ms'), g, mv, o, Joined(Trace(s0, ms'), o), Served(Trace(s0, ms'), o));
      TraceEnd(s0, ms);
    }
  }

  /** The threads p has taken off queues, and those it has restarted, in order. */
  function Took(tr: seq<Event>, p: Tid): seq<Tid> {
    if tr == [] then []
    else
      var e := tr[|tr|-1];
      Took(tr[..|tr|-1], p) + if e.Claimed? && e.p == p then e.q else []
  }

  function Sent(tr: seq<Event>, p: Tid): seq<Tid> {
    if tr == [] then []
    else
      var e := tr[|tr|-1];
      Sent(tr[..|tr|-1], p) + if e.Restarted? && e.p == p then [e.t] else []
  }

  /** What an event does to the restarts p owes. */
  ghost predicate OwedEffect(e: Event, p: Tid, q: seq<Tid>, q': seq<Tid>) {
    if e.Claimed? && e.p == p then q == [] && q' == e.q
    else if e.Restarted? && e.p == p then q == [e.t] + q'
    else q' == q
  }

  lemma StepSends(s: State, mv: Move, p: Tid)
    requires Enabled(s, mv) && KindOk(s, s.Pc(mv.t))
    ensures OwedEffect(EventOf(s, mv), p, Owed(s.Pc(p)), Owed(Step(s, mv).Pc(p)))
  {
  }

  lemma OwedArithmetic(e: Event, p: Tid, a: seq<Tid>, b: seq<Tid>, q: seq<Tid>, q': seq<Tid>)
    requires OwedEffect(e, p, q, q') && a == b + q
    ensures a + (if e.Claimed? && e.p == p then e.q else [])
      == b + (if e.Restarted? && e.p == p then [e.t] else []) + q'
  {
  }

  /** Every thread restarts, in order and once each, exactly the threads it took
      off a queue; what is missing is what it still owes. */
  lemma {:induction false} SendsWhatItTook(s0: State, ms: seq<Move>, p: Tid)
    requires Initial(s0) && Legal(s0, ms)
    ensures Took(Trace(s0, ms), p) == Sent(Trace(s0, ms), p) + Owed(Exec(s0, ms).Pc(p))
    decreases |ms|
  {
    if ms != [] {
      var ms', mv := ms[..|ms|-1], ms[|ms|-1];
      SendsWhatItTook(s0, ms', p);
      var s := Exec(s0, ms');
      var h := RunKeepsCore(s0, ms');
      KindsAreOk(s, h, mv.t);
      StepSends(s, mv, p);
      OwedArithmetic(EventOf(s, mv), p, Took(Trace(s0, ms'), p), Sent(Trace(s0, ms'), p), Owed(s.Pc(p)),
        Owed(Step(s, mv).Pc(p)));
      TraceEnd(s0, ms);
    }
  }

  /** What a signal or a broadcast takes off the queue q: its first thread, or all. */
  function Share(q: seq<Tid>, all: bool): seq<Tid> { if all || q == [] then q else [q[0]] }

  /** The caller then owes exactly these threads their restarts. */
  lemma TakesItsShare(s: State, mv: Move, c: Cid, all: bool)
    requires s.Pc(mv.t) == SigBody(c, all)
    ensures var q := s.Cond(c);
      && EventOf(s, mv) == Claimed(mv.t, C(c), Share(q, all)) && Step(s, mv).Pc(mv.t) == SigRel(c, Share(q, all))
      && Share(q, all) + Step(s, mv).Cond(c) == q
  {
    var q := s.Cond(c);
    assert q[..|q|] == q && q[|q|..] == [];
    if q != [] { assert q[..1] == [q[0]] && [q[0]] + q[1..] == q; }
  }
}
