/** How the three systems depend on the set of pending restarts: the mover of a step
    tests its own bit, and at a suspend only; restarts set bits and suspends that end
    clear them. Everything else is the same whatever the set contains. */
module JointViews {
  import Words
  import S = Semaphore
  import L = Locks
  import F = Lifecycle

  lemma SemEvent(s: S.State, v: S.State, t: Words.Tid, call: S.Call)
    requires v == s.(pending := v.pending) && S.Enabled(s, t) && S.Enabled(v, t)
    ensures S.EventOf(v, t, call) == S.EventOf(s, t, call)
  {
  }

  lemma SemStep(s: S.State, v: S.State, t: Words.Tid, call: S.Call)
    requires v == s.(pending := v.pending) && S.Enabled(s, t) && S.Enabled(v, t)
    ensures S.Step(v, t, call).(pending := {}) == S.Step(s, t, call).(pending := {})
  {
    var p := s.Pc(t);
    if p.Idle? || p.WaitRead? || p.WaitLink? || p.WaitCas? || p.WaitSuspend? { SemWaitStep(s, v, t, call); }
    else if p.WalkRead? || p.WalkClear? || p.WalkRestart? { SemWalkStep(s, v, t, call); }
    else { SemPostStep(s, v, t, call); }
  }

  lemma SemWaitStep(s: S.State, v: S.State, t: Words.Tid, call: S.Call)
    requires v == s.(pending := v.pending) && S.Enabled(s, t) && S.Enabled(v, t)
    requires var p := s.Pc(t); p.Idle? || p.WaitRead? || p.WaitLink? || p.WaitCas? || p.WaitSuspend?
    ensures S.Step(v, t, call).(pending := {}) == S.Step(s, t, call).(pending := {})
  {
    var p := s.Pc(t);
    assert v.Pc(t) == p && (!p.Idle? ==> v.Status(p.k) == s.Status(p.k));
  }

  lemma SemWalkStep(s: S.State, v: S.State, t: Words.Tid, call: S.Call)
    requires v == s.(pending := v.pending) && S.Enabled(s, t) && S.Enabled(v, t)
    requires var p := s.Pc(t); p.WalkRead? || p.WalkClear? || p.WalkRestart?
    ensures S.Step(v, t, call).(pending := {}) == S.Step(s, t, call).(pending := {})
  {
    var p := s.Pc(t);
    assert v.Pc(t) == p && v.Next(p.th) == s.Next(p.th);
  }

  lemma SemPostStep(s: S.State, v: S.State, t: Words.Tid, call: S.Call)
    requires v == s.(pending := v.pending) && S.Enabled(s, t) && S.Enabled(v, t)
    requires var p := s.Pc(t); p.TryRead? || p.TryCas? || p.PostRead? || p.PostCas?
    ensures S.Step(v, t, call).(pending := {}) == S.Step(s, t, call).(pending := {})
  {
    var p := s.Pc(t);
    assert v.Pc(t) == p && v.Status(p.k) == s.Status(p.k);
  }

  lemma SemView(s: S.State, p: set<Words.Tid>, t: Words.Tid, call: S.Call)
    requires s.Pc(t).WaitSuspend? ==> (t in s.pending <==> t in p)
    ensures var v := s.(pending := p);
      && (S.Enabled(v, t) <==> S.Enabled(s, t))
      && (S.Enabled(s, t) ==>
            && S.EventOf(v, t, call) == S.EventOf(s, t, call)
            && S.Step(v, t, call).(pending := {}) == S.Step(s, t, call).(pending := {}))
  {
    if S.Enabled(s, t) {
      SemEvent(s, s.(pending := p), t, call);
      SemStep(s, s.(pending := p), t, call);
    }
  }

  lemma SemPending(s: S.State, t: Words.Tid, call: S.Call, u: Words.Tid)
    requires S.Enabled(s, t)
    ensures var e := S.EventOf(s, t, call);
      && (u in S.Step(s, t, call).pending <==> e == S.Restarted(u) || (u in s.pending && e != S.Resumed(u)))
      && (e == S.Resumed(u) ==> u == t && s.Pc(t).WaitSuspend?)
  {
  }

  predicate LockSleeps(p: L.Pc) { p.LockSuspend? || p.CondSuspend? || p.TimedSleep? }

  predicate LifeSleeps(p: F.Pc) { p.CreateSuspend? || p.JoinSuspend? || p.ExitSuspend? }

  lemma LockParts(s: L.State, v: L.State, mv: L.Move)
    requires v == s.(pending := v.pending) && (LockSleeps(s.Pc(mv.t)) ==> (mv.t in s.pending <==> mv.t in v.pending))
    ensures L.Enabled(v, mv) <==> L.Enabled(s, mv)
    ensures L.Enabled(s, mv) ==> L.EventOf(v, mv) == L.EventOf(s, mv) && L.Target(v, mv) == L.Target(s, mv)
  {
  }

  lemma LockEffects(s: L.State, v: L.State, mv: L.Move)
    requires v == s.(pending := v.pending)
    ensures L.Spins(v, mv) == L.Spins(s, mv) && L.Conds(v, mv) == L.Conds(s, mv)
  {
    assert v.spin == s.spin && v.cond == s.cond && v.Pc(mv.t) == s.Pc(mv.t);
  }

  lemma Granted(s: L.State, p: set<L.Tid>, m: L.Mid, t: L.Tid)
    ensures L.Grant(s.(pending := p), m, t) == L.Grant(s, m, t).(pending := p)
  {
  }

  lemma Freed(s: L.State, p: set<L.Tid>, m: L.Mid, t: L.Tid)
    ensures L.FreeMutex(s.(pending := p), m, t) == L.FreeMutex(s, m, t).(pending := p)
  {
  }

  lemma LockMutexes(s: L.State, p: set<L.Tid>, mv: L.Move)
    ensures L.Mutexes(s.(pending := p), mv) == L.Mutexes(s, mv).(pending := p)
  {
    match s.Pc(mv.t)
    case LockBody(m) => Granted(s, p, m, mv.t);
    case TryBody(m) => Granted(s, p, m, mv.t);
    case UnlBody(m, _) => UnlockMutexes(s, p, mv);
    case _ =>
  }

  lemma UnlockMutexes(s: L.State, p: set<L.Tid>, mv: L.Move)
    requires s.Pc(mv.t).UnlBody?
    ensures L.Mutexes(s.(pending := p), mv) == L.Mutexes(s, mv).(pending := p)
  {
    var v, m := s.(pending := p), s.Pc(mv.t).m;
    assert v.Pc(mv.t) == s.Pc(mv.t) && v.Mu(m) == s.Mu(m) && v.Depth(m, mv.t) == s.Depth(m, mv.t);
    if !L.Inner(s.Mu(m)) { Freed(s, p, m, mv.t); }
  }

  lemma LockView(s: L.State, p: set<L.Tid>, mv: L.Move)
    requires LockSleeps(s.Pc(mv.t)) ==> (mv.t in s.pending <==> mv.t in p)
    ensures var v := s.(pending := p);
      && (L.Enabled(v, mv) <==> L.Enabled(s, mv))
      && (L.Enabled(s, mv) ==>
            && L.EventOf(v, mv) == L.EventOf(s, mv)
            && L.Step(v, mv).(pending := {}) == L.Step(s, mv).(pending := {}))
  {
    LockParts(s, s.(pending := p), mv);
    LockEffects(s, s.(pending := p), mv);
    LockMutexes(s, p, mv);
  }

  lemma LockPending(s: L.State, mv: L.Move, u: L.Tid)
    requires L.Enabled(s, mv)
    ensures var e := L.EventOf(s, mv);
      && (u in L.Step(s, mv).pending <==> (e.Restarted? && e.t == u) || (u in s.pending && e != L.Resumed(u)))
      && (e == L.Resumed(u) ==> u == mv.t && LockSleeps(s.Pc(u)))
  {
  }

  lemma ThreadParts(s: F.State, v: F.State, t: F.Tid, call: F.Call)
    requires v == s.(pending := v.pending) && (LifeSleeps(s.Pc(t)) ==> (t in s.pending <==> t in v.pending))
    ensures F.Enabled(v, F.Go(t, call)) <==> F.Enabled(s, F.Go(t, call))
    ensures F.Enabled(s, F.Go(t, call)) ==> F.EventOf(v, F.Go(t, call)) == F.EventOf(s, F.Go(t, call))
  {
  }

  lemma ThreadEffects(s: F.State, v: F.State, t: F.Tid, call: F.Call)
    requires v.pc == s.pc && v.desc == s.desc && v.pipe == s.pipe
    ensures F.Target(v, t, call) == F.Target(s, t, call) && F.Requests(v, t, call) == F.Requests(s, t, call)
  {
  }

  lemma ThreadWrites(s: F.State, v: F.State, t: F.Tid)
    requires v.pc == s.pc && v.desc == s.desc
    ensures F.Writes(v, t) == F.Writes(s, t)
  {
  }

  lemma ManagerParts(s: F.State, v: F.State, child: F.Tid, ok: bool)
    requires v == s.(pending := v.pending)
    ensures F.Enabled(v, F.Manage(child, ok)) <==> F.Enabled(s, F.Manage(child, ok))
    ensures F.Enabled(s, F.Manage(child, ok)) ==> F.EventOf(v, F.Manage(child, ok)) == F.EventOf(s, F.Manage(child, ok))
  {
  }

  lemma ManagerEffects(s: F.State, v: F.State, child: F.Tid, ok: bool)
    requires v == s.(pending := v.pending)
    ensures F.MgrTarget(v, child, ok) == F.MgrTarget(s, child, ok)
    ensures F.MgrRing(v) == F.MgrRing(s)
  {
  }

  lemma ManagerWrites(s: F.State, v: F.State, child: F.Tid, ok: bool)
    requires v.mgr == s.mgr && v.desc == s.desc && v.frees == s.frees
    ensures F.MgrWrites(v, child, ok) == F.MgrWrites(s, child, ok) && F.MgrFrees(v) == F.MgrFrees(s)
  {
  }

  lemma LifeView(s: F.State, p: set<F.Tid>, mv: F.Move)
    requires mv.Go? && LifeSleeps(s.Pc(mv.t)) ==> (mv.t in s.pending <==> mv.t in p)
    ensures var v := s.(pending := p);
      && (F.Enabled(v, mv) <==> F.Enabled(s, mv))
      && (F.Enabled(s, mv) ==>
            && F.EventOf(v, mv) == F.EventOf(s, mv)
            && F.Step(v, mv).(pending := {}) == F.Step(s, mv).(pending := {}))
  {
    var v := s.(pending := p);
    if mv.Go? {
      ThreadParts(s, v, mv.t, mv.call);
      ThreadEffects(s, v, mv.t, mv.call);
      ThreadWrites(s, v, mv.t);
    } else if mv.Manage? {
      ManagerParts(s, v, mv.child, mv.ok);
      ManagerEffects(s, v, mv.child, mv.ok);
      ManagerWrites(s, v, mv.child, mv.ok);
    }
  }

  lemma LifePending(s: F.State, mv: F.Move, u: F.Tid)
    requires F.Enabled(s, mv)
    ensures var e := F.EventOf(s, mv);
      && (u in F.Step(s, mv).pending <==> e == F.Restarted(u) || (u in s.pending && e != F.Resumed(u)))
      && (e == F.Resumed(u) ==> mv.Go? && u == mv.t && LifeSleeps(s.Pc(u)))
  {
  }
}
