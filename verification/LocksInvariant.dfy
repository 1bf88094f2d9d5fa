/** Where every waiting thread is: the invariant behind the guarantees about waiting,
    in runs in which no time-out races with a signal. */
module LocksInvariant {
  import opened Options
  import opened Seqs
  import opened Locks
  import opened LocksCore

  /** Where the outstanding wait of a thread is recorded. */
  datatype Place =
    | Nowhere           // not waiting
    | Queued(o: Obj)    // on a waiting queue
    | OwedBy(p: Tid)    // dequeued by p, its restart not sent yet
    | Woken             // restart pending

  function At(g: map<Tid, Place>, t: Tid): Place { if t in g then g[t] else Nowhere }

  /** The threads it has dequeued and still has to restart, in order. */
  function Owed(p: Pc): seq<Tid> {
    match p
    case UnlRel(_, _, q) => q
    case UnlWake(_, _, q) => q
    case SigRel(_, q) => q
    case SigWake(q) => q
    case _ => []
  }

  /** What its outstanding wait is on: from the enqueue to the end of the suspend. */
  function Waits(p: Pc): Option<Obj> {
    match p
    case LockRel(m, got) => if got then None else Some(M(m))
    case LockSuspend(m) => Some(M(m))
    case UnlAcq(_, k) => CondOf(k)
    case UnlBody(_, k) => CondOf(k)
    case UnlRel(_, k, _) => CondOf(k)
    case UnlWake(_, k, _) => CondOf(k)
    case CondRel(c, _, _) => Some(C(c))
    case CondSuspend(c, _) => Some(C(c))
    case TimedSleep(c, _) => Some(C(c))
    case TimedAcq(c, _, signaled) => if signaled then None else Some(C(c))
    case TimedCheck(c, _, signaled) => if signaled then None else Some(C(c))
    case _ => None
  }

  function CondOf(k: Cont): Option<Obj> {
    if k.Return? then None else Some(C(k.c))
  }

  ghost predicate QueueOk(s: State, g: map<Tid, Place>, o: Obj) {
    Distinct(s.Queue(o)) && forall x | x in s.Queue(o) :: At(g, x) == Queued(o)
  }

  ghost predicate OwedOk(s: State, g: map<Tid, Place>, p: Tid) {
    var q := Owed(s.Pc(p));
    Distinct(q) && forall x | x in q :: At(g, x) == OwedBy(p)
  }

  ghost predicate ThreadOk(s: State, g: map<Tid, Place>, t: Tid) {
    && (At(g, t) == Nowhere <==> Waits(s.Pc(t)) == None)
    && (At(g, t) == Woken <==> t in s.pending)
    && (At(g, t).Queued? ==> t in s.Queue(At(g, t).o) && Waits(s.Pc(t)) == Some(At(g, t).o))
    && (At(g, t).OwedBy? ==> t in Owed(s.Pc(At(g, t).p)))
  }

  ghost predicate Inv(s: State, g: map<Tid, Place>) {
    && (forall o :: QueueOk(s, g, o))
    && (forall p :: OwedOk(s, g, p))
    && (forall t :: ThreadOk(s, g, t))
  }

  /** A step of t that leaves queues, waits and restarts alone. */
  ghost predicate QuietMove(s: State, s': State, t: Tid) {
    && (forall o :: s'.Queue(o) == s.Queue(o))
    && s'.pending == s.pending && (forall u | u != t :: s'.Pc(u) == s.Pc(u))
    && Owed(s'.Pc(t)) == Owed(s.Pc(t)) && Waits(s'.Pc(t)) == Waits(s.Pc(t))
  }

  lemma QuietKeepsInv(s: State, g: map<Tid, Place>, s': State, t: Tid)
    requires Inv(s, g) && QuietMove(s, s', t)
    ensures Inv(s', g)
  {
    forall o ensures QueueOk(s', g, o) { assert QueueOk(s, g, o); }
    forall p ensures OwedOk(s', g, p) { assert OwedOk(s, g, p); }
    forall u ensures ThreadOk(s', g, u) { assert ThreadOk(s, g, u); }
  }

  /** Steps of lock, trylock and unlock that move no waiter, ... */
  lemma QuietLockStep(s: State, g: map<Tid, Place>, mv: Move)
    requires Inv(s, g) && Enabled(s, mv) && KindOk(s, s.Pc(mv.t))
    requires match s.Pc(mv.t)
             case Idle | LockAcq(_) | LockRel(_, _) | TryAcq(_) | TryBody(_) | TryRel(_) => true
             case LockBody(m) => Grants(s.Mu(m), mv.t)
             case _ => false
    ensures Inv(Step(s, mv), g)
  {
    QuietKeepsInv(s, g, Step(s, mv), mv.t);
  }

  lemma QuietUnlockStep(s: State, g: map<Tid, Place>, mv: Move)
    requires Inv(s, g) && Enabled(s, mv) && KindOk(s, s.Pc(mv.t))
    requires match s.Pc(mv.t)
             case UnlAcq(_, _) | UnlRel(_, _, _) => true
             case UnlBody(m, _) => Inner(s.Mu(m))
             case UnlWake(_, _, q) => q == []
             case _ => false
    ensures Inv(Step(s, mv), g)
  {
    QuietKeepsInv(s, g, Step(s, mv), mv.t);
  }

  /** ... of signal, and of the waits before the suspend, ... */
  lemma QuietCondStep(s: State, g: map<Tid, Place>, mv: Move)
    requires Inv(s, g) && Enabled(s, mv)
    requires match s.Pc(mv.t)
             case SigAcq(_, _) | SigRel(_, _) | CondAcq(_, _, _) | CondRel(_, _, _) => true
             case SigWake(q) => q == []
             case _ => false
    ensures Inv(Step(s, mv), g)
  {
    QuietKeepsInv(s, g, Step(s, mv), mv.t);
  }

  /** ... and of a timed wait after it. */
  lemma QuietTimedStep(s: State, g: map<Tid, Place>, mv: Move)
    requires Inv(s, g) && Enabled(s, mv)
    requires match s.Pc(mv.t)
             case TimedAcq(_, _, _) | TimedRel(_, _) => true
             case TimedCheck(_, _, signaled) => signaled
             case TimedSleep(_, _) => mv.t !in s.pending
             case _ => false
    ensures Inv(Step(s, mv), g)
  {
    if s.Pc(mv.t).TimedSleep? { assert s.pending - {mv.t} == s.pending; }
    QuietKeepsInv(s, g, Step(s, mv), mv.t);
  }

  /** t joins the queue of o. */
  ghost predicate Enqueues(s: State, s': State, t: Tid, o: Obj) {
    && Owed(s.Pc(t)) == [] == Owed(s'.Pc(t))
    && Waits(s.Pc(t)) == None && Waits(s'.Pc(t)) == Some(o)
    && s'.pending == s.pending && (forall u | u != t :: s'.Pc(u) == s.Pc(u))
    && (forall o' :: s'.Queue(o') == if o' == o then s.Queue(o) + [t] else s.Queue(o'))
  }

  lemma EnqueueKeepsInv(s: State, g: map<Tid, Place>, s': State, t: Tid, o: Obj)
    requires Inv(s, g) && Enqueues(s, s', t, o)
    ensures Inv(s', g[t := Queued(o)])
  {
    var g' := g[t := Queued(o)];
    assert ThreadOk(s, g, t) && QueueOk(s, g, o);
    DistinctAppend(s.Queue(o), t);
    forall o' ensures QueueOk(s', g', o') { assert QueueOk(s, g, o'); }
    forall p ensures OwedOk(s', g', p) { assert OwedOk(s, g, p); }
    forall u ensures ThreadOk(s', g', u) { assert ThreadOk(s, g, u); }
  }

  ghost function Claimed(g: map<Tid, Place>, q: seq<Tid>, t: Tid): map<Tid, Place> {
    map x | x in g.Keys + (set y | y in q) :: if x in q then OwedBy(t) else At(g, x)
  }

  lemma ClaimAt(g: map<Tid, Place>, q: seq<Tid>, t: Tid, x: Tid)
    ensures At(Claimed(g, q, t), x) == if x in q then OwedBy(t) else At(g, x)
  {
  }

  /** t takes the first n threads off the queue of o. */
  ghost predicate Claims(s: State, s': State, t: Tid, o: Obj, n: nat) {
    && n <= |s.Queue(o)|
    && Owed(s.Pc(t)) == [] && Owed(s'.Pc(t)) == s.Queue(o)[..n]
    && Waits(s'.Pc(t)) == Waits(s.Pc(t))
    && s'.pending == s.pending && (forall u | u != t :: s'.Pc(u) == s.Pc(u))
    && (forall o' :: s'.Queue(o') == if o' == o then s.Queue(o)[n..] else s.Queue(o'))
  }

  lemma ClaimKeepsInv(s: State, g: map<Tid, Place>, s': State, t: Tid, o: Obj, n: nat)
    requires Inv(s, g) && Claims(s, s', t, o, n)
    ensures Inv(s', Claimed(g, s.Queue(o)[..n], t))
  {
    ClaimQueues(s, g, s', t, o, n);
    ClaimOwed(s, g, s', t, o, n);
    ClaimThreads(s, g, s', t, o, n);
  }

  lemma ClaimQueues(s: State, g: map<Tid, Place>, s': State, t: Tid, o: Obj, n: nat)
    requires Inv(s, g) && Claims(s, s', t, o, n)
    ensures forall o' :: QueueOk(s', Claimed(g, s.Queue(o)[..n], t), o')
  {
    var q := s.Queue(o);
    var g' := Claimed(g, q[..n], t);
    assert QueueOk(s, g, o);
    DistinctSuffix(q, n);
    forall x | x in q[..n] ensures x !in q[n..] { DistinctSplit(q, n, x); }
    forall x ensures At(g', x) == if x in q[..n] then OwedBy(t) else At(g, x) { ClaimAt(g, q[..n], t, x); }
    forall o' ensures QueueOk(s', g', o') { assert QueueOk(s, g, o'); }
  }

  lemma ClaimOwed(s: State, g: map<Tid, Place>, s': State, t: Tid, o: Obj, n: nat)
    requires Inv(s, g) && Claims(s, s', t, o, n)
    ensures forall p :: OwedOk(s', Claimed(g, s.Queue(o)[..n], t), p)
  {
    var q := s.Queue(o);
    var g' := Claimed(g, q[..n], t);
    assert QueueOk(s, g, o);
    DistinctPrefix(q, n);
    forall x ensures At(g', x) == if x in q[..n] then OwedBy(t) else At(g, x) { ClaimAt(g, q[..n], t, x); }
    forall p ensures OwedOk(s', g', p) { assert OwedOk(s, g, p); }
  }

  lemma ClaimThreads(s: State, g: map<Tid, Place>, s': State, t: Tid, o: Obj, n: nat)
    requires Inv(s, g) && Claims(s, s', t, o, n)
    ensures forall u :: ThreadOk(s', Claimed(g, s.Queue(o)[..n], t), u)
  {
    var q := s.Queue(o);
    var g' := Claimed(g, q[..n], t);
    assert QueueOk(s, g, o);
    forall u ensures ThreadOk(s', g', u) {
      ClaimAt(g, q[..n], t, u);
      assert q == q[..n] + q[n..];
      assert ThreadOk(s, g, u);
    }
  }

  /** t restarts the first thread it owes a restart. */
  ghost predicate Wakes(s: State, s': State, t: Tid) {
    && Owed(s.Pc(t)) != [] && Owed(s'.Pc(t)) == Owed(s.Pc(t))[1..] && Waits(s'.Pc(t)) == Waits(s.Pc(t))
    && s'.pending == s.pending + {Owed(s.Pc(t))[0]}
    && (forall o :: s'.Queue(o) == s.Queue(o)) && (forall u | u != t :: s'.Pc(u) == s.Pc(u))
  }

  lemma WakeKeepsInv(s: State, g: map<Tid, Place>, s': State, t: Tid)
    requires Inv(s, g) && Wakes(s, s', t)
    ensures Owed(s.Pc(t))[0] !in s.pending && Inv(s', g[Owed(s.Pc(t))[0] := Woken])
  {
    var q := Owed(s.Pc(t));
    var g' := g[q[0] := Woken];
    assert OwedOk(s, g, t) && ThreadOk(s, g, q[0]);
    assert q == [q[0]] + q[1..];
    forall o ensures QueueOk(s', g', o) { assert QueueOk(s, g, o); }
    forall p ensures OwedOk(s', g', p) {
      assert OwedOk(s, g, p);
      forall x | x in Owed(s'.Pc(p)) ensures At(g', x) == OwedBy(p) { assert x in Owed(s.Pc(p)) && x != q[0]; }
    }
    forall u ensures ThreadOk(s', g', u) { assert ThreadOk(s, g, u); }
  }

  lemma RemoveOk(q: seq<Tid>, t: Tid)
    requires Distinct(q)
    ensures Distinct(Remove(q, t)) && forall x :: x in Remove(q, t) <==> x in q && x != t
  {
    if q != [] && q[0] != t {
      RemoveOk(q[1..], t);
      assert q == [q[0]] + q[1..];
    }
  }

  /** t stops waiting: its restart has arrived, or it leaves a queue itself. */
  ghost predicate Leaves(s: State, g: map<Tid, Place>, s': State, t: Tid) {
    && Owed(s.Pc(t)) == [] == Owed(s'.Pc(t)) && Waits(s'.Pc(t)) == None
    && (At(g, t) == Woken || At(g, t).Queued?)
    && s'.pending == s.pending - {t} && (forall u | u != t :: s'.Pc(u) == s.Pc(u))
    && (forall o :: s'.Queue(o) == if At(g, t) == Queued(o) then Remove(s.Queue(o), t) else s.Queue(o))
  }

  lemma LeaveKeepsInv(s: State, g: map<Tid, Place>, s': State, t: Tid)
    requires Inv(s, g) && Leaves(s, g, s', t)
    ensures Inv(s', g[t := Nowhere])
  {
    var g' := g[t := Nowhere];
    assert ThreadOk(s, g, t);
    forall o ensures QueueOk(s', g', o) { assert QueueOk(s, g, o); RemoveOk(s.Queue(o), t); }
    forall p ensures OwedOk(s', g', p) { assert OwedOk(s, g, p); }
    forall u ensures ThreadOk(s', g', u) {
      assert ThreadOk(s, g, u);
      if At(g, u).Queued? { assert QueueOk(s, g, At(g, u).o); RemoveOk(s.Queue(At(g, u).o), t); }
    }
  }

  lemma ResumeKeepsInv(s: State, g: map<Tid, Place>, mv: Move)
    requires Inv(s, g) && mv.t in s.pending
    requires s.Pc(mv.t).LockSuspend? || s.Pc(mv.t).CondSuspend? || s.Pc(mv.t).TimedSleep?
    ensures Inv(Step(s, mv), g[mv.t := Nowhere])
  {
    assert ThreadOk(s, g, mv.t);
    LeaveKeepsInv(s, g, Step(s, mv), mv.t);
  }

  /** A time-out that finds the waiter on the queue leaves no trace of the wait. */
  lemma WithdrawKeepsInv(s: State, g: map<Tid, Place>, mv: Move, c: Cid)
    requires Inv(s, g) && s.Pc(mv.t).TimedCheck? && s.Pc(mv.t).c == c && !s.Pc(mv.t).signaled && mv.t in s.Cond(c)
    ensures Inv(Step(s, mv), g[mv.t := Nowhere])
  {
    assert ThreadOk(s, g, mv.t) && QueueOk(s, g, C(c));
    assert s.pending - {mv.t} == s.pending;
    LeaveKeepsInv(s, g, Step(s, mv), mv.t);
  }

  ghost function NextPlaces(s: State, g: map<Tid, Place>, mv: Move): map<Tid, Place> {
    var t := mv.t;
    match s.Pc(t)
    case LockBody(m) => if Grants(s.Mu(m), t) then g else g[t := Queued(M(m))]
    case UnlBody(m, _) => if Inner(s.Mu(m)) then g else Claimed(g, s.Mu(m).queue[..Taken(s.Mu(m).queue, false)], t)
    case CondEnq(c, _, _) => g[t := Queued(C(c))]
    case SigBody(c, all) => Claimed(g, s.Cond(c)[..Taken(s.Cond(c), all)], t)
    case UnlWake(_, _, q) => if q == [] then g else g[q[0] := Woken]
    case SigWake(q) => if q == [] then g else g[q[0] := Woken]
    case LockSuspend(_) => g[t := Nowhere]
    case CondSuspend(_, _) => g[t := Nowhere]
    case TimedSleep(_, _) => if t in s.pending then g[t := Nowhere] else g
    case TimedCheck(_, _, signaled) => if signaled then g else g[t := Nowhere]
    case _ => g
  }

  lemma MutexStep(s: State, g: map<Tid, Place>, mv: Move)
    requires Inv(s, g) && Enabled(s, mv) && KindOk(s, s.Pc(mv.t))
    requires s.Pc(mv.t).LockBody? || s.Pc(mv.t).UnlBody?
    ensures Inv(Step(s, mv), NextPlaces(s, g, mv))
  {
    var t, s' := mv.t, Step(s, mv);
    match s.Pc(t)
    case LockBody(m) =>
      if Grants(s.Mu(m), t) { QuietLockStep(s, g, mv); } else { EnqueueKeepsInv(s, g, s', t, M(m)); }
    case UnlBody(m, _) =>
      if Inner(s.Mu(m)) { QuietUnlockStep(s, g, mv); }
      else { ClaimKeepsInv(s, g, s', t, M(m), Taken(s.Mu(m).queue, false)); }
  }

  lemma CondStep(s: State, g: map<Tid, Place>, mv: Move)
    requires Inv(s, g) && Enabled(s, mv)
    requires s.Pc(mv.t).CondEnq? || s.Pc(mv.t).SigBody?
    ensures Inv(Step(s, mv), NextPlaces(s, g, mv))
  {
    match s.Pc(mv.t)
    case CondEnq(c, _, _) => EnqueueKeepsInv(s, g, Step(s, mv), mv.t, C(c));
    case SigBody(c, all) => ClaimKeepsInv(s, g, Step(s, mv), mv.t, C(c), Taken(s.Cond(c), all));
  }

  lemma TimedStep(s: State, g: map<Tid, Place>, mv: Move)
    requires Inv(s, g) && Enabled(s, mv) && Clean(s, mv.t)
    requires s.Pc(mv.t).TimedSleep? || s.Pc(mv.t).TimedCheck? || s.Pc(mv.t).TimedAcq? || s.Pc(mv.t).TimedRel?
    ensures Inv(Step(s, mv), NextPlaces(s, g, mv))
  {
    match s.Pc(mv.t)
    case TimedSleep(_, _) => if mv.t in s.pending { ResumeKeepsInv(s, g, mv); } else { QuietTimedStep(s, g, mv); }
    case TimedCheck(c, _, signaled) =>
      if signaled { QuietTimedStep(s, g, mv); } else { WithdrawKeepsInv(s, g, mv, c); }
    case _ => QuietTimedStep(s, g, mv);
  }

  lemma WakeStep(s: State, g: map<Tid, Place>, mv: Move)
    requires Inv(s, g) && (s.Pc(mv.t).UnlWake? || s.Pc(mv.t).SigWake?)
    ensures Inv(Step(s, mv), NextPlaces(s, g, mv))
  {
    if s.Pc(mv.t).q != [] { WakeKeepsInv(s, g, Step(s, mv), mv.t); }
    else if s.Pc(mv.t).UnlWake? { QuietUnlockStep(s, g, mv); }
    else { QuietCondStep(s, g, mv); }
  }

  /** Every step of every thread keeps the invariant, time-outs that race with a
      signal excepted. */
  lemma StepKeepsInv(s: State, g: map<Tid, Place>, mv: Move)
    requires Inv(s, g) && Enabled(s, mv) && Clean(s, mv.t) && KindOk(s, s.Pc(mv.t))
    ensures Inv(Step(s, mv), NextPlaces(s, g, mv))
  {
    match s.Pc(mv.t)
    case LockBody(_) | UnlBody(_, _) => MutexStep(s, g, mv);
    case UnlWake(_, _, _) | SigWake(_) => WakeStep(s, g, mv);
    case UnlAcq(_, _) | UnlRel(_, _, _) => QuietUnlockStep(s, g, mv);
    case LockSuspend(_) | CondSuspend(_, _) => ResumeKeepsInv(s, g, mv);
    case Idle | LockAcq(_) | LockRel(_, _) | TryAcq(_) | TryBody(_) | TryRel(_) => QuietLockStep(s, g, mv);
    case TimedSleep(_, _) | TimedCheck(_, _, _) | TimedAcq(_, _, _) | TimedRel(_, _) => TimedStep(s, g, mv);
    case CondEnq(_, _, _) | SigBody(_, _) => CondStep(s, g, mv);
    case _ => QuietCondStep(s, g, mv);
  }

  lemma RunKeepsInv(s: State, ms: seq<Move>) returns (g: map<Tid, Place>)
    requires Initial(s) && Legal(s, ms) && CleanRun(s, ms)
    ensures Inv(Exec(s, ms), g)
    decreases |ms|
  {
    g := map[];
    if ms == [] {
      forall o ensures QueueOk(s, g, o) { }
    } else {
      var p, mv := Exec(s, ms[..|ms|-1]), ms[|ms|-1];
      g := RunKeepsInv(s, ms[..|ms|-1]);
      var h := RunKeepsCore(s, ms[..|ms|-1]);
      KindsAreOk(p, h, mv.t);
      StepKeepsInv(p, g, mv);
      g := NextPlaces(p, g, mv);
    }
  }
}
