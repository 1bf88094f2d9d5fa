/** The invariant behind joining, creation, reaping and the exit of the main
    thread. It holds for all clients: they may join and detach as they like. */
module LifecycleInvariant {
  import opened Options
  import opened Lifecycle

  /** The descriptor whose spinlock a thread, or the manager, holds. */
  function Crit(t: Tid, p: Pc): Option<Tid> {
    match p
    case ExitBody(_) => Some(t)
    case ExitRel(_) => Some(t)
    case JoinBody(th) => Some(th)
    case JoinFail(th) => Some(th)
    case JoinPark(th) => Some(th)
    case JoinTake(th) => Some(th)
    case JoinRel(th, _) => Some(th)
    case DetachBody(th) => Some(th)
    case DetachRel(th, _) => Some(th)
    case _ => None
  }

  function MgrCrit(m: Mgr): Option<Tid> {
    match m
    case ReapBody(th) => Some(th)
    case ReapRel(th, _) => Some(th)
    case FreeBody(th) => Some(th)
    case FreeRel(th) => Some(th)
    case _ => None
  }

  /** The other thread a call is about. */
  function Ref(p: Pc): Option<Tid> {
    match p
    case JoinAcq(th) => Some(th)
    case JoinBody(th) => Some(th)
    case JoinFail(th) => Some(th)
    case JoinPark(th) => Some(th)
    case JoinSuspend(th) => Some(th)
    case JoinReacq(th) => Some(th)
    case JoinTake(th) => Some(th)
    case JoinRel(th, _) => Some(th)
    case JoinSend(th, _) => Some(th)
    case DetachAcq(th) => Some(th)
    case DetachBody(th) => Some(th)
    case DetachRel(th, _) => Some(th)
    case DetachSend(th) => Some(th)
    case _ => None
  }

  predicate Terminated(p: Pc) {
    p.ExitRel? || p.ExitWake? || p.ExitSend? || p.ExitSuspend? || p.ExitEnd? || p.Dead?
  }

  /** The thread a joiner is suspended for, or about to be, ... */
  function Awaited(p: Pc): Option<Tid> {
    if p.JoinPark? || p.JoinSuspend? then Some(p.th) else None
  }

  /** ... the terminated thread it collects, and the value it carries away. */
  function Collected(p: Pc): Option<Tid> {
    if p.JoinReacq? || p.JoinTake? || p.JoinRel? || p.JoinSend? then Some(p.th) else None
  }

  function Carried(p: Pc): Option<Val> {
    if p.JoinRel? || p.JoinSend? then Some(p.v) else None
  }

  predicate Waits(p: Pc) {
    p.CreateSuspend? || p.JoinPark? || p.JoinSuspend? || p.ExitSuspend?
  }

  /** The thread that th, past its termination, still has to restart. */
  function Owed(p: Pc): Option<Tid> {
    if p.ExitRel? || p.ExitWake? then p.j else None
  }

  /** The thread whose create request the manager is working on. */
  function Serving(m: Mgr): Option<Tid> {
    match m
    case MkClone(t, _) => Some(t)
    case MkLink(t, _) => Some(t)
    case MkReply(t, _) => Some(t)
    case MkWake(t) => Some(t)
    case _ => None
  }

  predicate InReap(m: Mgr) {
    m.Reap? || m.ReapLink? || m.ReapAcq? || m.ReapBody? || m.ReapRel? || m.ReapFree? || m.ReapCheck?
  }

  /** The child the manager has waited for and not marked as exited yet. */
  function InHand(m: Mgr): Option<Tid> {
    if m.ReapLink? || m.ReapAcq? || m.ReapBody? then Some(m.th) else None
  }

  ghost predicate ProcOk(s: State, t: Tid) {
    && (s.Proc(t) == Absent ==> t !in s.pc && t !in s.desc && t !in s.frees && t !in s.pending)
    && (s.Pc(t) == Dead <==> s.Proc(t) == Zombie || s.Proc(t) == Reaped)
    && (t == MAIN ==> s.Proc(t) == Alive || s.Proc(t) == Zombie)
    && (Ref(s.Pc(t)).Some? ==> s.Proc(Ref(s.Pc(t)).value) != Absent)
    && (s.D(t).terminated <==> Terminated(s.Pc(t)))
    && (t in s.pending ==> Waits(s.Pc(t)))
    && (s.Pc(t).ExitSend? || s.Pc(t).ExitSuspend? ==> t == MAIN)
    && (s.D(t).exited <==> s.Proc(t) == Reaped && InHand(s.mgr) != Some(t))
    && (InHand(s.mgr) == Some(t) ==> s.Proc(t) == Reaped && t != MAIN)
  }

  ghost predicate SpinOk(s: State, t: Tid) {
    && (match s.D(t).spin
        case None => true
        case Some(Thread(u)) => Crit(u, s.Pc(u)) == Some(t)
        case Some(Manager) => MgrCrit(s.mgr) == Some(t) || s.D(t).exited)
    && (Crit(t, s.Pc(t)).Some? ==> s.D(Crit(t, s.Pc(t)).value).spin == Some(Thread(t)))
    && (MgrCrit(s.mgr) == Some(t) ==> s.D(t).spin == Some(Manager))
  }

  /** t as the target of joins, ... */
  ghost predicate TargetOk(s: State, t: Tid) {
    && (s.D(t).joining.Some? && !s.D(t).terminated ==>
          Awaited(s.Pc(s.D(t).joining.value)) == Some(t) && s.D(t).joining.value !in s.pending)
    && (Owed(s.Pc(t)).Some? ==>
          Awaited(s.Pc(Owed(s.Pc(t)).value)) == Some(t) && Owed(s.Pc(t)).value !in s.pending)
  }

  /** ... and t as a joiner. */
  ghost predicate JoinerOk(s: State, t: Tid) {
    && (Awaited(s.Pc(t)).Some? ==> JoinWaitOk(s, t, Awaited(s.Pc(t)).value))
    && (Collected(s.Pc(t)).Some? ==> s.D(Collected(s.Pc(t)).value).terminated)
    && (Carried(s.Pc(t)).Some? ==> Carried(s.Pc(t)) == Some(s.D(s.Pc(t).th).retval))
  }

  ghost predicate JoinWaitOk(s: State, t: Tid, th: Tid) {
    && s.D(th).joining == Some(t)
    && (s.D(th).terminated ==> t in s.pending || Owed(s.Pc(th)) == Some(t))
    && (t in s.pending ==> s.D(th).terminated)
  }

  ghost predicate Queued(s: State, t: Tid) {
    exists i :: 0 <= i < |s.pipe| && s.pipe[i].Create? && s.pipe[i].t == t
  }

  /** A create request is in the pipe, or being served, or answered. */
  ghost predicate CreatorOk(s: State, t: Tid) {
    && (s.Pc(t) == CreateSuspend ==> t in s.pending || Serving(s.mgr) == Some(t) || Queued(s, t))
    && (Serving(s.mgr) == Some(t) ==> s.Pc(t) == CreateSuspend && t !in s.pending)
  }

  ghost predicate PipeOk(s: State) {
    && (forall i | 0 <= i < |s.pipe| && s.pipe[i].Create? ::
          s.Pc(s.pipe[i].t) == CreateSuspend && s.pipe[i].t !in s.pending && Serving(s.mgr) != Some(s.pipe[i].t))
    && (forall i, j | 0 <= i < j < |s.pipe| && s.pipe[i].Create? && s.pipe[j].Create? :: s.pipe[i].t != s.pipe[j].t)
    && (forall i | 0 <= i < |s.pipe| && s.pipe[i].Free? :: s.Proc(s.pipe[i].th) != Absent)
    && (forall i | 0 <= i < |s.pipe| && s.pipe[i].MainExit? :: s.Pc(MAIN) == ExitSuspend && !s.mainExiting)
    && (forall i, j | 0 <= i < j < |s.pipe| :: !(s.pipe[i].MainExit? && s.pipe[j].MainExit?))
  }

  /** The live ring holds the threads that exist and have not been unlinked. */
  ghost predicate RingOk(s: State, t: Tid) {
    t in s.ring <==>
      || ((s.Proc(t) == Alive || s.Proc(t) == Zombie) && !(s.mgr.MkLink? && s.mgr.kid == t))
      || s.mgr == ReapLink(t)
  }

  ghost predicate MgrOk(s: State) {
    && (s.mgr.MkLink? ==> s.mgr.kid != MAIN && (s.Proc(s.mgr.kid) == Alive || s.Proc(s.mgr.kid) == Zombie))
    && (s.mgr.ReapRel? || s.mgr.ReapFree? || s.mgr.FreeAcq? || s.mgr.FreeBody? || s.mgr.FreeRel?
      ==> s.Proc(s.mgr.th) != Absent)
    && (s.mgr.ReapRel? || s.mgr.ReapFree? ==> s.Proc(s.mgr.th) == Reaped)
  }

  /** A dead child is on its way to being reaped. */
  ghost predicate ReapOk(s: State, t: Tid) {
    IsZombie(s, t) ==> s.signal || s.flag || InReap(s.mgr)
  }

  /** The main thread waits for the others: nobody forgets it, and it is released
      once, when the ring holds it alone. */
  ghost predicate MainOk(s: State) {
    && (s.Pc(MAIN) == ExitSuspend ==> MAIN in s.pending || s.mainExiting || MainExit in s.pipe)
    && (s.mainExiting ==> s.Pc(MAIN) == ExitSuspend || s.Pc(MAIN) == ExitEnd || s.Pc(MAIN) == Dead)
    && (s.Pc(MAIN) == ExitEnd || s.Pc(MAIN) == Dead || (s.Pc(MAIN) == ExitSuspend && MAIN in s.pending)
      <==> s.mgr == Gone)
    && (s.mgr == Gone ==> s.mainExiting && s.ring == {MAIN})
    && (s.mainExiting && s.ring == {MAIN} ==>
          s.mgr.ReapAcq? || s.mgr.ReapBody? || s.mgr.ReapRel? || s.mgr.ReapFree? || s.mgr.ReapCheck? || s.mgr == Gone)
  }

  ghost predicate Inv(s: State) {
    && (forall t :: ProcOk(s, t))
    && (forall t :: SpinOk(s, t))
    && (forall t :: TargetOk(s, t))
    && (forall t :: JoinerOk(s, t))
    && (forall t :: CreatorOk(s, t))
    && PipeOk(s)
    && (forall t :: RingOk(s, t))
    && MgrOk(s)
    && (forall t :: ReapOk(s, t))
    && MainOk(s)
  }

  /** The fields of a descriptor other than the spinlock and the detached mark. */
  function Core(d: Desc): Desc { d.(spin := None, detached := false) }

  ghost predicate SpinMoves(s: State, s': State, a: Agent, o: Option<Tid>, o': Option<Tid>) {
    || (o == o' && forall u :: s'.D(u).spin == s.D(u).spin)
    || (o == None && o'.Some? && s.D(o'.value).spin == None
        && forall u :: s'.D(u).spin == if u == o'.value then Some(a) else s.D(u).spin)
    || (o.Some? && o' == None && forall u :: s'.D(u).spin == if u == o.value then None else s.D(u).spin)
  }

  lemma ThreadSpin(s: State, s': State, t: Tid)
    requires Inv(s) && SpinMoves(s, s', Thread(t), Crit(t, s.Pc(t)), Crit(t, s'.Pc(t)))
    requires s'.mgr == s.mgr && (forall u | u != t :: s'.Pc(u) == s.Pc(u))
      && forall u :: s'.D(u).exited == s.D(u).exited
    ensures forall u :: SpinOk(s', u)
  {
    assert SpinOk(s, t);
    forall u ensures SpinOk(s', u) { assert SpinOk(s, u); }
  }

  lemma ManagerSpin(s: State, s': State)
    requires Inv(s) && SpinMoves(s, s', Manager, MgrCrit(s.mgr), MgrCrit(s'.mgr))
    requires (forall u :: s'.Pc(u) == s.Pc(u)) && forall u :: s.D(u).exited ==> s'.D(u).exited
    ensures forall u :: SpinOk(s', u)
  {
    if MgrCrit(s.mgr).Some? { assert SpinOk(s, MgrCrit(s.mgr).value); }
    forall u ensures SpinOk(s', u) { assert SpinOk(s, u); }
  }

  /** Nothing but spinlocks, detached marks, the place of t and a request to free. */
  ghost predicate LocalMove(s: State, s': State, t: Tid) {
    && s'.(pc := s.pc, desc := s.desc, pipe := s.pipe) == s
    && (forall u | u != t :: s'.Pc(u) == s.Pc(u))
    && (forall u :: Core(s'.D(u)) == Core(s.D(u)))
    && (forall u | s.Proc(u) == Absent :: (u in s'.pc ==> u in s.pc) && (u in s'.desc ==> u in s.desc))
    && (s'.pipe == s.pipe || exists th :: s.Proc(th) != Absent && s'.pipe == s.pipe + [Free(th)])
    && SpinMoves(s, s', Thread(t), Crit(t, s.Pc(t)), Crit(t, s'.Pc(t)))
    && PhaseMove(s, t, s'.Pc(t))
  }

  /** t may go on to p as far as the others are concerned. */
  ghost predicate PhaseMove(s: State, t: Tid, p: Pc) {
    && SamePhase(s.Pc(t), p) && (t == MAIN ==> s.Pc(t) != ExitEnd && p != ExitEnd)
    && (Ref(p).Some? ==> s.Proc(Ref(p).value) != Absent) && (p.ExitSend? ==> t == MAIN)
  }

  /** p and q agree on everything other threads rely on. */
  predicate SamePhase(p: Pc, q: Pc) {
    && Waits(p) == Waits(q) && Terminated(p) == Terminated(q) && Owed(p) == Owed(q)
    && p.Dead? == q.Dead? == false && p.ExitSuspend? == q.ExitSuspend? == false
    && p.CreateSuspend? == q.CreateSuspend? == false
    && Awaited(p) == Awaited(q)
  }

  lemma AppendFree(s: State, s': State)
    requires PipeOk(s) && (s.Pc(MAIN) == ExitSuspend ==> s'.Pc(MAIN) == ExitSuspend) && s'.mainExiting == s.mainExiting
    requires exists th :: s'.Proc(th) != Absent && s'.pipe == s.pipe + [Free(th)]
    requires forall u | s.Pc(u) == CreateSuspend :: s'.Pc(u) == CreateSuspend
    requires s'.pending == s.pending && s'.mgr == s.mgr && s'.proc == s.proc
    ensures PipeOk(s')
    ensures forall u :: Queued(s, u) ==> Queued(s', u)
    ensures MainExit in s.pipe ==> MainExit in s'.pipe
  {
    var th :| s'.Proc(th) != Absent && s'.pipe == s.pipe + [Free(th)];
    Appended(s, s', Free(th));
  }

  lemma LocalKeepsInv(s: State, s': State, t: Tid)
    requires Inv(s) && LocalMove(s, s', t) && JoinerOk(s', t)
    ensures Inv(s')
  {
    ThreadSpin(s, s', t);
    LocalKeepsProcs(s, s', t);
    LocalKeepsPipe(s, s', t);
    assert forall u :: Core(s'.D(u)) == Core(s.D(u));
    JoinsKept(s, s', t);
    WorldKept(s, s');
    LocalKeepsMain(s, s', t);
  }

  lemma LocalKeepsProcs(s: State, s': State, t: Tid)
    requires Inv(s) && LocalMove(s, s', t)
    ensures forall u :: ProcOk(s', u)
  {
    forall u ensures ProcOk(s', u) { assert ProcOk(s, u) && Core(s'.D(u)) == Core(s.D(u)); }
  }

  lemma LocalKeepsPipe(s: State, s': State, t: Tid)
    requires Inv(s) && LocalMove(s, s', t)
    ensures PipeOk(s') && forall u :: CreatorOk(s', u)
  {
    assert s'.Pc(t) == CreateSuspend <==> s.Pc(t) == CreateSuspend;
    if s'.pipe != s.pipe { AppendFree(s, s'); } else { SamePipe(s, s'); }
    forall u ensures CreatorOk(s', u) { assert CreatorOk(s, u); }
  }

  lemma LocalKeepsMain(s: State, s': State, t: Tid)
    requires Inv(s) && LocalMove(s, s', t)
    ensures MainOk(s')
  {
    assert MainExit in s.pipe ==> MainExit in s'.pipe;
  }

  lemma SamePipe(s: State, s': State)
    requires PipeOk(s) && s'.pipe == s.pipe && (s.Pc(MAIN) == ExitSuspend ==> s'.Pc(MAIN) == ExitSuspend)
      && s'.mainExiting == s.mainExiting
    requires forall u | s.Pc(u) == CreateSuspend :: s'.Pc(u) == CreateSuspend
    requires s'.pending == s.pending && s'.mgr == s.mgr && s'.proc == s.proc
    ensures PipeOk(s')
    ensures forall u :: Queued(s, u) ==> Queued(s', u)
  {
    forall u | Queued(s, u) ensures Queued(s', u) { }
  }

  /** Joins are undisturbed by a step of t that neither starts nor ends a wait for
      a thread and leaves what joins read in the descriptors alone. */
  lemma JoinsKept(s: State, s': State, t: Tid)
    requires Inv(s) && (forall u | u != t :: s'.Pc(u) == s.Pc(u)) && JoinerOk(s', t)
    requires Owed(s'.Pc(t)) == Owed(s.Pc(t)) && Awaited(s'.Pc(t)) == Awaited(s.Pc(t))
    requires forall u :: s'.D(u).joining == s.D(u).joining && s'.D(u).terminated == s.D(u).terminated
    requires forall u | s.D(u).terminated :: s'.D(u).retval == s.D(u).retval
    requires forall u | Awaited(s.Pc(u)).Some? :: u in s'.pending <==> u in s.pending
    ensures (forall u :: TargetOk(s', u)) && (forall u :: JoinerOk(s', u))
  {
    forall u ensures TargetOk(s', u) { assert TargetOk(s, u); }
    forall u ensures JoinerOk(s', u) { assert JoinerOk(s, u); }
  }

  /** t moves on; no shared memory changes. */
  lemma MoveOn(s: State, t: Tid, p: Pc)
    requires Inv(s) && s.Proc(t) == Alive && PhaseMove(s, t, p) && Crit(t, p) == Crit(t, s.Pc(t))
    requires JoinerOk(s.(pc := s.pc[t := p]), t)
    ensures Inv(s.(pc := s.pc[t := p]))
  {
    LocalKeepsInv(s, s.(pc := s.pc[t := p]), t);
  }

  /** t takes the spinlock of x. */
  lemma TakeSpin(s: State, t: Tid, p: Pc, x: Tid)
    requires Inv(s) && s.Proc(t) == Alive && PhaseMove(s, t, p) && s.Proc(x) != Absent
    requires Crit(t, s.Pc(t)) == None && Crit(t, p) == Some(x) && s.D(x).spin == None
    requires JoinerOk(s.Acquire(x, Thread(t)).(pc := s.pc[t := p]), t)
    ensures Inv(s.Acquire(x, Thread(t)).(pc := s.pc[t := p]))
  {
    WriteIsLocal(s, t, p, x, s.D(x).(spin := Some(Thread(t))));
    LocalKeepsInv(s, s.Acquire(x, Thread(t)).(pc := s.pc[t := p]), t);
  }

  /** t goes on and writes at most the spinlock and the detached mark of x. */
  lemma WriteIsLocal(s: State, t: Tid, p: Pc, x: Tid, d: Desc)
    requires s.Proc(t) == Alive && PhaseMove(s, t, p) && s.Proc(x) != Absent && Core(d) == Core(s.D(x))
    requires SpinWrite(s.D(x).spin, d.spin, t, x, Crit(t, s.Pc(t)), Crit(t, p))
    ensures LocalMove(s, s.Set(x, d).(pc := s.pc[t := p]), t)
  {
    var s' := s.Set(x, d).(pc := s.pc[t := p]);
    WriteSpins(s, s', t, x, d, Crit(t, s.Pc(t)), Crit(t, p));
    assert s'.Pc(t) == p && s'.pipe == s.pipe;
    assert forall u :: Core(s'.D(u)) == Core(s.D(u));
  }

  /** t leaves the spinlock of x alone, takes it or gives it back. */
  predicate SpinWrite(was: Option<Agent>, now: Option<Agent>, t: Tid, x: Tid, o: Option<Tid>, o': Option<Tid>) {
    || (o' == o && now == was)
    || (o == None && o' == Some(x) && was == None && now == Some(Thread(t)))
    || (o == Some(x) && o' == None && now == None)
  }

  lemma WriteSpins(s: State, s': State, t: Tid, x: Tid, d: Desc, o: Option<Tid>, o': Option<Tid>)
    requires s'.desc == s.desc[x := d] && SpinWrite(s.D(x).spin, d.spin, t, x, o, o')
    ensures SpinMoves(s, s', Thread(t), o, o')
  {
    assert forall u :: s'.D(u) == if u == x then d else s.D(u);
  }

  /** t gives back the spinlock of x. */
  lemma GiveSpin(s: State, t: Tid, p: Pc, x: Tid)
    requires Inv(s) && s.Proc(t) == Alive && PhaseMove(s, t, p) && s.Proc(x) != Absent
    requires Crit(t, s.Pc(t)) == Some(x) && Crit(t, p) == None
    requires JoinerOk(s.Release(x).(pc := s.pc[t := p]), t)
    ensures Inv(s.Release(x).(pc := s.pc[t := p]))
  {
    WriteIsLocal(s, t, p, x, s.D(x).(spin := None));
    LocalKeepsInv(s, s.Release(x).(pc := s.pc[t := p]), t);
  }

  /** t marks x as detached. */
  lemma MarkDetached(s: State, t: Tid, p: Pc, x: Tid)
    requires Inv(s) && s.Proc(t) == Alive && PhaseMove(s, t, p) && s.Proc(x) != Absent
    requires Crit(t, p) == Crit(t, s.Pc(t))
    requires JoinerOk(s.Set(x, s.D(x).(detached := true)).(pc := s.pc[t := p]), t)
    ensures Inv(s.Set(x, s.D(x).(detached := true)).(pc := s.pc[t := p]))
  {
    WriteIsLocal(s, t, p, x, s.D(x).(detached := true));
    LocalKeepsInv(s, s.Set(x, s.D(x).(detached := true)).(pc := s.pc[t := p]), t);
  }

  /** t asks the manager to free th. */
  lemma MoveSend(s: State, t: Tid, p: Pc, th: Tid)
    requires Inv(s) && s.Proc(t) == Alive && SamePhase(s.Pc(t), p) && Crit(t, p) == Crit(t, s.Pc(t))
    requires s.Proc(th) != Absent && p == Running && !Terminated(s.Pc(t))
    ensures Inv(s.Send(Free(th)).(pc := s.pc[t := p]))
  {
    LocalKeepsInv(s, s.Send(Free(th)).(pc := s.pc[t := p]), t);
  }

  /** The steps that touch at most a spinlock, a detached mark or the pipe. */
  predicate IsLocal(s: State, t: Tid, call: Call) {
    match s.Pc(t)
    case Running => !call.Start?
    case ExitWake(j) => j == None
    case JoinBody(th) => s.D(th).detached || s.D(th).joining.Some? || s.D(th).terminated
    case CreateSuspend | ExitBody(_) | ExitSend | ExitSuspend | ExitEnd | Dead | JoinSuspend(_) => false
    case _ => true
  }

  /** What the local steps do. */
  lemma TakingStep(s: State, t: Tid, call: Call)
    requires Enabled(s, Go(t, call)) && (s.Pc(t).JoinAcq? || s.Pc(t).JoinReacq? || s.Pc(t).DetachAcq?)
    ensures Step(s, Go(t, call)) == s.Acquire(s.Pc(t).th, Thread(t)).(pc := s.pc[t := Target(s, t, call)])
  {
  }

  lemma GivingStep(s: State, t: Tid, call: Call)
    requires Enabled(s, Go(t, call))
    requires s.Pc(t).JoinFail? || s.Pc(t).JoinPark? || s.Pc(t).JoinRel? || s.Pc(t).DetachRel?
    ensures Step(s, Go(t, call)) == s.Release(s.Pc(t).th).(pc := s.pc[t := Target(s, t, call)])
  {
  }

  lemma MovingStep(s: State, t: Tid, call: Call)
    requires Enabled(s, Go(t, call)) && IsLocal(s, t, call)
    requires s.Pc(t).Running? || s.Pc(t).CreateRead? || s.Pc(t).ExitWake? || s.Pc(t).JoinBody? || s.Pc(t).JoinTake?
    ensures Step(s, Go(t, call)) == s.(pc := s.pc[t := Target(s, t, call)])
  {
  }

  lemma CallKeepsInv(s: State, t: Tid, call: Call)
    requires Inv(s) && Enabled(s, Go(t, call)) && IsLocal(s, t, call)
    requires s.Pc(t).Running? || s.Pc(t).CreateRead? || s.Pc(t).ExitWake?
    ensures Inv(Step(s, Go(t, call)))
  {
    MovingStep(s, t, call);
    assert ProcOk(s, t);
    MoveOn(s, t, Target(s, t, call));
  }

  lemma ExitSpinKeepsInv(s: State, t: Tid, call: Call)
    requires Inv(s) && Enabled(s, Go(t, call)) && (s.Pc(t).ExitAcq? || s.Pc(t).ExitRel?)
    ensures Inv(Step(s, Go(t, call)))
  {
    var p := Target(s, t, call);
    assert ProcOk(s, t);
    if s.Pc(t).ExitAcq? { TakeSpin(s, t, p, t); } else { GiveSpin(s, t, p, t); }
  }

  lemma JoinKeepsInv(s: State, t: Tid, call: Call)
    requires Inv(s) && Enabled(s, Go(t, call)) && IsLocal(s, t, call) && (s.Pc(t).JoinAcq? || s.Pc(t).JoinBody?)
    ensures Inv(Step(s, Go(t, call)))
  {
    var p, th := Target(s, t, call), s.Pc(t).th;
    if s.Pc(t).JoinAcq? { TakingStep(s, t, call); } else { MovingStep(s, t, call); }
    assert ProcOk(s, t) && JoinerOk(s, t);
    if s.Pc(t).JoinAcq? { TakeSpin(s, t, p, th); } else { MoveOn(s, t, p); }
  }

  lemma JoinReleaseKeepsInv(s: State, t: Tid, call: Call)
    requires Inv(s) && Enabled(s, Go(t, call)) && (s.Pc(t).JoinFail? || s.Pc(t).JoinPark?)
    ensures Inv(Step(s, Go(t, call)))
  {
    GivingStep(s, t, call);
    assert ProcOk(s, t) && JoinerOk(s, t);
    GiveSpin(s, t, Target(s, t, call), s.Pc(t).th);
  }

  lemma JoinEndKeepsInv(s: State, t: Tid, call: Call)
    requires Inv(s) && Enabled(s, Go(t, call))
    requires s.Pc(t).JoinReacq? || s.Pc(t).JoinTake?
    ensures Inv(Step(s, Go(t, call)))
  {
    var p, th := Target(s, t, call), s.Pc(t).th;
    if s.Pc(t).JoinReacq? { TakingStep(s, t, call); } else { MovingStep(s, t, call); }
    assert ProcOk(s, t) && JoinerOk(s, t);
    if s.Pc(t).JoinReacq? { TakeSpin(s, t, p, th); } else { MoveOn(s, t, p); }
  }

  lemma JoinReturnKeepsInv(s: State, t: Tid, call: Call)
    requires Inv(s) && Enabled(s, Go(t, call)) && (s.Pc(t).JoinRel? || s.Pc(t).JoinSend?)
    ensures Inv(Step(s, Go(t, call)))
  {
    var p, th := Target(s, t, call), s.Pc(t).th;
    assert ProcOk(s, t) && JoinerOk(s, t);
    if s.Pc(t).JoinRel? {
      GivingStep(s, t, call);
      GiveSpin(s, t, p, th);
    } else {
      MoveSend(s, t, p, th);
    }
  }

  lemma DetachKeepsInv(s: State, t: Tid, call: Call)
    requires Inv(s) && Enabled(s, Go(t, call)) && (s.Pc(t).DetachAcq? || s.Pc(t).DetachRel?)
    ensures Inv(Step(s, Go(t, call)))
  {
    var p, th := Target(s, t, call), s.Pc(t).th;
    if s.Pc(t).DetachAcq? { TakingStep(s, t, call); } else { GivingStep(s, t, call); }
    assert ProcOk(s, t);
    if s.Pc(t).DetachAcq? { TakeSpin(s, t, p, th); } else { GiveSpin(s, t, p, th); }
  }

  lemma DetachSendKeepsInv(s: State, t: Tid, call: Call)
    requires Inv(s) && Enabled(s, Go(t, call)) && s.Pc(t).DetachSend?
    ensures Inv(Step(s, Go(t, call)))
  {
    assert ProcOk(s, t);
    MoveSend(s, t, Target(s, t, call), s.Pc(t).th);
  }

  lemma DetachMarksKeepsInv(s: State, t: Tid, call: Call)
    requires Inv(s) && Enabled(s, Go(t, call)) && s.Pc(t).DetachBody?
    ensures Inv(Step(s, Go(t, call)))
  {
    var p, th := Target(s, t, call), s.Pc(t).th;
    assert ProcOk(s, t);
    DetachMarkStep(s, t, call);
    if s.D(th).joining.Some? { MoveOn(s, t, p); } else { MarkDetached(s, t, p, th); }
  }

  lemma DetachMarkStep(s: State, t: Tid, call: Call)
    requires Enabled(s, Go(t, call)) && s.Pc(t).DetachBody?
    ensures var p, th := Target(s, t, call), s.Pc(t).th;
      Step(s, Go(t, call)) ==
        if s.D(th).joining.Some? then s.(pc := s.pc[t := p])
        else s.Set(th, s.D(th).(detached := true)).(pc := s.pc[t := p])
  {
  }

  lemma ProcsKept(s: State, s': State, t: Tid)
    requires Inv(s) && s'.proc == s.proc && s'.mgr == s.mgr && s'.frees == s.frees && ProcOk(s', t)
    requires forall u | u != t :: s'.Pc(u) == s.Pc(u) && s'.D(u).terminated == s.D(u).terminated
    requires forall u :: s'.D(u).exited == s.D(u).exited
    requires forall u | s.Proc(u) == Absent :: (u in s'.pc ==> u in s.pc) && (u in s'.desc ==> u in s.desc)
    requires forall u | u != t && u in s'.pending :: u in s.pending || (s.Proc(u) != Absent && Waits(s.Pc(u)))
    ensures forall u :: ProcOk(s', u)
  {
    forall u ensures ProcOk(s', u) { assert ProcOk(s, u); }
  }

  /** What only the manager, births and deaths change. */
  lemma WorldKept(s: State, s': State)
    requires Inv(s) && s'.proc == s.proc && s'.ring == s.ring && s'.mgr == s.mgr && s'.signal == s.signal
      && s'.flag == s.flag
    ensures (forall u :: RingOk(s', u)) && (forall u :: ReapOk(s', u)) && MgrOk(s')
  {
    forall u ensures RingOk(s', u) { assert RingOk(s, u); }
    forall u ensures ReapOk(s', u) { assert ReapOk(s, u); }
  }

  /** The requests of the other threads, when t itself has none in the pipe. */
  lemma PipeKept(s: State, s': State, t: Tid)
    requires Inv(s) && s'.pipe == s.pipe && s'.mgr == s.mgr && s'.mainExiting == s.mainExiting && s'.proc == s.proc
    requires s'.Pc(t) != CreateSuspend && (s.Pc(t) == CreateSuspend ==> t in s.pending)
    requires s.Pc(MAIN) == ExitSuspend ==> s'.Pc(MAIN) == ExitSuspend
    requires forall u | u != t ::
      s'.Pc(u) == s.Pc(u) && (s.Pc(u) == CreateSuspend ==> (u in s'.pending <==> u in s.pending))
    ensures PipeOk(s') && forall u :: CreatorOk(s', u)
  {
    assert CreatorOk(s, t);
    forall u ensures CreatorOk(s', u) { assert CreatorOk(s, u); assert Queued(s, u) ==> Queued(s', u); }
  }

  lemma MainKept(s: State, s': State, t: Tid)
    requires Inv(s) && s'.mgr == s.mgr && s'.mainExiting == s.mainExiting && s'.ring == s.ring
    requires MainExit in s.pipe ==> MainExit in s'.pipe
    requires forall u | u != t :: s'.Pc(u) == s.Pc(u)
    requires t == MAIN ==> !s.Pc(t).ExitSuspend? && !s.Pc(t).ExitEnd? && !s.Pc(t).Dead?
                           && !s'.Pc(t).ExitSuspend? && !s'.Pc(t).ExitEnd? && !s'.Pc(t).Dead?
    requires s.Pc(MAIN) == ExitSuspend ==> (MAIN in s'.pending <==> MAIN in s.pending)
    ensures MainOk(s')
  {
  }

  /** A step of t that changes nothing but its place, descriptors, the pipe and signals,
      and what others rely on only where it may. */
  ghost predicate ThreadMove(s: State, s': State, t: Tid) {
    && s' == s.(pc := s'.pc, desc := s'.desc, pipe := s'.pipe, pending := s'.pending)
    && (forall u | u != t :: s'.Pc(u) == s.Pc(u) && s'.D(u).terminated == s.D(u).terminated)
    && (forall u :: s'.D(u).exited == s.D(u).exited)
    && (forall u | s.Proc(u) == Absent :: (u in s'.pc ==> u in s.pc) && (u in s'.desc ==> u in s.desc))
    && SpinMoves(s, s', Thread(t), Crit(t, s.Pc(t)), Crit(t, s'.Pc(t)))
    && (MainExit in s.pipe ==> MainExit in s'.pipe)
    && (t == MAIN ==> !Leaving(s.Pc(t)) && !Leaving(s'.Pc(t)))
    && (s.Pc(MAIN) == ExitSuspend ==> (MAIN in s'.pending <==> MAIN in s.pending))
  }

  predicate Leaving(p: Pc) { p.ExitSuspend? || p.ExitEnd? || p.Dead? }

  lemma ThreadMoveKeepsInv(s: State, s': State, t: Tid)
    requires Inv(s) && ThreadMove(s, s', t) && ProcOk(s', t)
    requires forall u | u != t && u in s'.pending :: u in s.pending || (s.Proc(u) != Absent && Waits(s.Pc(u)))
    requires (forall u :: TargetOk(s', u)) && (forall u :: JoinerOk(s', u))
    requires PipeOk(s') && forall u :: CreatorOk(s', u)
    ensures Inv(s')
  {
    ThreadSpin(s, s', t);
    WorldKept(s, s');
    MainKept(s, s', t);
    ProcsKept(s, s', t);
  }

  /** pthread_create: the request goes into the pipe. */
  lemma RequestKeepsInv(s: State, t: Tid, det: bool)
    requires Inv(s) && s.Proc(t) == Alive && s.Pc(t) == Running
    ensures Inv(s.Send(Create(t, det)).(pc := s.pc[t := CreateSuspend]))
  {
    var s' := s.Send(Create(t, det)).(pc := s.pc[t := CreateSuspend]);
    assert ProcOk(s, t);
    JoinsKept(s, s', t);
    RequestQueued(s, s', t, det);
    ThreadMoveKeepsInv(s, s', t);
  }

  lemma RequestQueued(s: State, s': State, t: Tid, det: bool)
    requires Inv(s) && s.Proc(t) == Alive && s.Pc(t) == Running
    requires s' == s.Send(Create(t, det)).(pc := s.pc[t := CreateSuspend])
    ensures PipeOk(s') && forall u :: CreatorOk(s', u)
  {
    assert ProcOk(s, t) && CreatorOk(s, t);
    RequestInPipe(s, s', t, det);
    RequestCreators(s, s', t, det);
  }

  lemma RequestInPipe(s: State, s': State, t: Tid, det: bool)
    requires PipeOk(s) && s.Pc(t) == Running && t !in s.pending && Serving(s.mgr) != Some(t)
    requires s' == s.Send(Create(t, det)).(pc := s.pc[t := CreateSuspend])
    ensures PipeOk(s')
  {
    assert forall i | 0 <= i < |s.pipe| && s.pipe[i].Create? :: s.pipe[i].t != t;
    assert s'.pipe[|s.pipe|] == Create(t, det);
  }

  lemma RequestCreators(s: State, s': State, t: Tid, det: bool)
    requires (forall u :: CreatorOk(s, u)) && s.Pc(t) == Running
    requires s' == s.Send(Create(t, det)).(pc := s.pc[t := CreateSuspend])
    ensures forall u :: CreatorOk(s', u)
  {
    assert CreatorOk(s, t);
    assert s'.pipe[|s.pipe|] == Create(t, det);
    Appended(s, s', Create(t, det));
    forall u ensures CreatorOk(s', u) { assert CreatorOk(s, u); }
  }

  /** The suspend of create or join returns. */
  lemma ResumeKeepsInv(s: State, t: Tid, p: Pc)
    requires Inv(s) && s.Proc(t) == Alive && t in s.pending
    requires (s.Pc(t) == CreateSuspend && p == CreateRead) || (s.Pc(t).JoinSuspend? && p == JoinReacq(s.Pc(t).th))
    ensures Inv(s.(pending := s.pending - {t}, pc := s.pc[t := p]))
  {
    var s' := s.(pending := s.pending - {t}, pc := s.pc[t := p]);
    assert ProcOk(s, t) && JoinerOk(s, t);
    PipeKept(s, s', t);
    ResumeJoins(s, s', t, p);
    ResumeMove(s, s', t, p);
    ThreadMoveKeepsInv(s, s', t);
  }

  lemma ResumeMove(s: State, s': State, t: Tid, p: Pc)
    requires s.Proc(t) == Alive && s' == s.(pending := s.pending - {t}, pc := s.pc[t := p])
    requires (s.Pc(t) == CreateSuspend && p == CreateRead) || (s.Pc(t).JoinSuspend? && p == JoinReacq(s.Pc(t).th))
    ensures ThreadMove(s, s', t)
  {
    assert s'.Pc(t) == p;
  }

  lemma ResumeJoins(s: State, s': State, t: Tid, p: Pc)
    requires ProcOk(s, t) && (forall u :: TargetOk(s, u)) && (forall u :: JoinerOk(s, u))
    requires t in s.pending && s' == s.(pending := s.pending - {t}, pc := s.pc[t := p])
    requires (s.Pc(t) == CreateSuspend && p == CreateRead) || (s.Pc(t).JoinSuspend? && p == JoinReacq(s.Pc(t).th))
    ensures (forall u :: TargetOk(s', u)) && (forall u :: JoinerOk(s', u))
  {
    assert JoinerOk(s, t);
    forall u ensures TargetOk(s', u) { assert TargetOk(s, u); }
    forall u ensures JoinerOk(s', u) { assert JoinerOk(s, u); }
  }

  /** pthread_exit stores the value and takes over the joiner. */
  lemma TerminateKeepsInv(s: State, t: Tid, v: Val)
    requires Inv(s) && s.Proc(t) == Alive && s.Pc(t) == ExitBody(v)
    ensures Inv(s.Set(t, s.D(t).(retval := v, terminated := true)).(pc := s.pc[t := ExitRel(s.D(t).joining)]))
  {
    var s' := s.Set(t, s.D(t).(retval := v, terminated := true)).(pc := s.pc[t := ExitRel(s.D(t).joining)]);
    assert ProcOk(s, t) && TargetOk(s, t);
    PipeKept(s, s', t);
    TerminateJoins(s, s', t, v);
    TerminateMove(s, s', t, v);
    ThreadMoveKeepsInv(s, s', t);
  }

  lemma TerminateMove(s: State, s': State, t: Tid, v: Val)
    requires s.Proc(t) == Alive && s.Pc(t) == ExitBody(v)
    requires s' == s.Set(t, s.D(t).(retval := v, terminated := true)).(pc := s.pc[t := ExitRel(s.D(t).joining)])
    ensures ThreadMove(s, s', t)
  {
    assert s'.Pc(t) == ExitRel(s.D(t).joining);
    assert forall u :: s'.D(u) == if u == t then s.D(u).(retval := v, terminated := true) else s.D(u);
  }

  lemma TerminateJoins(s: State, s': State, t: Tid, v: Val)
    requires ProcOk(s, t) && (forall u :: TargetOk(s, u)) && (forall u :: JoinerOk(s, u)) && s.Pc(t) == ExitBody(v)
    requires s' == s.Set(t, s.D(t).(retval := v, terminated := true)).(pc := s.pc[t := ExitRel(s.D(t).joining)])
    ensures (forall u :: TargetOk(s', u)) && (forall u :: JoinerOk(s', u))
  {
    assert TargetOk(s, t);
    forall u ensures TargetOk(s', u) { assert TargetOk(s, u); }
    forall u ensures JoinerOk(s', u) { assert JoinerOk(s, u); }
  }

  /** ... and restarts it. */
  lemma WakeJoinerKeepsInv(s: State, t: Tid, j: Tid, p: Pc)
    requires Inv(s) && s.Proc(t) == Alive && s.Pc(t) == ExitWake(Some(j))
      && p == if t == MAIN then ExitSend else ExitEnd
    ensures j !in s.pending && Inv(s.Restart(j).(pc := s.pc[t := p]))
  {
    var s' := s.Restart(j).(pc := s.pc[t := p]);
    assert ProcOk(s, t) && TargetOk(s, t) && ProcOk(s, j);
    WakePlaces(s, s', t, j, p);
    PipeKept(s, s', t);
    WakeJoins(s, s', t, j, p);
    ThreadMoveKeepsInv(s, s', t);
  }

  lemma WakePlaces(s: State, s': State, t: Tid, j: Tid, p: Pc)
    requires ProcOk(s, t) && TargetOk(s, t) && ProcOk(s, j) && s.Proc(t) == Alive && s.Pc(t) == ExitWake(Some(j))
    requires p == (if t == MAIN then ExitSend else ExitEnd) && s' == s.Restart(j).(pc := s.pc[t := p])
    ensures j !in s.pending && Waits(s.Pc(j)) && s.Proc(j) != Absent && s.Pc(j) != CreateSuspend
    ensures ProcOk(s', t) && ThreadMove(s, s', t)
  {
    WakeMove(s, s', t, j, p);
  }

  lemma WakeMove(s: State, s': State, t: Tid, j: Tid, p: Pc)
    requires s.Proc(t) == Alive && s.Pc(t) == ExitWake(Some(j)) && p == if t == MAIN then ExitSend else ExitEnd
    requires s' == s.Restart(j).(pc := s.pc[t := p]) && Awaited(s.Pc(j)).Some?
    ensures ThreadMove(s, s', t)
  {
    assert s'.Pc(t) == p;
  }

  lemma WakeJoins(s: State, s': State, t: Tid, j: Tid, p: Pc)
    requires ProcOk(s, t) && (forall u :: TargetOk(s, u)) && (forall u :: JoinerOk(s, u))
    requires s.Pc(t) == ExitWake(Some(j)) && p == if t == MAIN then ExitSend else ExitEnd
    requires s' == s.Restart(j).(pc := s.pc[t := p])
    ensures (forall u :: TargetOk(s', u)) && (forall u :: JoinerOk(s', u))
  {
    assert TargetOk(s, t) && JoinerOk(s, j);
    forall u ensures TargetOk(s', u) { assert TargetOk(s, u); }
    forall u ensures JoinerOk(s', u) { assert JoinerOk(s, u); }
  }

  /** pthread_join registers the joiner of a running thread. */
  lemma RegisterKeepsInv(s: State, t: Tid, th: Tid)
    requires Inv(s) && s.Proc(t) == Alive && s.Pc(t) == JoinBody(th)
    requires !s.D(th).detached && s.D(th).joining == None && !s.D(th).terminated
    ensures Inv(s.Set(th, s.D(th).(joining := Some(t))).(pc := s.pc[t := JoinPark(th)]))
  {
    var s' := s.Set(th, s.D(th).(joining := Some(t))).(pc := s.pc[t := JoinPark(th)]);
    assert ProcOk(s, t);
    PipeKept(s, s', t);
    RegisterJoins(s, s', t, th);
    RegisterMove(s, s', t, th);
    ThreadMoveKeepsInv(s, s', t);
  }

  lemma RegisterMove(s: State, s': State, t: Tid, th: Tid)
    requires s.Proc(t) == Alive && s.Proc(th) != Absent && s.Pc(t) == JoinBody(th)
    requires s' == s.Set(th, s.D(th).(joining := Some(t))).(pc := s.pc[t := JoinPark(th)])
    ensures ThreadMove(s, s', t)
  {
    assert s'.Pc(t) == JoinPark(th);
    assert forall u :: s'.D(u) == if u == th then s.D(u).(joining := Some(t)) else s.D(u);
  }

  lemma RegisterJoins(s: State, s': State, t: Tid, th: Tid)
    requires ProcOk(s, t) && (forall u :: TargetOk(s, u)) && (forall u :: JoinerOk(s, u))
    requires s.Pc(t) == JoinBody(th) && s.D(th).joining == None && !s.D(th).terminated
    requires s' == s.Set(th, s.D(th).(joining := Some(t))).(pc := s.pc[t := JoinPark(th)])
    ensures (forall u :: TargetOk(s', u)) && (forall u :: JoinerOk(s', u))
  {
    forall u ensures TargetOk(s', u) { assert TargetOk(s, u); }
    forall u ensures JoinerOk(s', u) { assert JoinerOk(s, u); }
  }

  /** The main thread tells the manager that it waits for the others. */
  lemma MainRequestKeepsInv(s: State)
    requires Inv(s) && s.Proc(MAIN) == Alive && s.Pc(MAIN) == ExitSend
    ensures Inv(s.Send(MainExit).(pc := s.pc[MAIN := ExitSuspend]))
  {
    var s' := s.Send(MainExit).(pc := s.pc[MAIN := ExitSuspend]);
    assert ProcOk(s, MAIN);
    ThreadSpin(s, s', MAIN);
    WorldKept(s, s');
    ProcsKept(s, s', MAIN);
    JoinsKept(s, s', MAIN);
    MainRequestQueued(s, s');
  }

  lemma MainRequestQueued(s: State, s': State)
    requires Inv(s) && s.Pc(MAIN) == ExitSend && s' == s.Send(MainExit).(pc := s.pc[MAIN := ExitSuspend])
    ensures PipeOk(s') && MainOk(s') && forall u :: CreatorOk(s', u)
  {
    assert CreatorOk(s, MAIN) && ProcOk(s, MAIN);
    MainRequestPipe(s, s');
    Appended(s, s', MainExit);
    forall u ensures CreatorOk(s', u) { assert CreatorOk(s, u); }
  }

  lemma MainRequestPipe(s: State, s': State)
    requires PipeOk(s) && s.Pc(MAIN) == ExitSend && !s.mainExiting
    requires s' == s.Send(MainExit).(pc := s.pc[MAIN := ExitSuspend])
    ensures PipeOk(s') && MainExit in s'.pipe
  {
    assert MainExit !in s.pipe && s'.pipe[|s.pipe|] == MainExit;
  }

  lemma Appended(s: State, s': State, r: Request)
    requires s'.pipe == s.pipe + [r]
    ensures forall u | Queued(s, u) :: Queued(s', u)
  {
    forall u | Queued(s, u) ensures Queued(s', u) {
      var i :| 0 <= i < |s.pipe| && s.pipe[i].Create? && s.pipe[i].t == u;
      assert s'.pipe[i] == s.pipe[i];
    }
  }

  lemma MainResumeKeepsInv(s: State)
    requires Inv(s) && s.Proc(MAIN) == Alive && s.Pc(MAIN) == ExitSuspend && MAIN in s.pending
    ensures Inv(s.(pending := s.pending - {MAIN}, pc := s.pc[MAIN := ExitEnd]))
  {
    var s' := s.(pending := s.pending - {MAIN}, pc := s.pc[MAIN := ExitEnd]);
    assert ProcOk(s, MAIN);
    ThreadSpin(s, s', MAIN);
    WorldKept(s, s');
    forall u ensures ProcOk(s', u) { assert ProcOk(s, u); }
    JoinsKept(s, s', MAIN);
    forall u ensures CreatorOk(s', u) { assert CreatorOk(s, u); assert Queued(s, u) ==> Queued(s', u); }
  }

  /** The process ends and its parent, the manager, gets a signal. */
  lemma DieKeepsInv(s: State, t: Tid)
    requires Inv(s) && s.Proc(t) == Alive && s.Pc(t) == ExitEnd
    ensures Inv(s.(proc := s.proc[t := Zombie], signal := s.signal || t != MAIN, pc := s.pc[t := Dead]))
  {
    var s' := s.(proc := s.proc[t := Zombie], signal := s.signal || t != MAIN, pc := s.pc[t := Dead]);
    assert ProcOk(s, t);
    ThreadSpin(s, s', t);
    JoinsKept(s, s', t);
    DieWorld(s, s', t);
    DieCreators(s, s', t);
  }

  lemma DieCreators(s: State, s': State, t: Tid)
    requires (forall u :: CreatorOk(s, u)) && PipeOk(s) && s.Proc(t) == Alive && s.Pc(t) == ExitEnd
    requires s' == s.(proc := s.proc[t := Zombie], signal := s.signal || t != MAIN, pc := s.pc[t := Dead])
    ensures PipeOk(s') && forall u :: CreatorOk(s', u)
  {
    assert CreatorOk(s, t);
    forall u ensures CreatorOk(s', u) { assert CreatorOk(s, u); assert Queued(s, u) ==> Queued(s', u); }
  }

  lemma DieWorld(s: State, s': State, t: Tid)
    requires Inv(s) && s.Proc(t) == Alive && s.Pc(t) == ExitEnd
    requires s' == s.(proc := s.proc[t := Zombie], signal := s.signal || t != MAIN, pc := s.pc[t := Dead])
    ensures (forall u :: ProcOk(s', u)) && (forall u :: RingOk(s', u)) && (forall u :: ReapOk(s', u))
  {
    assert ProcOk(s, t);
    forall u ensures ProcOk(s', u) { assert ProcOk(s, u); }
    forall u ensures RingOk(s', u) { assert RingOk(s, u); }
    forall u ensures ReapOk(s', u) { assert ReapOk(s, u); }
  }

  /** Reading a request that is not a create request of u keeps u's in the pipe. */
  lemma Popped(s: State, s': State)
    requires s.pipe != [] && s'.pipe == s.pipe[1..]
    ensures forall u | Queued(s, u) :: Queued(s', u) || (s.pipe[0].Create? && s.pipe[0].t == u)
    ensures MainExit in s.pipe && s.pipe[0] != MainExit ==> MainExit in s'.pipe
  {
    forall u | Queued(s, u) && !(s.pipe[0].Create? && s.pipe[0].t == u) ensures Queued(s', u) {
      var i :| 0 <= i < |s.pipe| && s.pipe[i].Create? && s.pipe[i].t == u;
      assert s'.pipe[i-1] == s.pipe[i];
    }
    assert s.pipe == [s.pipe[0]] + s'.pipe;
  }

  /** From here the manager goes on to check whether the main thread is alone. */
  predicate WillCheck(m: Mgr) {
    m.ReapAcq? || m.ReapBody? || m.ReapRel? || m.ReapFree? || m.ReapCheck?
  }

  /** The manager goes from m to m' without taking up or putting down a thread. */
  predicate SameWork(m: Mgr, m': Mgr) {
    && Serving(m) == Serving(m') && InHand(m) == InHand(m')
    && !m.MkLink? && !m'.MkLink? && !m.ReapLink? && !m'.ReapLink? && m != Gone && m' != Gone
  }

  /** It moves, and touches at most a spinlock, a detached mark, the count of frees,
      its flag, or a request to free. */
  ghost predicate MgrLocal(s: State, s': State) {
    && s'.(mgr := s.mgr, desc := s.desc, frees := s.frees, pipe := s.pipe, flag := s.flag) == s
    && (forall u :: Core(s'.D(u)) == Core(s.D(u)))
    && (forall u | s.Proc(u) == Absent :: (u in s'.desc ==> u in s.desc) && (u in s'.frees ==> u in s.frees))
    && (s'.pipe == s.pipe || (s.pipe != [] && s.pipe[0].Free? && s'.pipe == s.pipe[1..]))
    && SameWork(s.mgr, s'.mgr) && MgrOk(s')
    && (s.flag || InReap(s.mgr) ==> s'.flag || InReap(s'.mgr) || forall t | t in s.proc :: !IsZombie(s, t))
    && (WillCheck(s.mgr) ==> WillCheck(s'.mgr) || !(s.mainExiting && s.ring == {MAIN}))
  }

  /** Steps of the manager that leave processes and places alone. */
  lemma MgrKeepsProcs(s: State, s': State)
    requires (forall u :: ProcOk(s, u)) && s'.proc == s.proc && s'.pc == s.pc && s'.frees == s.frees
    requires InHand(s'.mgr) == InHand(s.mgr)
    requires forall u :: s'.D(u).terminated == s.D(u).terminated && s'.D(u).exited == s.D(u).exited
    requires forall u | s.Proc(u) == Absent && u in s'.desc :: u in s.desc
    requires forall u | u in s'.pending :: u in s.pending || (s.Proc(u) != Absent && Waits(s.Pc(u)))
    ensures forall u :: ProcOk(s', u)
  {
    forall u ensures ProcOk(s', u) { assert ProcOk(s, u); }
  }

  lemma MgrKeepsRing(s: State, s': State)
    requires (forall u :: RingOk(s, u)) && s'.proc == s.proc && s'.ring == s.ring
    requires !s.mgr.MkLink? && !s'.mgr.MkLink? && !s.mgr.ReapLink? && !s'.mgr.ReapLink?
    ensures forall u :: RingOk(s', u)
  {
    forall u ensures RingOk(s', u) { assert RingOk(s, u); }
  }

  lemma MgrKeepsReaps(s: State, s': State)
    requires (forall u :: ReapOk(s, u)) && s'.proc == s.proc
    requires s.signal || s.flag || InReap(s.mgr) ==> s'.signal || s'.flag || InReap(s'.mgr)
    ensures forall u :: ReapOk(s', u)
  {
    forall u ensures ReapOk(s', u) { assert ReapOk(s, u); }
  }

  lemma MgrKeepsCreators(s: State, s': State)
    requires (forall u :: CreatorOk(s, u)) && s'.pipe == s.pipe && s'.pc == s.pc
    requires Serving(s'.mgr) == Serving(s.mgr)
    requires forall u | s.Pc(u) == CreateSuspend :: u in s'.pending <==> u in s.pending
    ensures forall u :: CreatorOk(s', u)
  {
    forall u ensures CreatorOk(s', u) { assert CreatorOk(s, u); assert Queued(s, u) ==> Queued(s', u); }
  }

  lemma MgrKeepsJoins(s: State, s': State)
    requires Inv(s) && forall u :: s'.Pc(u) == s.Pc(u)
    requires forall u :: s'.D(u).joining == s.D(u).joining && s'.D(u).terminated == s.D(u).terminated
    requires forall u | s.D(u).terminated :: s'.D(u).retval == s.D(u).retval
    requires forall u | Awaited(s.Pc(u)).Some? :: u in s'.pending <==> u in s.pending
    ensures (forall u :: TargetOk(s', u)) && (forall u :: JoinerOk(s', u))
  {
    forall u ensures TargetOk(s', u) { assert TargetOk(s, u); }
    forall u ensures JoinerOk(s', u) { assert JoinerOk(s, u); }
  }

  lemma MgrLocalKeepsInv(s: State, s': State)
    requires Inv(s) && MgrLocal(s, s') && forall u :: SpinOk(s', u)
    ensures Inv(s')
  {
    assert forall u :: Core(s'.D(u)) == Core(s.D(u));
    MgrKeepsJoins(s, s');
    MgrLocalProcs(s, s');
    MgrLocalPipe(s, s');
    forall u ensures RingOk(s', u) { assert RingOk(s, u); }
    forall u ensures ReapOk(s', u) { assert ReapOk(s, u); }
  }

  lemma MgrLocalProcs(s: State, s': State)
    requires Inv(s) && MgrLocal(s, s')
    ensures forall u :: ProcOk(s', u)
  {
    forall u ensures ProcOk(s', u) { assert ProcOk(s, u) && Core(s'.D(u)) == Core(s.D(u)); }
  }

  lemma MgrLocalPipe(s: State, s': State)
    requires Inv(s) && MgrLocal(s, s')
    ensures PipeOk(s') && (forall u :: CreatorOk(s', u)) && MainOk(s')
  {
    if s'.pipe != s.pipe { Popped(s, s'); } else { SameQueued(s, s'); }
    MgrLocalMain(s, s');
    MgrLocalCreators(s, s');
  }

  lemma SameQueued(s: State, s': State)
    requires s'.pipe == s.pipe
    ensures forall u | Queued(s, u) :: Queued(s', u)
  {
  }

  lemma MgrLocalMain(s: State, s': State)
    requires MainOk(s) && MgrLocal(s, s') && (MainExit in s.pipe ==> MainExit in s'.pipe)
    ensures MainOk(s')
  {
  }

  lemma MgrLocalCreators(s: State, s': State)
    requires PipeOk(s) && (forall u :: CreatorOk(s, u)) && MgrLocal(s, s')
    requires forall u | Queued(s, u) :: Queued(s', u)
    ensures PipeOk(s') && forall u :: CreatorOk(s', u)
  {
    forall u ensures CreatorOk(s', u) { assert CreatorOk(s, u); }
  }

  /** The manager goes on without touching a descriptor. */
  lemma MgrOn(s: State, s': State)
    requires Inv(s) && MgrLocal(s, s') && s'.desc == s.desc && MgrCrit(s.mgr) == None == MgrCrit(s'.mgr)
    ensures Inv(s')
  {
    ManagerSpin(s, s');
    MgrLocalKeepsInv(s, s');
  }

  /** Server loop: nothing to read, a request to free, or no more children. */
  lemma ServeKeepsInv(s: State, child: Tid, ok: bool)
    requires Inv(s) && Enabled(s, Manage(child, ok))
    requires s.mgr.Loop? || (s.mgr.Serve? && (!ok || s.pipe == [] || s.pipe[0].Free?)) || (s.mgr.Reap? && !ok)
    ensures Inv(Step(s, Manage(child, ok)))
  {
    ServeIsLocal(s, child, ok);
    MgrOn(s, Step(s, Manage(child, ok)));
  }

  lemma ServeIsLocal(s: State, child: Tid, ok: bool)
    requires PipeOk(s) && MgrOk(s) && MainOk(s) && Enabled(s, Manage(child, ok))
    requires s.mgr.Loop? || (s.mgr.Serve? && (!ok || s.pipe == [] || s.pipe[0].Free?)) || (s.mgr.Reap? && !ok)
    ensures var s' := Step(s, Manage(child, ok));
      MgrLocal(s, s') && s'.desc == s.desc && MgrCrit(s.mgr) == None == MgrCrit(s'.mgr)
  {
  }

  lemma MgrOnKeepsInv(s: State, child: Tid, ok: bool)
    requires Inv(s) && Enabled(s, Manage(child, ok))
    requires s.mgr.ReapFree? || (s.mgr.ReapCheck? && !(s.mainExiting && s.ring == {MAIN})) || (s.mgr.MkClone? && !ok)
    ensures Inv(Step(s, Manage(child, ok)))
  {
    OnIsLocal(s, child, ok);
    MgrOn(s, Step(s, Manage(child, ok)));
  }

  lemma OnIsLocal(s: State, child: Tid, ok: bool)
    requires MgrOk(s) && Enabled(s, Manage(child, ok))
    requires s.mgr.ReapFree? || (s.mgr.ReapCheck? && !(s.mainExiting && s.ring == {MAIN})) || (s.mgr.MkClone? && !ok)
    ensures var s' := Step(s, Manage(child, ok));
      MgrLocal(s, s') && s'.desc == s.desc && MgrCrit(s.mgr) == None == MgrCrit(s'.mgr)
  {
  }

  lemma MgrTakes(s: State, th: Tid, m: Mgr)
    requires Inv(s) && s.Proc(th) != Absent && s.D(th).spin == None
    requires (s.mgr == ReapAcq(th) && m == ReapBody(th)) || (s.mgr == FreeAcq(th) && m == FreeBody(th))
    ensures Inv(s.Acquire(th, Manager).(mgr := m))
  {
    var s' := s.Acquire(th, Manager).(mgr := m);
    MgrTakesLocal(s, s', th, m);
    ManagerSpin(s, s');
    MgrLocalKeepsInv(s, s');
  }

  lemma MgrTakesLocal(s: State, s': State, th: Tid, m: Mgr)
    requires MgrOk(s) && s.Proc(th) != Absent && s.D(th).spin == None && s' == s.Acquire(th, Manager).(mgr := m)
    requires (s.mgr == ReapAcq(th) && m == ReapBody(th)) || (s.mgr == FreeAcq(th) && m == FreeBody(th))
    ensures MgrLocal(s, s') && SpinMoves(s, s', Manager, MgrCrit(s.mgr), MgrCrit(m))
  {
  }

  lemma MgrGives(s: State, th: Tid, m: Mgr)
    requires Inv(s) && s.Proc(th) != Absent && MgrCrit(s.mgr) == Some(th) && MgrCrit(m) == None
    requires (s.mgr.ReapRel? && (m == ReapFree(th) || m == ReapCheck)) || (s.mgr == FreeRel(th) && m == Loop)
    ensures Inv(s.Release(th).(mgr := m))
  {
    var s' := s.Release(th).(mgr := m);
    MgrGivesLocal(s, s', th, m);
    ManagerSpin(s, s');
    MgrLocalKeepsInv(s, s');
  }

  lemma MgrGivesLocal(s: State, s': State, th: Tid, m: Mgr)
    requires MgrOk(s) && s.Proc(th) != Absent && MgrCrit(s.mgr) == Some(th) && MgrCrit(m) == None
    requires (s.mgr.ReapRel? && (m == ReapFree(th) || m == ReapCheck)) || (s.mgr == FreeRel(th) && m == Loop)
    requires s' == s.Release(th).(mgr := m) && (WillCheck(s.mgr) ==> MgrOk(s'))
    ensures MgrLocal(s, s') && SpinMoves(s, s', Manager, MgrCrit(s.mgr), MgrCrit(m))
  {
  }

  lemma MgrSpinKeepsInv(s: State, child: Tid, ok: bool)
    requires Inv(s) && Enabled(s, Manage(child, ok))
      && (s.mgr.ReapAcq? || s.mgr.ReapRel? || s.mgr.FreeAcq? || s.mgr.FreeRel?)
    ensures Inv(Step(s, Manage(child, ok)))
  {
    var th, m := s.mgr.th, MgrTarget(s, child, ok);
    assert ProcOk(s, th);
    MgrSpinStep(s, child, ok);
    if s.mgr.ReapAcq? || s.mgr.FreeAcq? { MgrTakes(s, th, m); } else { MgrGives(s, th, m); }
  }

  lemma MgrSpinStep(s: State, child: Tid, ok: bool)
    requires s.mgr.ReapAcq? || s.mgr.ReapRel? || s.mgr.FreeAcq? || s.mgr.FreeRel?
    requires Enabled(s, Manage(child, ok))
    ensures var th, m := s.mgr.th, MgrTarget(s, child, ok);
      Step(s, Manage(child, ok)) ==
        if s.mgr.ReapAcq? || s.mgr.FreeAcq? then s.Acquire(th, Manager).(mgr := m) else s.Release(th).(mgr := m)
  {
  }

  /** A free request for an exited thread: it is freed with its spinlock held. */
  lemma FreeExitedKeepsInv(s: State, th: Tid)
    requires Inv(s) && s.mgr == FreeBody(th) && s.D(th).exited
    ensures Inv(s.FreeThread(th).(mgr := Loop))
  {
    FreeExitedSpin(s, th);
    assert ProcOk(s, th);
    FreeExitedLocal(s, th);
    MgrLocalKeepsInv(s, s.FreeThread(th).(mgr := Loop));
  }

  lemma FreeExitedSpin(s: State, th: Tid)
    requires (forall u :: SpinOk(s, u)) && s.mgr == FreeBody(th) && s.D(th).exited
    ensures forall u :: SpinOk(s.FreeThread(th).(mgr := Loop), u)
  {
    forall u ensures SpinOk(s.FreeThread(th).(mgr := Loop), u) { assert SpinOk(s, u); }
  }

  lemma FreeExitedLocal(s: State, th: Tid)
    requires s.mgr == FreeBody(th) && s.Proc(th) != Absent
    ensures MgrLocal(s, s.FreeThread(th).(mgr := Loop))
  {
  }

  /** Otherwise it is marked, to be freed when it is reaped. */
  lemma FreeLaterKeepsInv(s: State, th: Tid)
    requires Inv(s) && s.mgr == FreeBody(th) && !s.D(th).exited
    ensures Inv(s.Set(th, s.D(th).(detached := true)).(mgr := FreeRel(th)))
  {
    var s' := s.Set(th, s.D(th).(detached := true)).(mgr := FreeRel(th));
    FreeLaterLocal(s, s', th);
    ManagerSpin(s, s');
    MgrLocalKeepsInv(s, s');
  }

  lemma FreeLaterLocal(s: State, s': State, th: Tid)
    requires MgrOk(s) && s.mgr == FreeBody(th)
    requires s' == s.Set(th, s.D(th).(detached := true)).(mgr := FreeRel(th))
    ensures MgrLocal(s, s') && SpinMoves(s, s', Manager, MgrCrit(s.mgr), MgrCrit(s'.mgr))
  {
  }

  lemma FreeStep(s: State, child: Tid, ok: bool)
    requires s.mgr.FreeBody?
    ensures var th := s.mgr.th;
      Step(s, Manage(child, ok)) ==
        if s.D(th).exited then s.FreeThread(th).(mgr := Loop)
        else s.Set(th, s.D(th).(detached := true)).(mgr := FreeRel(th))
  {
  }

  lemma FreeRequestKeepsInv(s: State, child: Tid, ok: bool)
    requires Inv(s) && s.mgr.FreeBody?
    ensures Inv(Step(s, Manage(child, ok)))
  {
    var th := s.mgr.th;
    FreeStep(s, child, ok);
    if s.D(th).exited { FreeExitedKeepsInv(s, th); } else { FreeLaterKeepsInv(s, th); }
  }

  lemma ServeCreateKeepsInv(s: State, t: Tid, det: bool)
    requires Inv(s) && s.mgr == Serve && s.pipe != [] && s.pipe[0] == Create(t, det)
    ensures Inv(s.(pipe := s.pipe[1..], mgr := MkClone(t, det)))
  {
    var s' := s.(pipe := s.pipe[1..], mgr := MkClone(t, det));
    ManagerSpin(s, s');
    MgrKeepsJoins(s, s');
    ServeCreatePipe(s, s', t, det);
    MgrKeepsProcs(s, s');
    MgrKeepsRing(s, s');
    MgrKeepsReaps(s, s');
  }

  lemma ServeCreatePipe(s: State, s': State, t: Tid, det: bool)
    requires PipeOk(s) && (forall u :: CreatorOk(s, u)) && MainOk(s)
    requires s.mgr == Serve && s.pipe != [] && s.pipe[0] == Create(t, det)
      && s' == s.(pipe := s.pipe[1..], mgr := MkClone(t, det))
    ensures PipeOk(s') && MainOk(s') && forall u :: CreatorOk(s', u)
  {
    Popped(s, s');
    forall u ensures CreatorOk(s', u) { assert CreatorOk(s, u); }
  }

  /** The main thread announces its exit: it is released at once if it is alone, ... */
  lemma ServeMainKeepsInv(s: State)
    requires Inv(s) && s.mgr == Serve && s.pipe != [] && s.pipe[0] == MainExit && s.ring == {MAIN}
    ensures MAIN !in s.pending
    ensures Inv(s.(pipe := s.pipe[1..], mainExiting := true, pending := s.pending + {MAIN}, mgr := Gone))
  {
    var s' := s.(pipe := s.pipe[1..], mainExiting := true, pending := s.pending + {MAIN}, mgr := Gone);
    assert ProcOk(s, MAIN);
    ManagerSpin(s, s');
    MgrKeepsJoins(s, s');
    MgrKeepsProcs(s, s');
    Popped(s, s');
    forall u ensures CreatorOk(s', u) { assert CreatorOk(s, u); }
    MgrKeepsRing(s, s');
    NoneToReap(s, s');
  }

  /** ... and otherwise remembered. */
  lemma NoteMainKeepsInv(s: State)
    requires Inv(s) && s.mgr == Serve && s.pipe != [] && s.pipe[0] == MainExit && s.ring != {MAIN}
    ensures Inv(s.(pipe := s.pipe[1..], mainExiting := true, mgr := Loop))
  {
    var s' := s.(pipe := s.pipe[1..], mainExiting := true, mgr := Loop);
    assert ProcOk(s, MAIN);
    ManagerSpin(s, s');
    MgrKeepsJoins(s, s');
    MgrKeepsProcs(s, s');
    Popped(s, s');
    forall u ensures CreatorOk(s', u) { assert CreatorOk(s, u); }
    MgrKeepsRing(s, s');
    MgrKeepsReaps(s, s');
  }

  /** waitpid finds a dead child, ... */
  lemma WaitKeepsInv(s: State, th: Tid)
    requires Inv(s) && s.mgr == Reap && IsZombie(s, th)
    ensures Inv(s.(proc := s.proc[th := Reaped], mgr := ReapLink(th)))
  {
    var s' := s.(proc := s.proc[th := Reaped], mgr := ReapLink(th));
    ManagerSpin(s, s');
    MgrKeepsJoins(s, s');
    forall u ensures ProcOk(s', u) { assert ProcOk(s, u); }
    forall u ensures CreatorOk(s', u) { assert CreatorOk(s, u); assert Queued(s, u) ==> Queued(s', u); }
    forall u ensures RingOk(s', u) { assert RingOk(s, u); }
    forall u ensures ReapOk(s', u) { assert ReapOk(s, u); }
  }

  /** ... which leaves the ring ... */
  lemma UnlinkKeepsInv(s: State, th: Tid)
    requires Inv(s) && s.mgr == ReapLink(th)
    ensures Inv(s.(ring := s.ring - {th}, mgr := ReapAcq(th)))
  {
    var s' := s.(ring := s.ring - {th}, mgr := ReapAcq(th));
    assert ProcOk(s, th);
    ManagerSpin(s, s');
    MgrKeepsJoins(s, s');
    forall u ensures ProcOk(s', u) { assert ProcOk(s, u); }
    forall u ensures CreatorOk(s', u) { assert CreatorOk(s, u); assert Queued(s, u) ==> Queued(s', u); }
    forall u ensures RingOk(s', u) { assert RingOk(s, u); }
    forall u ensures ReapOk(s', u) { assert ReapOk(s, u); }
  }

  /** ... and is marked as exited. */
  lemma MarkExitedKeepsInv(s: State, th: Tid)
    requires Inv(s) && s.mgr == ReapBody(th)
    ensures Inv(s.Set(th, s.D(th).(exited := true)).(mgr := ReapRel(th, s.D(th).detached)))
  {
    var s' := s.Set(th, s.D(th).(exited := true)).(mgr := ReapRel(th, s.D(th).detached));
    assert ProcOk(s, th);
    ManagerSpin(s, s');
    MgrKeepsJoins(s, s');
    MarkExitedProcs(s, s', th);
    MgrKeepsCreators(s, s');
    MgrKeepsRing(s, s');
    MgrKeepsReaps(s, s');
  }

  lemma MarkExitedProcs(s: State, s': State, th: Tid)
    requires (forall u :: ProcOk(s, u)) && s.mgr == ReapBody(th)
    requires s' == s.Set(th, s.D(th).(exited := true)).(mgr := ReapRel(th, s.D(th).detached))
    ensures forall u :: ProcOk(s', u)
  {
    assert ProcOk(s, th);
    forall u ensures ProcOk(s', u) { assert ProcOk(s, u); }
  }

  /** The last child is gone and the main thread waits: it is released. */
  lemma ReleaseMainKeepsInv(s: State)
    requires Inv(s) && s.mgr == ReapCheck && s.mainExiting && s.ring == {MAIN}
    ensures MAIN !in s.pending && Inv(s.Restart(MAIN).(mgr := Gone))
  {
    var s' := s.Restart(MAIN).(mgr := Gone);
    assert ProcOk(s, MAIN);
    ManagerSpin(s, s');
    MgrKeepsJoins(s, s');
    MgrKeepsProcs(s, s');
    MgrKeepsCreators(s, s');
    MgrKeepsRing(s, s');
    NoneToReap(s, s');
  }

  lemma NoneToReap(s: State, s': State)
    requires (forall u :: RingOk(s, u)) && s.ring == {MAIN} && !s.mgr.MkLink? && s'.proc == s.proc
    ensures forall u :: ReapOk(s', u)
  {
    forall u ensures ReapOk(s', u) { assert RingOk(s, u); }
  }

  /** A new thread: its process may run, and even end, before it is in the ring. */
  lemma CloneKeepsInv(s: State, t: Tid, det: bool, kid: Tid)
    requires Inv(s) && s.mgr == MkClone(t, det) && s.Proc(kid) == Absent
    ensures Inv(s.Set(kid, Fresh(det))
                 .(proc := s.proc[kid := Alive], pc := s.pc[kid := Running], mgr := MkLink(t, kid)))
  {
    var s' := s.Set(kid, Fresh(det)).(proc := s.proc[kid := Alive], pc := s.pc[kid := Running], mgr := MkLink(t, kid));
    assert ProcOk(s, kid) && ProcOk(s, MAIN);
    CloneFrame(s, s', t, det, kid);
    ManagerSpin(s, s');
    MgrKeepsJoins(s, s');
    CloneWorld(s, s', t, det, kid);
    CloneCreators(s, s', t, det, kid);
  }

  /** To the others a thread that did not exist looks like an idle one. */
  lemma CloneFrame(s: State, s': State, t: Tid, det: bool, kid: Tid)
    requires kid !in s.pc && kid !in s.desc
    requires s' ==
      s.Set(kid, Fresh(det)).(proc := s.proc[kid := Alive], pc := s.pc[kid := Running], mgr := MkLink(t, kid))
    ensures forall u :: s'.Pc(u) == s.Pc(u) && s'.D(u).(detached := false) == s.D(u).(detached := false)
  {
  }

  lemma CloneCreators(s: State, s': State, t: Tid, det: bool, kid: Tid)
    requires PipeOk(s) && (forall u :: CreatorOk(s, u)) && s.mgr == MkClone(t, det) && forall u :: s'.Pc(u) == s.Pc(u)
    requires s' ==
      s.Set(kid, Fresh(det)).(proc := s.proc[kid := Alive], pc := s.pc[kid := Running], mgr := MkLink(t, kid))
    ensures PipeOk(s') && forall u :: CreatorOk(s', u)
  {
    forall u ensures CreatorOk(s', u) { assert CreatorOk(s, u); assert Queued(s, u) ==> Queued(s', u); }
  }

  lemma CloneWorld(s: State, s': State, t: Tid, det: bool, kid: Tid)
    requires Inv(s) && s.mgr == MkClone(t, det) && s.Proc(kid) == Absent
    requires s' ==
      s.Set(kid, Fresh(det)).(proc := s.proc[kid := Alive], pc := s.pc[kid := Running], mgr := MkLink(t, kid))
    ensures (forall u :: ProcOk(s', u)) && (forall u :: RingOk(s', u)) && (forall u :: ReapOk(s', u))
  {
    assert ProcOk(s, kid) && ProcOk(s, MAIN);
    forall u ensures ProcOk(s', u) { assert ProcOk(s, u); }
    forall u ensures RingOk(s', u) { assert RingOk(s, u); }
    forall u ensures ReapOk(s', u) { assert ReapOk(s, u); }
  }

  lemma LinkKeepsInv(s: State, t: Tid, kid: Tid)
    requires Inv(s) && s.mgr == MkLink(t, kid)
    ensures Inv(s.(ring := s.ring + {kid}, mgr := MkReply(t, Some(kid))))
  {
    var s' := s.(ring := s.ring + {kid}, mgr := MkReply(t, Some(kid)));
    ManagerSpin(s, s');
    MgrKeepsJoins(s, s');
    forall u ensures ProcOk(s', u) { assert ProcOk(s, u); }
    forall u ensures CreatorOk(s', u) { assert CreatorOk(s, u); assert Queued(s, u) ==> Queued(s', u); }
    forall u ensures RingOk(s', u) { assert RingOk(s, u); }
    forall u ensures ReapOk(s', u) { assert ReapOk(s, u); }
    assert s'.ring != {MAIN} by { assert kid in s'.ring; }
  }

  /** The answer is stored in the requester, which is suspended and has not terminated. */
  lemma ReplyKeepsInv(s: State, t: Tid, made: Option<Tid>, d: Desc)
    requires Inv(s) && s.mgr == MkReply(t, made)
      && d.(retval := Null, created := false) == s.D(t).(retval := Null, created := false)
    ensures Inv(s.Set(t, d).(mgr := MkWake(t)))
  {
    var s' := s.Set(t, d).(mgr := MkWake(t));
    assert ProcOk(s, t) && CreatorOk(s, t);
    ReplyFrame(s, s', t, d);
    ManagerSpin(s, s');
    MgrKeepsJoins(s, s');
    ReplyRest(s, s', t, made);
  }

  lemma ReplyRest(s: State, s': State, t: Tid, made: Option<Tid>)
    requires Inv(s) && s.mgr == MkReply(t, made) && s' == s.(desc := s'.desc, mgr := MkWake(t))
    requires forall u :: s'.D(u).(retval := Null, created := false) == s.D(u).(retval := Null, created := false)
    requires forall u | s.Proc(u) == Absent && u in s'.desc :: u in s.desc
    ensures (forall u :: ProcOk(s', u)) && (forall u :: CreatorOk(s', u)) && (forall u :: RingOk(s', u))
    ensures (forall u :: ReapOk(s', u)) && PipeOk(s') && MgrOk(s') && MainOk(s')
  {
    MgrKeepsProcs(s, s');
    MgrKeepsCreators(s, s');
    MgrKeepsRing(s, s');
    MgrKeepsReaps(s, s');
  }

  lemma ReplyFrame(s: State, s': State, t: Tid, d: Desc)
    requires s' == s.Set(t, d).(mgr := MkWake(t)) && !s.D(t).terminated
    requires d.(retval := Null, created := false) == s.D(t).(retval := Null, created := false)
    ensures forall u :: s'.D(u).(retval := Null, created := false) == s.D(u).(retval := Null, created := false)
    ensures forall u | s.D(u).terminated :: s'.D(u).retval == s.D(u).retval
  {
  }

  lemma WakeCreatorKeepsInv(s: State, t: Tid)
    requires Inv(s) && s.mgr == MkWake(t)
    ensures t !in s.pending && Inv(s.Restart(t).(mgr := Loop))
  {
    var s' := s.Restart(t).(mgr := Loop);
    assert ProcOk(s, t) && CreatorOk(s, t);
    ManagerSpin(s, s');
    MgrKeepsJoins(s, s');
    WakeCreatorPipe(s, s', t);
    MgrKeepsProcs(s, s');
    MgrKeepsRing(s, s');
    MgrKeepsReaps(s, s');
  }

  lemma WakeCreatorPipe(s: State, s': State, t: Tid)
    requires PipeOk(s) && (forall u :: CreatorOk(s, u)) && s.mgr == MkWake(t) && s' == s.Restart(t).(mgr := Loop)
    ensures PipeOk(s') && forall u :: CreatorOk(s', u)
  {
    assert CreatorOk(s, t);
    forall u ensures CreatorOk(s', u) { assert CreatorOk(s, u); assert Queued(s, u) ==> Queued(s', u); }
  }

  lemma DeliverKeepsInv(s: State)
    requires Inv(s)
    ensures Inv(s.(signal := false, flag := true))
  {
    var s' := s.(signal := false, flag := true);
    ManagerSpin(s, s');
    MgrKeepsJoins(s, s');
    forall u ensures ProcOk(s', u) { assert ProcOk(s, u); }
    forall u ensures CreatorOk(s', u) { assert CreatorOk(s, u); assert Queued(s, u) ==> Queued(s', u); }
    forall u ensures RingOk(s', u) { assert RingOk(s, u); }
  }

  lemma ExitKeepsInv(s: State, t: Tid, call: Call)
    requires Inv(s) && Enabled(s, Go(t, call))
    requires s.Pc(t).ExitBody? || s.Pc(t).ExitWake? || s.Pc(t).ExitSend? || s.Pc(t).ExitSuspend? || s.Pc(t).ExitEnd?
    ensures Inv(Step(s, Go(t, call)))
  {
    assert ProcOk(s, t);
    match s.Pc(t)
    case ExitBody(v) => TerminateKeepsInv(s, t, v);
    case ExitWake(j) =>
      if j.Some? { WakeJoinerKeepsInv(s, t, j.value, Target(s, t, call)); } else { CallKeepsInv(s, t, call); }
    case ExitSend => MainRequestKeepsInv(s);
    case ExitSuspend => MainResumeKeepsInv(s);
    case ExitEnd => DieKeepsInv(s, t);
  }

  lemma WaitingKeepsInv(s: State, t: Tid, call: Call)
    requires Inv(s) && Enabled(s, Go(t, call))
    requires (s.Pc(t).Running? && call.Start?) || s.Pc(t).CreateSuspend? || s.Pc(t).JoinSuspend?
      || (s.Pc(t).JoinBody? && !IsLocal(s, t, call))
    ensures Inv(Step(s, Go(t, call)))
  {
    match s.Pc(t)
    case Running => RequestKeepsInv(s, t, call.detached);
    case CreateSuspend => ResumeKeepsInv(s, t, CreateRead);
    case JoinSuspend(th) => ResumeKeepsInv(s, t, JoinReacq(th));
    case JoinBody(th) => RegisterKeepsInv(s, t, th);
  }

  lemma GoKeepsInv(s: State, t: Tid, call: Call)
    requires Inv(s) && Enabled(s, Go(t, call))
    ensures Inv(Step(s, Go(t, call)))
  {
    match s.Pc(t)
    case Running => if call.Start? { WaitingKeepsInv(s, t, call); } else { CallKeepsInv(s, t, call); }
    case CreateSuspend | JoinSuspend(_) => WaitingKeepsInv(s, t, call);
    case ExitBody(_) | ExitWake(_) | ExitSend | ExitSuspend | ExitEnd => ExitKeepsInv(s, t, call);
    case JoinBody(_) => if IsLocal(s, t, call) { JoinKeepsInv(s, t, call); } else { WaitingKeepsInv(s, t, call); }
    case JoinAcq(_) => JoinKeepsInv(s, t, call);
    case JoinFail(_) | JoinPark(_) => JoinReleaseKeepsInv(s, t, call);
    case ExitAcq(_) | ExitRel(_) => ExitSpinKeepsInv(s, t, call);
    case JoinReacq(_) | JoinTake(_) => JoinEndKeepsInv(s, t, call);
    case JoinRel(_, _) | JoinSend(_, _) => JoinReturnKeepsInv(s, t, call);
    case DetachBody(_) => DetachMarksKeepsInv(s, t, call);
    case DetachAcq(_) | DetachRel(_, _) => DetachKeepsInv(s, t, call);
    case DetachSend(_) => DetachSendKeepsInv(s, t, call);
    case _ => CallKeepsInv(s, t, call);
  }

  lemma ServerKeepsInv(s: State, child: Tid, ok: bool)
    requires Inv(s) && Enabled(s, Manage(child, ok)) && s.mgr.Serve?
    ensures Inv(Step(s, Manage(child, ok)))
  {
    if !ok || s.pipe == [] { ServeKeepsInv(s, child, ok); }
    else if s.pipe[0].Free? { ServeKeepsInv(s, child, ok); }
    else {
      ServerStep(s, child);
      if s.pipe[0].Create? { ServeCreateKeepsInv(s, s.pipe[0].t, s.pipe[0].detached); }
      else if s.ring == {MAIN} { ServeMainKeepsInv(s); }
      else { NoteMainKeepsInv(s); }
    }
  }

  lemma ServerStep(s: State, child: Tid)
    requires s.mgr.Serve? && s.pipe != [] && !s.pipe[0].Free?
    ensures var s', r := Step(s, Manage(child, true)), s.pipe[0];
      s' ==
        if r.Create? then s.(pipe := s.pipe[1..], mgr := MkClone(r.t, r.detached))
        else if s.ring == {MAIN} then
          s.(pipe := s.pipe[1..], mainExiting := true, pending := s.pending + {MAIN}, mgr := Gone)
        else s.(pipe := s.pipe[1..], mainExiting := true, mgr := Loop)
  {
  }

  lemma MakesKeepsInv(s: State, child: Tid, ok: bool)
    requires Inv(s) && Enabled(s, Manage(child, ok)) && s.mgr.MkClone?
    ensures Inv(Step(s, Manage(child, ok)))
  {
    if ok {
      CloneStep(s, child);
      CloneKeepsInv(s, s.mgr.t, s.mgr.det, child);
    } else {
      MgrOnKeepsInv(s, child, ok);
    }
  }

  lemma CloneStep(s: State, kid: Tid)
    requires Enabled(s, Manage(kid, true)) && s.mgr.MkClone?
    ensures Step(s, Manage(kid, true)) == s.Set(kid, Fresh(s.mgr.det)).(
              proc := s.proc[kid := Alive], pc := s.pc[kid := Running], mgr := MkLink(s.mgr.t, kid))
  {
  }

  lemma AnswersKeepsInv(s: State, child: Tid, ok: bool)
    requires Inv(s) && Enabled(s, Manage(child, ok)) && (s.mgr.MkLink? || s.mgr.MkReply? || s.mgr.MkWake?)
    ensures Inv(Step(s, Manage(child, ok)))
  {
    match s.mgr
    case MkLink(t, kid) => LinkKeepsInv(s, t, kid);
    case MkReply(t, made) => ReplyKeepsInv(s, t, made, MgrWrites(s, child, ok).value.d);
    case MkWake(t) => WakeCreatorKeepsInv(s, t);
  }

  lemma ReapingKeepsInv(s: State, child: Tid, ok: bool)
    requires Inv(s) && Enabled(s, Manage(child, ok))
    requires (s.mgr.Reap? && ok) || s.mgr.ReapLink? || s.mgr.ReapBody? || s.mgr.ReapCheck?
    ensures Inv(Step(s, Manage(child, ok)))
  {
    ReapingStep(s, child, ok);
    match s.mgr
    case Reap => WaitKeepsInv(s, child);
    case ReapLink(th) => UnlinkKeepsInv(s, th);
    case ReapBody(th) => MarkStep(s, child, ok, th); MarkExitedKeepsInv(s, th);
    case ReapCheck =>
      if s.mainExiting && s.ring == {MAIN} { ReleaseMainKeepsInv(s); } else { MgrOnKeepsInv(s, child, ok); }
  }

  lemma ReapingStep(s: State, child: Tid, ok: bool)
    requires Enabled(s, Manage(child, ok))
    ensures var s' := Step(s, Manage(child, ok));
      match s.mgr
      case Reap => ok ==> s' == s.(proc := s.proc[child := Reaped], mgr := ReapLink(child))
      case ReapLink(th) => s' == s.(ring := s.ring - {th}, mgr := ReapAcq(th))
      case ReapCheck => s.mainExiting && s.ring == {MAIN} ==> s' == s.Restart(MAIN).(mgr := Gone)
      case _ => true
  {
  }

  lemma MarkStep(s: State, child: Tid, ok: bool, th: Tid)
    requires s.mgr == ReapBody(th)
    ensures Step(s, Manage(child, ok)) ==
      s.Set(th, s.D(th).(exited := true)).(mgr := ReapRel(th, s.D(th).detached))
  {
  }

  lemma ManageKeepsInv(s: State, child: Tid, ok: bool)
    requires Inv(s) && Enabled(s, Manage(child, ok))
    ensures Inv(Step(s, Manage(child, ok)))
  {
    match s.mgr
    case Serve => ServerKeepsInv(s, child, ok);
    case Loop => ServeKeepsInv(s, child, ok);
    case Reap => if ok { ReapingKeepsInv(s, child, ok); } else { ServeKeepsInv(s, child, ok); }
    case ReapLink(_) | ReapBody(_) | ReapCheck => ReapingKeepsInv(s, child, ok);
    case ReapFree(_) => MgrOnKeepsInv(s, child, ok);
    case FreeBody(_) => FreeRequestKeepsInv(s, child, ok);
    case ReapAcq(_) | ReapRel(_, _) | FreeAcq(_) | FreeRel(_) => MgrSpinKeepsInv(s, child, ok);
    case MkClone(_, _) => MakesKeepsInv(s, child, ok);
    case MkLink(_, _) | MkReply(_, _) | MkWake(_) => AnswersKeepsInv(s, child, ok);
  }

  /** Every step of every thread, of the manager and of signal delivery keeps the invariant. */
  lemma StepKeepsInv(s: State, mv: Move)
    requires Inv(s) && Enabled(s, mv)
    ensures Inv(Step(s, mv))
  {
    match mv
    case Go(t, call) => GoKeepsInv(s, t, call);
    case Manage(child, ok) => ManageKeepsInv(s, child, ok);
    case Deliver => DeliverKeepsInv(s);
  }

  lemma RunKeepsInv(ms: seq<Move>)
    requires Legal(INITIAL, ms)
    ensures Inv(Exec(INITIAL, ms))
    decreases |ms|
  {
    if ms == [] {
      forall t ensures RingOk(INITIAL, t) { }
    } else {
      RunKeepsInv(ms[..|ms|-1]);
      StepKeepsInv(Exec(INITIAL, ms[..|ms|-1]), ms[|ms|-1]);
    }
  }
}
