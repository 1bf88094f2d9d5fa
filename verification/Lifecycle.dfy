/** The life of threads: pthread_create, pthread_exit, pthread_join and
    pthread_detach, and the manager thread that serves their requests and reaps
    dead processes (pthread.c, join.c, manager.c).

    Threads, the manager and the delivery of its signal interleave freely. Taking
    and giving back a descriptor's spinlock, the statements under it, each restart,
    each suspend and each write to the request pipe are separate steps. The pipe is
    a FIFO; clone and waitpid may give any answer; thread identities are not
    reused. Threads are not cancelled and exit normally. */
module Lifecycle {
  import opened Options

  type Tid = nat
  const MAIN: Tid := 0

  /** A void*: what pthread_exit is given, or a thread identity. */
  datatype Val = Null | Num(v: int) | Id(t: Tid)

  datatype Proc = Absent | Alive | Zombie | Reaped

  datatype Agent = Thread(t: Tid) | Manager

  /** The fields of a thread descriptor. */
  datatype Desc = Desc(
    spin: Option<Agent>, terminated: bool, detached: bool, exited: bool,
    retval: Val, created: bool, joining: Option<Tid>)

  datatype Write = Write(x: Tid, d: Desc)

  datatype Request = Create(t: Tid, detached: bool) | Free(th: Tid) | MainExit

  datatype Pc =
    | Running
    | CreateSuspend | CreateRead
    | ExitAcq(v: Val) | ExitBody(v: Val) | ExitRel(j: Option<Tid>) | ExitWake(j: Option<Tid>)
    | ExitSend | ExitSuspend | ExitEnd | Dead
    | JoinAcq(th: Tid) | JoinBody(th: Tid) | JoinFail(th: Tid) | JoinPark(th: Tid) | JoinSuspend(th: Tid)
    | JoinReacq(th: Tid) | JoinTake(th: Tid) | JoinRel(th: Tid, v: Val) | JoinSend(th: Tid, v: Val)
    | DetachAcq(th: Tid) | DetachBody(th: Tid) | DetachRel(th: Tid, send: bool) | DetachSend(th: Tid)

  /** Where the manager stands in its server loop. */
  datatype Mgr =
    | Loop | Serve
    | Reap | ReapLink(th: Tid) | ReapAcq(th: Tid) | ReapBody(th: Tid) | ReapRel(th: Tid, det: bool)
    | ReapFree(th: Tid) | ReapCheck
    | MkClone(t: Tid, det: bool) | MkLink(t: Tid, kid: Tid) | MkReply(t: Tid, made: Option<Tid>) | MkWake(t: Tid)
    | FreeAcq(th: Tid) | FreeBody(th: Tid) | FreeRel(th: Tid)
    | Gone

  datatype Call = Start(detached: bool) | Exit(v: Val) | Join(th: Tid) | Detach(th: Tid)

  /** A move of a thread, of the manager (with the answers of the kernel: the child
      found by waitpid, the new thread, whether clone succeeds, whether the pipe was
      readable), or the delivery of the manager's signal. */
  datatype Move =
    | Go(t: Tid, call: Call)
    | Manage(child: Tid, ok: bool)
    | Deliver

  datatype Event =
    | Silent
    | Created(t: Tid, made: Option<Tid>)     // the manager's answer to t's request
    | Returned(t: Tid, made: Option<Tid>)    // what pthread_create returns
    | Exited(t: Tid, v: Val)                 // t terminates with v
    | Joined(t: Tid, th: Tid, v: Val)        // pthread_join succeeds
    | Parked(t: Tid)
    | Restarted(t: Tid)
    | Resumed(t: Tid)
    | Freed(th: Tid)

  datatype State = State(
    pc: map<Tid, Pc>,
    proc: map<Tid, Proc>,
    desc: map<Tid, Desc>,
    frees: map<Tid, nat>,     // how often pthread_free ran on a thread
    ring: set<Tid>,           // the live threads; LiveRing.dfy has the links
    pending: set<Tid>,        // threads whose restart signal is pending
    pipe: seq<Request>,
    mgr: Mgr,
    signal: bool,             // the manager's signal is pending
    flag: bool,               // terminated_children
    mainExiting: bool)
  {
    function Pc(t: Tid): Pc { if t in pc then pc[t] else Running }
    function Proc(t: Tid): Proc { if t in proc then proc[t] else Absent }
    function D(t: Tid): Desc { if t in desc then desc[t] else Fresh(false) }
    function Frees(t: Tid): nat { if t in frees then frees[t] else 0 }
    function Set(t: Tid, d: Desc): State { this.(desc := desc[t := d]) }
    function Acquire(th: Tid, a: Agent): State { Set(th, D(th).(spin := Some(a))) }
    function Release(th: Tid): State { Set(th, D(th).(spin := None)) }
    function Send(r: Request): State { this.(pipe := pipe + [r]) }
    function Restart(t: Tid): State { this.(pending := pending + {t}) }
    /** pthread_free: nothing to do for the initial thread. */
    function FreeThread(th: Tid): State { if th == MAIN then this else this.(frees := frees[th := Frees(th) + 1]) }
  }

  /** A descriptor as pthread_handle_create fills it in. */
  function Fresh(detached: bool): Desc { Desc(None, false, detached, false, Null, false, None) }

  predicate IsZombie(s: State, t: Tid) { t != MAIN && s.Proc(t) == Zombie }

  predicate Enabled(s: State, mv: Move) {
    match mv
    case Go(t, call) =>
      s.Proc(t) == Alive &&
      (match s.Pc(t)
       case Running =>
         (match call
          case Join(th) => s.Proc(th) != Absent
          case Detach(th) => s.Proc(th) != Absent
          case _ => true)
       case CreateSuspend => t in s.pending
       case ExitAcq(_) => s.D(t).spin == None
       case ExitSuspend => t in s.pending
       case JoinAcq(th) => s.D(th).spin == None
       case JoinSuspend(_) => t in s.pending
       case JoinReacq(th) => s.D(th).spin == None
       case DetachAcq(th) => s.D(th).spin == None
       case Dead => false
       case _ => true)
    case Manage(child, ok) =>
      (match s.mgr
       case Reap => if ok then IsZombie(s, child) else forall t | t in s.proc :: !IsZombie(s, t)
       case ReapAcq(th) => s.D(th).spin == None
       case FreeAcq(th) => s.D(th).spin == None
       case MkClone(_, _) => ok ==> s.Proc(child) == Absent
       case Gone => false
       case _ => true)
    case Deliver => s.signal && s.mgr != Gone
  }

  /** The control flow of a thread, ... */
  function Target(s: State, t: Tid, call: Call): Pc {
    match s.Pc(t)
    case Running =>
      (match call
       case Start(_) => CreateSuspend
       case Exit(v) => ExitAcq(v)
       case Join(th) => if th == t then Running else JoinAcq(th)
       case Detach(th) => DetachAcq(th))
    case CreateSuspend => CreateRead
    case CreateRead => Running

    case ExitAcq(v) => ExitBody(v)
    case ExitBody(v) => ExitRel(s.D(t).joining)
    case ExitRel(j) => ExitWake(j)
    case ExitWake(_) => if t == MAIN then ExitSend else ExitEnd
    case ExitSend => ExitSuspend
    case ExitSuspend => ExitEnd
    case ExitEnd => Dead
    case Dead => Dead

    case JoinAcq(th) => JoinBody(th)
    case JoinBody(th) =>
      if s.D(th).detached || s.D(th).joining.Some? then JoinFail(th)
      else if !s.D(th).terminated then JoinPark(th)
      else JoinTake(th)
    case JoinFail(_) => Running
    case JoinPark(th) => JoinSuspend(th)
    case JoinSuspend(th) => JoinReacq(th)
    case JoinReacq(th) => JoinTake(th)
    case JoinTake(th) => JoinRel(th, s.D(th).retval)
    case JoinRel(th, v) => JoinSend(th, v)
    case JoinSend(_, _) => Running

    case DetachAcq(th) => DetachBody(th)
    case DetachBody(th) =>
      DetachRel(th, !s.D(th).detached && s.D(th).joining == None && s.D(th).terminated)
    case DetachRel(th, send) => if send then DetachSend(th) else Running
    case DetachSend(_) => Running
  }

  /** ... the descriptor it writes, if any, ... */
  function Writes(s: State, t: Tid): Option<Write> {
    match s.Pc(t)
    case ExitAcq(_) => Some(Write(t, s.D(t).(spin := Some(Thread(t)))))
    case ExitBody(v) => Some(Write(t, s.D(t).(retval := v, terminated := true)))
    case ExitRel(_) => Some(Write(t, s.D(t).(spin := None)))
    case JoinAcq(th) => Some(Write(th, s.D(th).(spin := Some(Thread(t)))))
    case JoinBody(th) =>
      if s.D(th).detached || s.D(th).joining.Some? || s.D(th).terminated then None
      else Some(Write(th, s.D(th).(joining := Some(t))))
    case JoinFail(th) => Some(Write(th, s.D(th).(spin := None)))
    case JoinPark(th) => Some(Write(th, s.D(th).(spin := None)))
    case JoinReacq(th) => Some(Write(th, s.D(th).(spin := Some(Thread(t)))))
    case JoinRel(th, _) => Some(Write(th, s.D(th).(spin := None)))
    case DetachAcq(th) => Some(Write(th, s.D(th).(spin := Some(Thread(t)))))
    case DetachBody(th) => if s.D(th).joining.Some? then None else Some(Write(th, s.D(th).(detached := true)))
    case DetachRel(th, _) => Some(Write(th, s.D(th).(spin := None)))
    case _ => None
  }

  /** ... the restart signals it sends or consumes, ... */
  function Signals(s: State, t: Tid): set<Tid> {
    match s.Pc(t)
    case CreateSuspend => s.pending - {t}
    case JoinSuspend(_) => s.pending - {t}
    case ExitSuspend => s.pending - {t}
    case ExitWake(j) => if j.Some? then s.pending + {j.value} else s.pending
    case _ => s.pending
  }

  /** ... and the request it writes to the pipe. */
  function Requests(s: State, t: Tid, call: Call): seq<Request> {
    match s.Pc(t)
    case Running => if call.Start? then s.pipe + [Create(t, call.detached)] else s.pipe
    case ExitSend => s.pipe + [MainExit]
    case JoinSend(th, _) => s.pipe + [Free(th)]
    case DetachSend(th) => s.pipe + [Free(th)]
    case _ => s.pipe
  }

  /** The manager reads the next request. */
  predicate Reads(s: State, ok: bool) { s.mgr == Serve && ok && s.pipe != [] }

  /** It has just been told, or knows already, that the main thread waits, and finds
      it alone in the ring. */
  predicate ReleasesMain(s: State, ok: bool) {
    s.ring == {MAIN} && ((Reads(s, ok) && s.pipe[0] == MainExit) || (s.mgr == ReapCheck && s.mainExiting))
  }

  /** One step of the manager. */
  function MgrTarget(s: State, child: Tid, ok: bool): Mgr {
    match s.mgr
    case Loop => if s.flag then Reap else Serve
    case Serve =>
      if !Reads(s, ok) then Loop
      else
        (match s.pipe[0]
         case Create(t, det) => MkClone(t, det)
         case Free(th) => FreeAcq(th)
         case MainExit => if ReleasesMain(s, ok) then Gone else Loop)
    case Reap => if ok then ReapLink(child) else Serve
    case ReapLink(th) => ReapAcq(th)
    case ReapAcq(th) => ReapBody(th)
    case ReapBody(th) => ReapRel(th, s.D(th).detached)
    case ReapRel(th, det) => if det then ReapFree(th) else ReapCheck
    case ReapFree(_) => ReapCheck
    case ReapCheck => if ReleasesMain(s, ok) then Gone else Reap
    case MkClone(t, _) => if ok then MkLink(t, child) else MkReply(t, None)
    case MkLink(t, kid) => MkReply(t, Some(kid))
    case MkReply(t, _) => MkWake(t)
    case MkWake(_) => Loop
    case FreeAcq(th) => FreeBody(th)
    case FreeBody(th) => if s.D(th).exited then Loop else FreeRel(th)
    case FreeRel(_) => Loop
    case Gone => Gone
  }

  function MgrWrites(s: State, child: Tid, ok: bool): Option<Write> {
    match s.mgr
    case ReapAcq(th) => Some(Write(th, s.D(th).(spin := Some(Manager))))
    case ReapBody(th) => Some(Write(th, s.D(th).(exited := true)))
    case ReapRel(th, _) => Some(Write(th, s.D(th).(spin := None)))
    case MkClone(_, det) => if ok then Some(Write(child, Fresh(det))) else None
    case MkReply(t, made) =>
      Some(Write(t, if made.Some? then s.D(t).(retval := Id(made.value), created := true)
                    else s.D(t).(created := false)))
    case FreeAcq(th) => Some(Write(th, s.D(th).(spin := Some(Manager))))
    case FreeBody(th) => if s.D(th).exited then None else Some(Write(th, s.D(th).(detached := true)))
    case FreeRel(th) => Some(Write(th, s.D(th).(spin := None)))
    case _ => None
  }

  function MgrSignals(s: State, ok: bool): set<Tid> {
    if s.mgr.MkWake? then s.pending + {s.mgr.t}
    else if ReleasesMain(s, ok) then s.pending + {MAIN}
    else s.pending
  }

  function MgrRing(s: State): set<Tid> {
    if s.mgr.MkLink? then s.ring + {s.mgr.kid} else if s.mgr.ReapLink? then s.ring - {s.mgr.th} else s.ring
  }

  function MgrFrees(s: State): map<Tid, nat> {
    if s.mgr.ReapFree? || (s.mgr.FreeBody? && s.D(s.mgr.th).exited) then s.FreeThread(s.mgr.th).frees else s.frees
  }

  /** The descriptors after a write. */
  function Stored(s: State, w: Option<Write>): map<Tid, Desc> {
    if w.Some? then s.desc[w.value.x := w.value.d] else s.desc
  }

  function Step(s: State, mv: Move): State
    requires Enabled(s, mv)
  {
    match mv
    case Go(t, call) =>
      s.(pc := s.pc[t := Target(s, t, call)],
         desc := Stored(s, Writes(s, t)),
         pending := Signals(s, t),
         pipe := Requests(s, t, call),
         proc := if s.Pc(t) == ExitEnd then s.proc[t := Zombie] else s.proc,
         signal := s.signal || (s.Pc(t) == ExitEnd && t != MAIN))
    case Manage(child, ok) =>
      s.(mgr := MgrTarget(s, child, ok),
         desc := Stored(s, MgrWrites(s, child, ok)),
         pending := MgrSignals(s, ok),
         pipe := if Reads(s, ok) then s.pipe[1..] else s.pipe,
         ring := MgrRing(s),
         frees := MgrFrees(s),
         proc := if s.mgr == Reap && ok then s.proc[child := Reaped]
                 else if s.mgr.MkClone? && ok then s.proc[child := Alive]
                 else s.proc,
         pc := if s.mgr.MkClone? && ok then s.pc[child := Running] else s.pc,
         flag := s.flag && s.mgr != Loop,
         mainExiting := s.mainExiting || (Reads(s, ok) && s.pipe[0] == MainExit))
    case Deliver => s.(signal := false, flag := true)
  }

  function EventOf(s: State, mv: Move): Event
    requires Enabled(s, mv)
  {
    match mv
    case Go(t, call) =>
      (match s.Pc(t)
       case Running => if call.Start? then Parked(t) else Silent
       case CreateSuspend => Resumed(t)
       case CreateRead => Returned(t, if s.D(t).created && s.D(t).retval.Id? then Some(s.D(t).retval.t) else None)
       case ExitBody(v) => Exited(t, v)
       case ExitWake(j) => if j.Some? then Restarted(j.value) else Silent
       case ExitSend => Parked(t)
       case ExitSuspend => Resumed(t)
       case JoinBody(th) =>
         if s.D(th).detached || s.D(th).joining.Some? || s.D(th).terminated then Silent else Parked(t)
       case JoinSuspend(_) => Resumed(t)
       case JoinSend(th, v) => Joined(t, th, v)
       case _ => Silent)
    case Manage(child, ok) =>
      (match s.mgr
       case Serve => if ReleasesMain(s, ok) then Restarted(MAIN) else Silent
       case ReapFree(th) => Freed(th)
       case ReapCheck => if ReleasesMain(s, ok) then Restarted(MAIN) else Silent
       case MkReply(t, made) => Created(t, made)
       case MkWake(t) => Restarted(t)
       case FreeBody(th) => if s.D(th).exited then Freed(th) else Silent
       case _ => Silent)
    case Deliver => Silent
  }

  ghost predicate Legal(s: State, ms: seq<Move>) {
    ms == [] || (Legal(s, ms[..|ms|-1]) && Enabled(Exec(s, ms[..|ms|-1]), ms[|ms|-1]))
  }

  ghost function Exec(s: State, ms: seq<Move>): State {
    if ms == [] then s
    else var p := Exec(s, ms[..|ms|-1]); if Enabled(p, ms[|ms|-1]) then Step(p, ms[|ms|-1]) else p
  }

  ghost function Trace(s: State, ms: seq<Move>): seq<Event>
    requires Legal(s, ms)
  {
    if ms == [] then []
    else Trace(s, ms[..|ms|-1]) + [EventOf(Exec(s, ms[..|ms|-1]), ms[|ms|-1])]
  }

  /** The main thread alone, with the manager started. */
  const INITIAL := State(map[], map[MAIN := Alive], map[], map[], {MAIN}, {}, [], Loop, false, false, false)
}
