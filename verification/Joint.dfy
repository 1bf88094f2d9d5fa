/** All waiting in the library at once. Semaphores, mutexes with conditions, and the
    life of threads each suspend and restart threads, and all of them use the same
    signal (restart.h): one bit per thread, set by a restart, cleared by a suspend.

    The joint system runs the three step systems over one set of pending restarts.
    A thread that exists starts a call of one of them only when it is inside no call
    of another, because a call returns before its caller goes on. */
module Joint {
  import S = Semaphore
  import L = Locks
  import F = Lifecycle
  import LI = LocksInvariant
  import FI = LifecycleInvariant
  import Words

  /** Threads are numbered; the semaphore code knows thread n by its address. */
  type Tid = nat

  function Address(n: Tid): Words.Tid { 2 * n + 2 }
  function Number(u: Words.Tid): Tid { (u - 2) / 2 }

  datatype Protocol = InSem | InLocks | InLife

  /** The three systems, each with its own `pending` left empty, and the shared set. */
  datatype State = State(sem: S.State, locks: L.State, life: F.State, pending: set<Tid>)
  {
    /** What a system sees: its own part with the shared set of pending restarts. */
    function Sem(): S.State { sem.(pending := set n | n in pending :: Address(n)) }
    function Locks(): L.State { locks.(pending := pending) }
    function Life(): F.State { life.(pending := pending) }
    /** n is inside a call. */
    predicate Inside(p: Protocol, n: Tid) {
      match p
      case InSem => sem.Pc(Address(n)) != S.Idle
      case InLocks => locks.Pc(n) != L.Idle
      case InLife => life.Pc(n) != F.Running
    }
    predicate Busy(n: Tid) { Inside(InSem, n) || Inside(InLocks, n) || Inside(InLife, n) }
    predicate Exists(n: Tid) { life.Proc(n) == F.Alive }
  }

  datatype Move = Sem(n: Tid, call: S.Call) | Lock(lm: L.Move) | Life(fm: F.Move)

  predicate Enabled(j: State, mv: Move) {
    match mv
    case Sem(n, _) => S.Enabled(j.Sem(), Address(n)) && j.Exists(n) && (j.Busy(n) ==> j.Inside(InSem, n))
    case Lock(lm) => L.Enabled(j.Locks(), lm) && j.Exists(lm.t) && (j.Busy(lm.t) ==> j.Inside(InLocks, lm.t))
    case Life(fm) => F.Enabled(j.Life(), fm) && (fm.Go? && j.Busy(fm.t) ==> j.Inside(InLife, fm.t))
  }

  function Step(j: State, mv: Move): State
    requires Enabled(j, mv)
  {
    match mv
    case Sem(n, call) =>
      var s := S.Step(j.Sem(), Address(n), call);
      j.(sem := s.(pending := {}), pending := set u | u in s.pending :: Number(u))
    case Lock(lm) =>
      var s := L.Step(j.Locks(), lm);
      j.(locks := s.(pending := {}), pending := s.pending)
    case Life(fm) =>
      var s := F.Step(j.Life(), fm);
      j.(life := s.(pending := {}), pending := s.pending)
  }

  /** What a step means for waiting, whichever system makes it. */
  datatype Token = Nothing | Park(n: Tid) | Restart(n: Tid) | Resume(n: Tid) | Withdraw(n: Tid)

  datatype Event = Event(at: Protocol, token: Token)

  function SemToken(e: S.Event): Token {
    match e
    case Parked(u) => Park(Number(u))
    case Restarted(u) => Restart(Number(u))
    case Resumed(u) => Resume(Number(u))
    case _ => Nothing
  }

  function LockToken(e: L.Event): Token {
    match e
    case Parked(n, _) => Park(n)
    case Restarted(_, n) => Restart(n)
    case Resumed(n) => Resume(n)
    case Withdrawn(n, _) => Withdraw(n)
    case _ => Nothing
  }

  function LifeToken(e: F.Event): Token {
    match e
    case Parked(n) => Park(n)
    case Restarted(n) => Restart(n)
    case Resumed(n) => Resume(n)
    case _ => Nothing
  }

  function EventOf(j: State, mv: Move): Event
    requires Enabled(j, mv)
  {
    match mv
    case Sem(n, call) => Event(InSem, SemToken(S.EventOf(j.Sem(), Address(n), call)))
    case Lock(lm) => Event(InLocks, LockToken(L.EventOf(j.Locks(), lm)))
    case Life(fm) => Event(InLife, LifeToken(F.EventOf(j.Life(), fm)))
  }

  /** No time-out of a condition wait races with its signal. */
  predicate Clean(j: State, mv: Move) { mv.Lock? ==> L.Clean(j.locks, mv.lm.t) }

  ghost predicate Legal(j: State, ms: seq<Move>) {
    ms == [] || (Legal(j, ms[..|ms|-1]) && Enabled(Exec(j, ms[..|ms|-1]), ms[|ms|-1]))
  }

  ghost function Exec(j: State, ms: seq<Move>): State {
    if ms == [] then j
    else var p := Exec(j, ms[..|ms|-1]); if Enabled(p, ms[|ms|-1]) then Step(p, ms[|ms|-1]) else p
  }

  ghost function Trace(j: State, ms: seq<Move>): seq<Event>
    requires Legal(j, ms)
  {
    if ms == [] then []
    else Trace(j, ms[..|ms|-1]) + [EventOf(Exec(j, ms[..|ms|-1]), ms[|ms|-1])]
  }

  ghost predicate CleanRun(j: State, ms: seq<Move>) {
    ms == [] || (CleanRun(j, ms[..|ms|-1]) && Clean(Exec(j, ms[..|ms|-1]), ms[|ms|-1]))
  }

  predicate Initial(j: State) {
    S.Initial(j.sem) && L.Initial(j.locks) && j.life == F.INITIAL && j.pending == {}
  }

  /** n has an outstanding wait: from the enqueue, push or request to the end of its suspend. */
  predicate Waits(j: State, p: Protocol, n: Tid) {
    match p
    case InSem => j.sem.Pc(Address(n)).WaitSuspend?
    case InLocks => LI.Waits(j.locks.Pc(n)).Some?
    case InLife => FI.Waits(j.life.Pc(n))
  }
}
