/** Mutexes and condition variables (mutex.c, condvar.c) as a step system.

    Any number of threads use any number of mutexes and conditions. Taking a
    spinlock, the statements it protects, releasing it, each restart and each
    suspend are separate steps, and steps of different threads interleave freely.
    The waiting queues are sequences here; WaitQueue.dfy shows that the pointer
    code of queue.h implements them. Threads are not cancelled and only a restart
    ends a suspend. */
module Locks {
  import opened Options

  type Tid = nat
  type Mid = nat
  type Cid = nat

  datatype Kind = Fast | Recursive | Other

  datatype Mutex = Mutex(kind: Kind, count: nat, owner: Option<Tid>, queue: seq<Tid>)

  /** What a spinlock protects and what a thread can wait on. */
  datatype Obj = M(m: Mid) | C(c: Cid)

  /** What follows the unlock: a plain return, or the wait it is part of. */
  datatype Cont = Return | ThenWait(c: Cid, timed: bool)

  /** Where a thread stands; *Acq, *Rel take and give back a spinlock. */
  datatype Pc =
    | Idle
    | LockAcq(m: Mid) | LockBody(m: Mid) | LockRel(m: Mid, got: bool) | LockSuspend(m: Mid)
    | TryAcq(m: Mid) | TryBody(m: Mid) | TryRel(m: Mid)
    | UnlAcq(m: Mid, k: Cont) | UnlBody(m: Mid, k: Cont) | UnlRel(m: Mid, k: Cont, q: seq<Tid>)
    | UnlWake(m: Mid, k: Cont, q: seq<Tid>)
    | CondAcq(c: Cid, m: Mid, timed: bool) | CondEnq(c: Cid, m: Mid, timed: bool) | CondRel(c: Cid, m: Mid, timed: bool)
    | CondSuspend(c: Cid, m: Mid)
    | TimedSleep(c: Cid, m: Mid) | TimedAcq(c: Cid, m: Mid, signaled: bool)
    | TimedCheck(c: Cid, m: Mid, signaled: bool) | TimedRel(c: Cid, m: Mid)
    | SigAcq(c: Cid, all: bool) | SigBody(c: Cid, all: bool) | SigRel(c: Cid, q: seq<Tid>) | SigWake(q: seq<Tid>)

  datatype Call =
    | Lock(m: Mid) | TryLock(m: Mid) | Unlock(m: Mid)
    | CondWait(c: Cid, m: Mid, timed: bool) | Signal(c: Cid) | Broadcast(c: Cid)

  /** A move of thread t: `call` is what an idle thread starts, `expire` says that
      a timed sleep ends without a restart. */
  datatype Move = Move(t: Tid, call: Call, expire: bool)

  datatype Event =
    | Silent
    | Parked(t: Tid, at: Obj)                    // enqueued
    | Claimed(p: Tid, at: Obj, q: seq<Tid>)      // taken off a queue by p
    | Restarted(p: Tid, t: Tid)                  // p sent t its restart
    | Resumed(t: Tid)                            // a suspend returned
    | Withdrawn(t: Tid, at: Obj)                 // left the queue by time-out

  /** Missing entries stand for a fresh fast mutex, a fresh condition, an idle
      thread. `spin` says which spinlocks are taken (and by whom), `pending` whose
      restart signal is pending. `depth` counts the locks each thread holds; no
      step depends on it except through the rule that clients unlock, and wait
      with, only mutexes they hold. */
  datatype State = State(
    mutex: map<Mid, Mutex>,
    cond: map<Cid, seq<Tid>>,
    spin: map<Obj, Tid>,
    pc: map<Tid, Pc>,
    pending: set<Tid>,
    depth: map<(Mid, Tid), nat>)
  {
    function Mu(m: Mid): Mutex { if m in mutex then mutex[m] else Mutex(Fast, 0, None, []) }
    function Cond(c: Cid): seq<Tid> { if c in cond then cond[c] else [] }
    function Queue(o: Obj): seq<Tid> { match o case M(m) => Mu(m).queue case C(c) => Cond(c) }
    function Pc(t: Tid): Pc { if t in pc then pc[t] else Idle }
    function Depth(m: Mid, t: Tid): nat { if (m, t) in depth then depth[(m, t)] else 0 }
    function Goto(t: Tid, p: Pc): State { this.(pc := pc[t := p]) }
    function SetMutex(m: Mid, x: Mutex): State { this.(mutex := mutex[m := x]) }
    function SetDepth(m: Mid, t: Tid, n: nat): State { this.(depth := depth[(m, t) := n]) }
  }

  /** remove_from_queue. */
  function Remove(q: seq<Tid>, t: Tid): seq<Tid> {
    if q == [] then [] else if q[0] == t then q[1..] else [q[0]] + Remove(q[1..], t)
  }

  predicate Enabled(s: State, mv: Move) {
    var t := mv.t;
    match s.Pc(t)
    case Idle =>
      (match mv.call
       case Unlock(m) => s.Depth(m, t) > 0
       case CondWait(_, m, _) => s.Depth(m, t) > 0
       case _ => true)
    case LockAcq(m) => M(m) !in s.spin
    case TryAcq(m) => M(m) !in s.spin
    case UnlAcq(m, _) => M(m) !in s.spin
    case CondAcq(c, _, _) => C(c) !in s.spin
    case TimedAcq(c, _, _) => C(c) !in s.spin
    case SigAcq(c, _) => C(c) !in s.spin
    case LockSuspend(_) => t in s.pending
    case CondSuspend(_, _) => t in s.pending
    case TimedSleep(_, _) => t in s.pending || mv.expire
    case _ => true
  }

  /** Lock or trylock under the spinlock: does t get the mutex? */
  predicate Grants(x: Mutex, t: Tid) {
    x.count == 0 || (x.kind == Recursive && x.owner == Some(t))
  }

  function Grant(s: State, m: Mid, t: Tid): State {
    var x := s.Mu(m);
    s.SetMutex(m, if x.kind == Fast then x.(count := 1) else x.(count := x.count + 1, owner := Some(t)))
     .SetDepth(m, t, s.Depth(m, t) + 1)
  }

  /** An unlock that leaves the mutex held. */
  predicate Inner(x: Mutex) { x.kind == Recursive && x.count > 1 }

  /** The outermost unlock: the mutex is free and its first waiter dequeued. */
  function FreeMutex(s: State, m: Mid, t: Tid): State {
    var x := s.Mu(m);
    s.SetMutex(m, x.(count := 0, queue := x.queue[Taken(x.queue, false)..]))
     .SetDepth(m, t, Pred(s.Depth(m, t)))
  }

  /** After the unlock: return, or suspend for the condition. */
  function After(m: Mid, k: Cont): Pc {
    match k
    case Return => Idle
    case ThenWait(c, timed) => if timed then TimedSleep(c, m) else CondSuspend(c, m)
  }

  /** How many threads a signal or broadcast takes off the queue q. */
  function Taken(q: seq<Tid>, all: bool): nat { if all then |q| else if q == [] then 0 else 1 }

  /** Where the step leads, ... */
  function Target(s: State, mv: Move): Pc
    requires Enabled(s, mv)
  {
    var t := mv.t;
    match s.Pc(t)
    case Idle =>
      (match mv.call
       case Lock(m) => LockAcq(m)
       case TryLock(m) => TryAcq(m)
       case Unlock(m) => UnlAcq(m, Return)
       case CondWait(c, m, timed) => CondAcq(c, m, timed)
       case Signal(c) => SigAcq(c, false)
       case Broadcast(c) => SigAcq(c, true))

    case LockAcq(m) => LockBody(m)
    case LockBody(m) => if s.Mu(m).kind == Other then Idle else LockRel(m, Grants(s.Mu(m), t))
    case LockRel(m, got) => if got then Idle else LockSuspend(m)
    case LockSuspend(m) => LockAcq(m)

    case TryAcq(m) => TryBody(m)
    case TryBody(m) => if s.Mu(m).kind == Other then Idle else TryRel(m)
    case TryRel(m) => Idle

    case UnlAcq(m, k) => UnlBody(m, k)
    case UnlBody(m, k) =>
      var x := s.Mu(m);
      if x.kind == Other then After(m, k)
      else UnlRel(m, k, if Inner(x) then [] else x.queue[..Taken(x.queue, false)])
    case UnlRel(m, k, q) => if q == [] then After(m, k) else UnlWake(m, k, q)
    case UnlWake(m, k, q) => if q == [] then After(m, k) else UnlWake(m, k, q[1..])

    case CondAcq(c, m, timed) => CondEnq(c, m, timed)
    case CondEnq(c, m, timed) => CondRel(c, m, timed)
    case CondRel(c, m, timed) => UnlAcq(m, ThenWait(c, timed))
    case CondSuspend(_, m) => LockAcq(m)
    case TimedSleep(c, m) => TimedAcq(c, m, t in s.pending)
    case TimedAcq(c, m, signaled) => TimedCheck(c, m, signaled)
    case TimedCheck(c, m, _) => TimedRel(c, m)
    case TimedRel(_, m) => LockAcq(m)

    case SigAcq(c, all) => SigBody(c, all)
    case SigBody(c, all) => SigRel(c, s.Cond(c)[..Taken(s.Cond(c), all)])
    case SigRel(_, q) => SigWake(q)
    case SigWake(q) => if q == [] then Idle else SigWake(q[1..])
  }

  /** ... what it does to spinlocks, ... */
  function Spins(s: State, mv: Move): map<Obj, Tid> {
    match s.Pc(mv.t)
    case LockAcq(m) => s.spin[M(m) := mv.t]
    case LockRel(m, _) => s.spin - {M(m)}
    case TryAcq(m) => s.spin[M(m) := mv.t]
    case TryRel(m) => s.spin - {M(m)}
    case UnlAcq(m, _) => s.spin[M(m) := mv.t]
    case UnlRel(m, _, _) => s.spin - {M(m)}
    case CondAcq(c, _, _) => s.spin[C(c) := mv.t]
    case CondRel(c, _, _) => s.spin - {C(c)}
    case TimedAcq(c, _, _) => s.spin[C(c) := mv.t]
    case TimedRel(c, _) => s.spin - {C(c)}
    case SigAcq(c, _) => s.spin[C(c) := mv.t]
    case SigRel(c, _) => s.spin - {C(c)}
    case _ => s.spin
  }

  /** ... to mutexes, with the depth of the thread that holds them, ... */
  function Mutexes(s: State, mv: Move): State {
    var t := mv.t;
    match s.Pc(t)
    case LockBody(m) =>
      var x := s.Mu(m);
      if x.kind == Other then s
      else if Grants(x, t) then Grant(s, m, t)
      else s.SetMutex(m, x.(queue := x.queue + [t]))
    case TryBody(m) => if s.Mu(m).kind != Other && Grants(s.Mu(m), t) then Grant(s, m, t) else s
    case UnlBody(m, _) =>
      var x := s.Mu(m);
      if x.kind == Other then s
      else if Inner(x) then s.SetMutex(m, x.(count := x.count - 1)).SetDepth(m, t, Pred(s.Depth(m, t)))
      else FreeMutex(s, m, t)
    case _ => s
  }

  /** ... to conditions, ... */
  function Conds(s: State, mv: Move): map<Cid, seq<Tid>> {
    match s.Pc(mv.t)
    case CondEnq(c, _, _) => s.cond[c := s.Cond(c) + [mv.t]]
    case TimedCheck(c, _, signaled) => if signaled then s.cond else s.cond[c := Remove(s.Cond(c), mv.t)]
    case SigBody(c, all) => s.cond[c := s.Cond(c)[Taken(s.Cond(c), all)..]]
    case _ => s.cond
  }

  /** ... and to signals. */
  function Signals(s: State, mv: Move): set<Tid> {
    match s.Pc(mv.t)
    case UnlWake(_, _, q) => if q == [] then s.pending else s.pending + {q[0]}
    case SigWake(q) => if q == [] then s.pending else s.pending + {q[0]}
    case LockSuspend(_) => s.pending - {mv.t}
    case CondSuspend(_, _) => s.pending - {mv.t}
    case TimedSleep(_, _) => s.pending - {mv.t}
    case _ => s.pending
  }

  function Step(s: State, mv: Move): State
    requires Enabled(s, mv)
  {
    Mutexes(s, mv).(spin := Spins(s, mv), cond := Conds(s, mv), pending := Signals(s, mv),
                    pc := s.pc[mv.t := Target(s, mv)])
  }

  function Pred(n: nat): nat { if n == 0 then 0 else n - 1 }

  function EventOf(s: State, mv: Move): Event
    requires Enabled(s, mv)
  {
    var t := mv.t;
    match s.Pc(t)
    case LockBody(m) => if s.Mu(m).kind == Other || Grants(s.Mu(m), t) then Silent else Parked(t, M(m))
    case LockSuspend(_) => Resumed(t)
    case UnlBody(m, _) =>
      var x := s.Mu(m);
      if x.kind == Other || Inner(x) || x.queue == [] then Silent
      else Claimed(t, M(m), x.queue[..1])
    case UnlWake(_, _, q) => if q == [] then Silent else Restarted(t, q[0])
    case CondEnq(c, _, _) => Parked(t, C(c))
    case CondSuspend(_, _) => Resumed(t)
    case TimedSleep(_, _) => if t in s.pending then Resumed(t) else Silent
    case TimedCheck(c, _, signaled) => if signaled then Silent else Withdrawn(t, C(c))
    case SigBody(c, all) =>
      var q := s.Cond(c);
      Claimed(t, C(c), q[..Taken(q, all)])
    case SigWake(q) => if q == [] then Silent else Restarted(t, q[0])
    case _ => Silent
  }

  /** A timed waiter that was not signaled finds itself still on the queue. The
      code does not ensure this: see TimeoutExact. */
  predicate Clean(s: State, t: Tid) {
    match s.Pc(t)
    case TimedCheck(c, _, signaled) => !signaled ==> t in s.Cond(c)
    case _ => true
  }

  ghost predicate Legal(s: State, ms: seq<Move>) {
    ms == [] || (Legal(s, ms[..|ms|-1]) && Enabled(Exec(s, ms[..|ms|-1]), ms[|ms|-1]))
  }

  ghost function Exec(s: State, ms: seq<Move>): State {
    if ms == [] then s
    else var p := Exec(s, ms[..|ms|-1]); if Enabled(p, ms[|ms|-1]) then Step(p, ms[|ms|-1]) else p
  }

  ghost function Trace(s: State, ms: seq<Move>): seq<Event>
    requires Legal(s, ms)
  {
    if ms == [] then []
    else Trace(s, ms[..|ms|-1]) + [EventOf(Exec(s, ms[..|ms|-1]), ms[|ms|-1])]
  }

  /** A run in which no time-out races with a signal. Runs without timed waits are of this kind. */
  ghost predicate CleanRun(s: State, ms: seq<Move>) {
    ms == [] || (CleanRun(s, ms[..|ms|-1]) && Clean(Exec(s, ms[..|ms|-1]), ms[|ms|-1].t))
  }

  /** Mutexes and conditions freshly initialised with a valid kind, threads idle. */
  predicate Initial(s: State) {
    && (forall m | m in s.mutex :: s.mutex[m].kind != Other && s.mutex[m] == Mutex(s.mutex[m].kind, 0, None, []))
    && (forall c | c in s.cond :: s.cond[c] == [])
    && s.spin == map[] && s.pc == map[] && s.pending == {} && s.depth == map[]
  }
}
