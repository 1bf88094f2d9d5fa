/** The lock-free semaphores of semaphore.c as a step system.

    Any number of threads work on any number of semaphores. Every access to
    shared memory (a read of a status word, a compare-and-swap, a store to
    p_nextwaiting, a restart, a suspend) is one step; steps of different threads
    interleave freely. A status word is an integer, exactly as in the source:
    the odd number 2N+1 encodes the count N, an even number is the address of
    the most recent waiter. Waiters are chained through p_nextwaiting and the
    chain ends in the address 1.

    Only a restart ends a suspend, and no thread is cancelled. */
module Semaphore {

  import opened Words

  type Sid = nat

  const SEM_VALUE_MAX := 0x7fff_ffff

  /** Where a thread stands inside sem_wait, sem_trywait or sem_post. The
      parameters are the local variables of the call. */
  datatype Pc =
    | Idle
    | WaitRead(k: Sid)
    | WaitLink(k: Sid, seen: Word)
    | WaitCas(k: Sid, seen: Word, want: Word)
    | WaitSuspend(k: Sid)
    | TryRead(k: Sid)
    | TryCas(k: Sid, seen: Word, want: Word)
    | PostRead(k: Sid)
    | PostCas(k: Sid, seen: Word, want: Word)
    | WalkRead(th: Tid)
    | WalkClear(th: Tid, nx: int)
    | WalkRestart(th: Tid, nx: int)

  datatype Call = Wait(k: Sid) | TryWait(k: Sid) | Post(k: Sid) | GetValue(k: Sid)

  /** What an observer sees of a step. */
  datatype Event =
    | Silent
    | Took(k: Sid)
    | TryFailed(k: Sid)
    | Posted(k: Sid)
    | Overflow(k: Sid)
    | Got(k: Sid, value: nat)
    | Stored(t: Tid)
    | Parked(t: Tid)
    | Restarted(t: Tid)
    | Resumed(t: Tid)

  /** Shared memory and program counters. A semaphore missing from `status` was
      initialised to zero, a thread missing from `next` has a null link and one
      missing from `pc` is idle. `pending` holds the threads whose restart
      signal is pending: a set, because the signal is not queued. */
  datatype State = State(
    status: map<Sid, Word>,
    next: map<Tid, int>,
    pc: map<Tid, Pc>,
    pending: set<Tid>)
  {
    function Status(k: Sid): Word { if k in status then status[k] else 1 }
    function Next(t: Tid): int { if t in next then next[t] else NULL }
    function Pc(t: Tid): Pc { if t in pc then pc[t] else Idle }
    function Goto(t: Tid, p: Pc): State { this.(pc := pc[t := p]) }
  }

  /** The only blocking step is a suspend without a pending restart. */
  predicate Enabled(s: State, t: Tid) {
    s.Pc(t).WaitSuspend? ==> t in s.pending
  }

  /** One step of thread t; `call` is the operation an idle thread starts. */
  function Step(s: State, t: Tid, call: Call): State
    requires Enabled(s, t)
  {
    match s.Pc(t)
    case Idle =>
      (match call
       case Wait(k) => s.Goto(t, WaitRead(k))
       case TryWait(k) => s.Goto(t, TryRead(k))
       case Post(k) => s.Goto(t, PostRead(k))
       case GetValue(k) => s)
    case WaitRead(k) =>
      var seen := s.Status(k);
      if seen % 2 == 1 && seen != 1 then s.Goto(t, WaitCas(k, seen, seen - 2))
      else s.Goto(t, WaitLink(k, seen))
    case WaitLink(k, seen) =>
      s.(next := s.next[t := seen]).Goto(t, WaitCas(k, seen, t))
    case WaitCas(k, seen, want) =>
      if s.Status(k) != seen then s.Goto(t, WaitRead(k))
      else s.(status := s.status[k := want]).Goto(t, if want % 2 == 1 then Idle else WaitSuspend(k))
    case WaitSuspend(k) =>
      s.(pending := s.pending - {t}).Goto(t, WaitRead(k))
    case TryRead(k) =>
      var seen := s.Status(k);
      if seen % 2 == 0 || seen == 1 then s.Goto(t, Idle) else s.Goto(t, TryCas(k, seen, seen - 2))
    case TryCas(k, seen, want) =>
      if s.Status(k) != seen then s.Goto(t, TryRead(k))
      else s.(status := s.status[k := want]).Goto(t, Idle)
    case PostRead(k) =>
      var seen := s.Status(k);
      if seen % 2 == 0 then s.Goto(t, PostCas(k, seen, 3))
      else if seen >= SEM_VALUE_MAX then s.Goto(t, Idle)
      else s.Goto(t, PostCas(k, seen, seen + 2))
    case PostCas(k, seen, want) =>
      if s.Status(k) != seen then s.Goto(t, PostRead(k))
      else s.(status := s.status[k := want]).Goto(t, if seen % 2 == 0 then WalkRead(seen) else Idle)
    case WalkRead(th) =>
      s.Goto(t, WalkClear(th, s.Next(th)))
    case WalkClear(th, nx) =>
      s.(next := s.next[th := NULL]).Goto(t, WalkRestart(th, nx))
    case WalkRestart(th, nx) =>    // nx is END or a thread, never NULL: see SemaphoreWakeups
      s.(pending := s.pending + {th}).Goto(t, if nx >= 2 && nx % 2 == 0 then WalkRead(nx) else Idle)
  }

  /** The event of that step: counters change at the successful swap. */
  function EventOf(s: State, t: Tid, call: Call): Event
    requires Enabled(s, t)
  {
    match s.Pc(t)
    case Idle => if call.GetValue? then Got(call.k, Decode(s.Status(call.k))) else Silent
    case WaitLink(_, _) => Stored(t)
    case WaitCas(k, seen, want) =>
      if s.Status(k) != seen then Silent else if want % 2 == 1 then Took(k) else Parked(t)
    case WaitSuspend(_) => Resumed(t)
    case TryRead(k) => if s.Status(k) % 2 == 0 || s.Status(k) == 1 then TryFailed(k) else Silent
    case TryCas(k, seen, _) => if s.Status(k) == seen then Took(k) else Silent
    case PostRead(k) => if s.Status(k) % 2 == 1 && s.Status(k) >= SEM_VALUE_MAX then Overflow(k) else Silent
    case PostCas(k, seen, _) => if s.Status(k) == seen then Posted(k) else Silent
    case WalkRestart(th, _) => Restarted(th)
    case _ => Silent
  }

  /** Runs: a run is the list of moves made from an initial state. */
  datatype Move = Move(t: Tid, call: Call)

  ghost predicate Legal(s: State, ms: seq<Move>) {
    ms == [] || (Legal(s, ms[..|ms|-1]) && Enabled(Exec(s, ms[..|ms|-1]), ms[|ms|-1].t))
  }

  ghost function Exec(s: State, ms: seq<Move>): State {
    if ms == [] then s
    else
      var p, m := Exec(s, ms[..|ms|-1]), ms[|ms|-1];
      if Enabled(p, m.t) then Step(p, m.t, m.call) else p
  }

  ghost function Trace(s: State, ms: seq<Move>): seq<Event>
    requires Legal(s, ms)
  {
    if ms == [] then []
    else
      var p, m := Exec(s, ms[..|ms|-1]), ms[|ms|-1];
      Trace(s, ms[..|ms|-1]) + [EventOf(p, m.t, m.call)]
  }

  /** sem_init: a value above SEM_VALUE_MAX is refused, and so is sharing
      between processes. */
  datatype InitResult = Ok(status: Word) | Einval | Enosys

  function SemInit(pshared: bool, value: nat): (r: InitResult)
    ensures r.Ok? <==> !pshared && value <= SEM_VALUE_MAX
    ensures r.Ok? ==> Decode(r.status) == value
  {
    if value > SEM_VALUE_MAX then Einval
    else if pshared then Enosys
    else Ok(2 * value + 1)
  }

  /** All semaphores initialised by sem_init, all threads idle. */
  predicate Initial(s: State) {
    && (forall k | k in s.status ::
          exists v: nat :: v <= SEM_VALUE_MAX && SemInit(false, v) == Ok(s.status[k]))
    && s.next == map[] && s.pc == map[] && s.pending == {}
  }
}
