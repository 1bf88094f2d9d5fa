/** Calls of the mutex and condition functions, from the move that starts one to the
    move that ends it: what the caller can rely on when it returns. */
module LocksCalls {
  import opened Options
  import opened Seqs
  import opened Locks
  import opened LocksCore
  import opened LocksInvariant
  import opened LocksTheorems

  /** The latest call of a thread: the state it was made in, the restarts it has sent,
      the queues it has joined, how many of these waits have ended, and, for each
      spinlock, the state in which the caller made its first step as its holder. */
  datatype Record = Record(
    call: Call, from: State, sent: seq<Tid>, parked: seq<Obj>, ended: nat, inside: map<Obj, State>)

  function Next(r: Record, s: State, t: Tid, e: Event): Record {
    var o := Crit(s.Pc(t));
    Record(r.call, r.from,
      r.sent + (if e.Restarted? then [e.t] else []),
      r.parked + (if e.Parked? then [e.at] else []),
      r.ended + (if e.Resumed? || e.Withdrawn? then 1 else 0),
      if o.Some? && o.value !in r.inside then r.inside[o.value := s] else r.inside)
  }

  ghost function Latest(s0: State, ms: seq<Move>, t: Tid): Option<Record>
    requires Legal(s0, ms)
  {
    if ms == [] then None
    else
      var s, mv, r := Exec(s0, ms[..|ms|-1]), ms[|ms|-1], Latest(s0, ms[..|ms|-1], t);
      if mv.t != t then r
      else if s.Pc(t) == Idle then Some(Next(Record(mv.call, s, [], [], 0, map[]), s, t, EventOf(s, mv)))
      else if r.None? then None
      else Some(Next(r.value, s, t, EventOf(s, mv)))
  }

  predicate InLock(p: Pc, m: Mid) { (p.LockAcq? || p.LockBody? || p.LockRel? || p.LockSuspend?) && p.m == m }

  predicate InUnlock(p: Pc, m: Mid, k: Cont) {
    (p.UnlAcq? || p.UnlBody? || p.UnlRel? || p.UnlWake?) && p.m == m && p.k == k
  }

  predicate InSleep(p: Pc, c: Cid, m: Mid, timed: bool) {
    if timed then (p.TimedSleep? || p.TimedAcq? || p.TimedCheck? || p.TimedRel?) && p.c == c && p.m == m
    else p == CondSuspend(c, m)
  }

  predicate InSignal(p: Pc, c: Cid, all: bool) {
    p == SigAcq(c, all) || p == SigBody(c, all) || (p.SigRel? && p.c == c) || p.SigWake?
  }

  /** The places of a call. */
  predicate On(call: Call, p: Pc) {
    match call
    case Lock(m) => InLock(p, m)
    case TryLock(m) => p == TryAcq(m) || p == TryBody(m) || p == TryRel(m)
    case Unlock(m) => InUnlock(p, m, Return)
    case CondWait(c, m, timed) =>
      || p == CondAcq(c, m, timed) || p == CondEnq(c, m, timed) || p == CondRel(c, m, timed)
      || InUnlock(p, m, ThenWait(c, timed)) || InSleep(p, c, m, timed) || InLock(p, m)
    case Signal(c) => InSignal(p, c, false)
    case Broadcast(c) => InSignal(p, c, true)
  }

  /** The object whose queue the call is about, and whether the caller has already had
      its first look at it. */
  function Object(call: Call): Obj {
    match call
    case Lock(m) => M(m)
    case TryLock(m) => M(m)
    case Unlock(m) => M(m)
    case CondWait(_, m, _) => M(m)
    case Signal(c) => C(c)
    case Broadcast(c) => C(c)
  }

  predicate Looked(p: Pc) {
    !(p.TryAcq? || p.TryBody? || p.UnlAcq? || p.UnlBody? || p.CondAcq? || p.CondEnq? || p.CondRel?
      || p.SigAcq? || p.SigBody?)
  }

  predicate LookOk(r: Record, p: Pc) {
    !r.call.Lock? ==> (Object(r.call) in r.inside <==> Looked(p))
  }

  ghost predicate InsideOk(r: Record, t: Tid) {
    forall o | o in r.inside :: o in r.inside[o].spin && r.inside[o].spin[o] == t
  }

  /** Inside a wait, the mutex is not held. */
  predicate Without(p: Pc) {
    || p.UnlRel? || p.UnlWake? || p.CondSuspend? || p.TimedSleep? || p.TimedAcq? || p.TimedCheck? || p.TimedRel?
    || p.LockAcq? || p.LockBody? || p.LockSuspend? || (p.LockRel? && !p.got)
  }

  /** How the caller's depth in m differs from what it was at the call. */
  function Gain(r: Record, p: Pc, t: Tid, m: Mid): int {
    match r.call
    case Lock(x) => if x == m && (p == LockRel(m, true) || p == Idle) then 1 else 0
    case TryLock(x) => if x == m && M(m) in r.inside && Open(r.inside[M(m)], m, t) then 1 else 0
    case Unlock(x) => if x == m && Looked(p) then -1 else 0
    case CondWait(_, x, _) => if x == m && Without(p) then -1 else 0
    case _ => 0
  }

  predicate DepthOk(r: Record, s: State, t: Tid, m: Mid) {
    s.Depth(m, t) == r.from.Depth(m, t) + Gain(r, s.Pc(t), t, m)
  }

  /** Whom an unlock of m restarts: its first waiter, if it is the outermost. */
  function Woken(i: State, m: Mid, t: Tid): seq<Tid> {
    if i.Depth(m, t) == 1 then Share(i.Mu(m).queue, false) else []
  }

  /** Whom the call is to restart, given what its caller found. */
  function Due(call: Call, i: State, t: Tid): seq<Tid> {
    match call
    case Lock(_) => []
    case TryLock(_) => []
    case Unlock(m) => Woken(i, m, t)
    case CondWait(_, m, _) => Woken(i, m, t)
    case Signal(c) => Share(i.Cond(c), false)
    case Broadcast(c) => i.Cond(c)
  }

  predicate SentOk(r: Record, p: Pc, t: Tid) {
    if Object(r.call) in r.inside then r.sent + Owed(p) == Due(r.call, r.inside[Object(r.call)], t) else r.sent == []
  }

  /** The waits of the call, each on the queue it should be on, and all but the current
      one ended. */
  predicate ParkedOk(r: Record, p: Pc) {
    && r.ended + (if Waits(p).Some? then 1 else 0) == |r.parked|
    && match r.call
       case Lock(m) => forall i | 0 <= i < |r.parked| :: r.parked[i] == M(m)
       case CondWait(c, m, _) =>
         if p.CondAcq? || p.CondEnq? then r.parked == []
         else r.parked != [] && r.parked[0] == C(c) && forall i | 1 <= i < |r.parked| :: r.parked[i] == M(m)
       case _ => r.parked == []
  }

  /** A lock waits if and only if its first look finds the mutex taken. */
  predicate FirstLookOk(r: Record, p: Pc, t: Tid) {
    r.call.Lock? ==>
      var o := M(r.call.m);
      && (o in r.inside ==> (r.parked == [] <==> Open(r.inside[o], r.call.m, t)))
      && (o in r.inside <==> r.parked != [] || !(p.LockAcq? || p.LockBody?))
  }

  ghost predicate StoryOk(r: Record, p: Pc, t: Tid) {
    && (p == Idle || On(r.call, p)) && LookOk(r, p) && InsideOk(r, t) && SentOk(r, p, t) && ParkedOk(r, p)
    && FirstLookOk(r, p, t)
  }

  ghost predicate CallOk(r: Record, s: State, t: Tid) {
    StoryOk(r, s.Pc(t), t) && forall m :: DepthOk(r, s, t, m)
  }

  lemma Starts(s: State, mv: Move)
    requires Enabled(s, mv) && s.Pc(mv.t) == Idle
    ensures CallOk(Next(Record(mv.call, s, [], [], 0, map[]), s, mv.t, EventOf(s, mv)), Step(s, mv), mv.t)
  {
  }

  lemma OwnPlace(r: Record, s: State, mv: Move)
    requires Enabled(s, mv) && KindOk(s, s.Pc(mv.t)) && On(r.call, s.Pc(mv.t))
    ensures Target(s, mv) == Idle || On(r.call, Target(s, mv))
  {
  }

  lemma OwnLook(r: Record, s: State, mv: Move)
    requires Enabled(s, mv) && KindOk(s, s.Pc(mv.t)) && On(r.call, s.Pc(mv.t)) && LookOk(r, s.Pc(mv.t))
    ensures LookOk(Next(r, s, mv.t, EventOf(s, mv)), Target(s, mv))
  {
  }

  /** What an unlock owes after its body. */
  lemma UnlockOwes(s: State, h: map<Mid, Tid>, mv: Move, m: Mid)
    requires CountOk(s, h, m) && NeedOk(s, mv.t) && s.Pc(mv.t).UnlBody? && s.Pc(mv.t).m == m
    ensures Owed(Target(s, mv)) == Woken(s, m, mv.t) && !EventOf(s, mv).Restarted?
  {
    var q := s.Mu(m).queue;
    if q != [] { assert q[..1] == [q[0]]; }
  }

  /** A step that is nobody's first look: what it sends it no longer owes. */
  lemma SendsOwed(s: State, mv: Move)
    requires Enabled(s, mv) && KindOk(s, s.Pc(mv.t)) && !s.Pc(mv.t).UnlBody? && !s.Pc(mv.t).SigBody?
    ensures var e := EventOf(s, mv);
      Owed(s.Pc(mv.t)) == (if e.Restarted? then [e.t] else []) + Owed(Target(s, mv))
  {
  }

  /** The first look of an unlock, a signal or a broadcast says what it owes. */
  lemma LookSent(r: Record, s: State, mv: Move, q: seq<Tid>)
    requires Enabled(s, mv) && On(r.call, s.Pc(mv.t)) && LookOk(r, s.Pc(mv.t)) && SentOk(r, s.Pc(mv.t), mv.t)
    requires s.Pc(mv.t).UnlBody? || s.Pc(mv.t).SigBody?
    requires q == Due(r.call, s, mv.t) && Owed(Target(s, mv)) == q && !EventOf(s, mv).Restarted?
    ensures SentOk(Next(r, s, mv.t, EventOf(s, mv)), Target(s, mv), mv.t)
  {
  }

  /** Other steps leave what is due as it was. */
  lemma SameDue(r: Record, s: State, t: Tid, e: Event)
    requires On(r.call, s.Pc(t)) && LookOk(r, s.Pc(t)) && !s.Pc(t).UnlBody? && !s.Pc(t).SigBody?
    ensures var o, i, i' := Object(r.call), r.inside, Next(r, s, t, e).inside;
      if o in i then o in i' && i'[o] == i[o] else o in i' ==> r.call.Lock? || r.call.TryLock?
  {
  }

  lemma SentOn(r: Record, r': Record, p: Pc, p': Pc, t: Tid, n: seq<Tid>)
    requires SentOk(r, p, t) && r'.call == r.call && r'.sent == r.sent + n && Owed(p) == n + Owed(p')
    requires var o, i, i' := Object(r.call), r.inside, r'.inside;
      if o in i then o in i' && i'[o] == i[o]
      else n == [] && Owed(p') == [] && (o in i' ==> r.call.Lock? || r.call.TryLock?)
    ensures SentOk(r', p', t)
  {
    assert r.sent + Owed(p) == r'.sent + Owed(p');
  }

  lemma NothingOwedYet(r: Record, p: Pc)
    requires On(r.call, p) && LookOk(r, p)
    ensures Object(r.call) !in r.inside ==> Owed(p) == []
  {
  }

  lemma OwnSent(r: Record, s: State, mv: Move)
    requires Enabled(s, mv) && KindOk(s, s.Pc(mv.t)) && On(r.call, s.Pc(mv.t))
    requires LookOk(r, s.Pc(mv.t)) && SentOk(r, s.Pc(mv.t), mv.t) && !s.Pc(mv.t).UnlBody?
    ensures SentOk(Next(r, s, mv.t, EventOf(s, mv)), Target(s, mv), mv.t)
  {
    var t, p, e := mv.t, s.Pc(mv.t), EventOf(s, mv);
    if p.SigBody? {
      TakesItsShare(s, mv, p.c, p.all);
      LookSent(r, s, mv, Share(s.Cond(p.c), p.all));
    } else {
      SendsOwed(s, mv);
      SameDue(r, s, t, e);
      NothingOwedYet(r, p);
      SentOn(r, Next(r, s, t, e), p, Target(s, mv), t, if e.Restarted? then [e.t] else []);
    }
  }

  lemma UnlockSent(r: Record, s: State, h: map<Mid, Tid>, mv: Move, m: Mid)
    requires Enabled(s, mv) && On(r.call, s.Pc(mv.t)) && LookOk(r, s.Pc(mv.t)) && SentOk(r, s.Pc(mv.t), mv.t)
    requires s.Pc(mv.t).UnlBody? && s.Pc(mv.t).m == m && CountOk(s, h, m) && NeedOk(s, mv.t)
    ensures SentOk(Next(r, s, mv.t, EventOf(s, mv)), Target(s, mv), mv.t)
  {
    UnlockOwes(s, h, mv, m);
    LookSent(r, s, mv, Woken(s, m, mv.t));
  }

  lemma OwnParked(r: Record, s: State, mv: Move)
    requires Enabled(s, mv) && KindOk(s, s.Pc(mv.t)) && On(r.call, s.Pc(mv.t)) && ParkedOk(r, s.Pc(mv.t))
    ensures ParkedOk(Next(r, s, mv.t, EventOf(s, mv)), Target(s, mv))
  {
    StepWaits(s, mv);
  }

  /** What a step does to the depth of its thread in m. */
  function Change(s: State, t: Tid, m: Mid): int {
    var p := s.Pc(t);
    if p == LockBody(m) || p == TryBody(m) then if Open(s, m, t) then 1 else 0
    else if p.UnlBody? && p.m == m then -1
    else 0
  }

  lemma StepChange(s: State, h: map<Mid, Tid>, mv: Move, m: Mid)
    requires CountOk(s, h, m) && NeedOk(s, mv.t) && Enabled(s, mv)
    ensures Step(s, mv).Depth(m, mv.t) == s.Depth(m, mv.t) + Change(s, mv.t, m)
    ensures s.Pc(mv.t) == LockBody(m) ==> Target(s, mv) == LockRel(m, Open(s, m, mv.t))
  {
    var p := s.Pc(mv.t);
    if !((p.LockBody? || p.TryBody? || p.UnlBody?) && p.m == m) { CountsUntouched(s, mv, m); }
  }

  lemma GainStep(r: Record, s: State, mv: Move, m: Mid)
    requires Enabled(s, mv) && KindOk(s, s.Pc(mv.t)) && On(r.call, s.Pc(mv.t)) && LookOk(r, s.Pc(mv.t))
    requires s.Pc(mv.t) == LockBody(m) ==> Target(s, mv) == LockRel(m, Open(s, m, mv.t))
    ensures Gain(Next(r, s, mv.t, EventOf(s, mv)), Target(s, mv), mv.t, m)
      == Gain(r, s.Pc(mv.t), mv.t, m) + Change(s, mv.t, m)
  {
  }

  lemma OwnDepths(r: Record, s: State, h: map<Mid, Tid>, mv: Move)
    requires (forall m :: CountOk(s, h, m)) && NeedOk(s, mv.t) && Enabled(s, mv) && KindOk(s, s.Pc(mv.t))
    requires On(r.call, s.Pc(mv.t)) && LookOk(r, s.Pc(mv.t)) && forall m :: DepthOk(r, s, mv.t, m)
    ensures forall m :: DepthOk(Next(r, s, mv.t, EventOf(s, mv)), Step(s, mv), mv.t, m)
  {
    var r' := Next(r, s, mv.t, EventOf(s, mv));
    forall m ensures DepthOk(r', Step(s, mv), mv.t, m) {
      assert DepthOk(r, s, mv.t, m) && CountOk(s, h, m);
      StepChange(s, h, mv, m);
      GainStep(r, s, mv, m);
    }
  }

  lemma OwnFirstLook(r: Record, s: State, mv: Move)
    requires Enabled(s, mv) && KindOk(s, s.Pc(mv.t)) && On(r.call, s.Pc(mv.t))
    requires FirstLookOk(r, s.Pc(mv.t), mv.t) && ParkedOk(r, s.Pc(mv.t))
    requires s.Pc(mv.t).LockBody? ==> Target(s, mv) == LockRel(s.Pc(mv.t).m, Open(s, s.Pc(mv.t).m, mv.t))
    ensures FirstLookOk(Next(r, s, mv.t, EventOf(s, mv)), Target(s, mv), mv.t)
  {
  }

  lemma OwnStory(r: Record, s: State, h: map<Mid, Tid>, mv: Move)
    requires Enabled(s, mv) && s.Pc(mv.t) != Idle && StoryOk(r, s.Pc(mv.t), mv.t)
    requires KindOk(s, s.Pc(mv.t)) && CritOk(s, mv.t) && NeedOk(s, mv.t)
    requires s.Pc(mv.t).UnlBody? || s.Pc(mv.t).LockBody? ==> CountOk(s, h, s.Pc(mv.t).m)
    ensures StoryOk(Next(r, s, mv.t, EventOf(s, mv)), Target(s, mv), mv.t)
  {
    OwnPlace(r, s, mv);
    OwnLook(r, s, mv);
    if s.Pc(mv.t).UnlBody? { UnlockSent(r, s, h, mv, s.Pc(mv.t).m); } else { OwnSent(r, s, mv); }
    OwnParked(r, s, mv);
    if s.Pc(mv.t).LockBody? { StepChange(s, h, mv, s.Pc(mv.t).m); }
    OwnFirstLook(r, s, mv);
  }

  lemma OwnStep(r: Record, s: State, h: map<Mid, Tid>, mv: Move)
    requires Core(s, h) && Enabled(s, mv) && s.Pc(mv.t) != Idle && CallOk(r, s, mv.t)
    ensures CallOk(Next(r, s, mv.t, EventOf(s, mv)), Step(s, mv), mv.t)
  {
    var p := s.Pc(mv.t);
    KindsAreOk(s, h, mv.t);
    assert CritOk(s, mv.t) && NeedOk(s, mv.t);
    assert p.UnlBody? || p.LockBody? ==> CountOk(s, h, p.m);
    OwnStory(r, s, h, mv);
    OwnDepths(r, s, h, mv);
  }

  lemma OthersStep(r: Record, s: State, mv: Move, t: Tid)
    requires Enabled(s, mv) && mv.t != t && CallOk(r, s, t)
    ensures CallOk(r, Step(s, mv), t)
  {
    OthersStay(s, mv, t);
    forall m ensures DepthOk(r, Step(s, mv), t, m) { assert DepthOk(r, s, t, m); }
  }

  lemma {:induction false} RunCalls(s0: State, ms: seq<Move>, t: Tid)
    requires Initial(s0) && Legal(s0, ms)
    ensures var s, r := Exec(s0, ms), Latest(s0, ms, t);
      if r.Some? then CallOk(r.value, s, t) else s.Pc(t) == Idle
    decreases |ms|
  {
    if ms != [] {
      var ms', mv := ms[..|ms|-1], ms[|ms|-1];
      var s, r := Exec(s0, ms'), Latest(s0, ms', t);
      RunCalls(s0, ms', t);
      var h := RunKeepsCore(s0, ms');
      if mv.t != t {
        OthersStay(s, mv, t);
        if r.Some? { OthersStep(r.value, s, mv, t); }
      } else if s.Pc(t) == Idle {
        Starts(s, mv);
      } else {
        OwnStep(r.value, s, h, mv);
      }
    }
  }

  /** What a call has done when its caller is idle again. */
  ghost predicate Done(r: Record, s: State, t: Tid) {
    match r.call
    case Lock(m) =>
      && M(m) in r.inside && (r.parked == [] <==> Open(r.inside[M(m)], m, t)) && r.sent == []
      && (forall i | 0 <= i < |r.parked| :: r.parked[i] == M(m))
      && s.Depth(m, t) == r.from.Depth(m, t) + 1
    case TryLock(m) =>
      && M(m) in r.inside && r.parked == [] && r.sent == []
      && s.Depth(m, t) == r.from.Depth(m, t) + if Open(r.inside[M(m)], m, t) then 1 else 0
    case Unlock(m) =>
      && M(m) in r.inside && r.parked == [] && r.sent == Woken(r.inside[M(m)], m, t)
      && s.Depth(m, t) == r.from.Depth(m, t) - 1
    case CondWait(c, m, _) =>
      && M(m) in r.inside && r.sent == Woken(r.inside[M(m)], m, t)
      && r.parked != [] && r.parked[0] == C(c) && (forall i | 1 <= i < |r.parked| :: r.parked[i] == M(m))
      && s.Depth(m, t) == r.from.Depth(m, t)
    case Signal(c) =>
      && C(c) in r.inside && r.parked == []
      && r.sent == var q := r.inside[C(c)].Cond(c); if q == [] then [] else [q[0]]
    case Broadcast(c) =>
      && C(c) in r.inside && r.parked == []
      && r.sent == r.inside[C(c)].Cond(c)
  }

  lemma CallDone(r: Record, s: State, t: Tid)
    requires CallOk(r, s, t) && s.Pc(t) == Idle
    ensures Done(r, s, t) && r.ended == |r.parked|
    ensures forall m | M(m) != Object(r.call) :: s.Depth(m, t) == r.from.Depth(m, t)
  {
    assert r.sent + [] == r.sent;
    forall m ensures s.Depth(m, t) == r.from.Depth(m, t) + Gain(r, Idle, t, m) { assert DepthOk(r, s, t, m); }
  }

  /** What every call has done when its caller is idle again, whatever the other threads
      have been doing. A lock has entered the mutex once more, and has waited for it if and
      only if it did not find it open at first. A trylock has entered it if and only if it
      found it open, and has not waited. An unlock has left it once and restarted
      the first waiter if that was the last time. A wait has left the mutex, joined the
      queue of the condition and, at the end, entered the mutex again, as deep as before. A
      signal has restarted the first thread on the queue of its condition, a broadcast all
      of them in order. Every wait has ended, nobody else has been restarted, and no other
      mutex has been entered or left. What the caller found, it found while it held the
      spinlock. */
  lemma {:induction false} CallReturns(s0: State, ms: seq<Move>, t: Tid)
    requires Initial(s0) && Legal(s0, ms) && Exec(s0, ms).Pc(t) == Idle && Latest(s0, ms, t).Some?
    ensures var s, r := Exec(s0, ms), Latest(s0, ms, t).value;
      && Done(r, s, t) && r.ended == |r.parked|
      && (forall m | M(m) != Object(r.call) :: s.Depth(m, t) == r.from.Depth(m, t))
      && (forall o | o in r.inside :: o in r.inside[o].spin && r.inside[o].spin[o] == t)
  {
    RunCalls(s0, ms, t);
    CallDone(Latest(s0, ms, t).value, Exec(s0, ms), t);
  }

  /** While p holds the spinlock of a condition nobody else changes its queue. */
  lemma QueueGuarded(s: State, h: map<Mid, Tid>, mv: Move, p: Tid, c: Cid, all: bool)
    requires Core(s, h) && Enabled(s, mv) && s.Pc(p) == SigBody(c, all) && mv.t != p
    ensures Step(s, mv).Cond(c) == s.Cond(c)
  {
    assert CritOk(s, p) && CritOk(s, mv.t);
  }

  /** Where p stands in a call that finds the queue q, with what it has sent in all and
      what it had sent before: about to take its share, or with the rest still to send. */
  ghost predicate Calling(s: State, p: Tid, c: Cid, all: bool, q: seq<Tid>, before: seq<Tid>, sent: seq<Tid>) {
    || (s.Pc(p) == SigBody(c, all) && s.Cond(c) == q && sent == before)
    || ((s.Pc(p).SigRel? || s.Pc(p).SigWake?) && sent + Owed(s.Pc(p)) == before + Share(q, all))
  }

  lemma CallingOn(s: State, h: map<Mid, Tid>, mv: Move, p: Tid, c: Cid, all: bool, q: seq<Tid>,
                  before: seq<Tid>, sent: seq<Tid>)
    requires Core(s, h) && Enabled(s, mv) && Calling(s, p, c, all, q, before, sent)
    ensures var s', e := Step(s, mv), EventOf(s, mv);
      var sent' := sent + if e.Restarted? && e.p == p then [e.t] else [];
      if s'.Pc(p) == Idle then sent' == before + Share(q, all) else Calling(s', p, c, all, q, before, sent')
  {
    KindsAreOk(s, h, mv.t);
    if mv.t != p {
      OthersWait(s, mv, p);
      if s.Pc(p).SigBody? { QueueGuarded(s, h, mv, p, c, all); }
      OthersSend(s, mv, p);
    } else if s.Pc(p).SigBody? {
      TakesItsShare(s, mv, c, all);
    } else {
      SendsOne(s, mv, p, sent, before + Share(q, all));
    }
  }

  /** After taking its share, a caller sends the restarts it owes, one by one. */
  lemma SendsOne(s: State, mv: Move, p: Tid, sent: seq<Tid>, due: seq<Tid>)
    requires Enabled(s, mv) && mv.t == p && (s.Pc(p).SigRel? || s.Pc(p).SigWake?) && sent + Owed(s.Pc(p)) == due
    ensures var p', e := Step(s, mv).Pc(p), EventOf(s, mv);
      && (p' == Idle || p'.SigWake?) && !e.Claimed?
      && (sent + if e.Restarted? && e.p == p then [e.t] else []) + Owed(p') == due
  {
  }

  lemma OthersSend(s: State, mv: Move, p: Tid)
    requires Enabled(s, mv) && mv.t != p
    ensures var e := EventOf(s, mv); e.Restarted? || e.Claimed? ==> e.p != p
  {
  }

  /** The call p is in does not return before the end of the run ks. */
  ghost predicate NotYetOver(s0: State, ms: seq<Move>, ks: seq<Move>, p: Tid) {
    ks == [] || (NotYetOver(s0, ms, ks[..|ks|-1], p) && Exec(s0, ms + ks[..|ks|-1]).Pc(p) != Idle)
  }

  lemma {:induction false} LegalBefore(s0: State, ms: seq<Move>, mv: Move)
    requires Legal(s0, ms + [mv])
    ensures Legal(s0, ms) && Enabled(Exec(s0, ms), mv) && Exec(s0, ms + [mv]) == Step(Exec(s0, ms), mv)
  {
    assert (ms + [mv])[..|ms|] == ms;
  }

  lemma {:induction false} SentMore(s0: State, ms: seq<Move>, mv: Move, p: Tid)
    requires Legal(s0, ms + [mv]) && Legal(s0, ms) && Enabled(Exec(s0, ms), mv)
    ensures var e := EventOf(Exec(s0, ms), mv);
      Sent(Trace(s0, ms + [mv]), p) == Sent(Trace(s0, ms), p) + if e.Restarted? && e.p == p then [e.t] else []
  {
    assert (ms + [mv])[..|ms|] == ms;
    TraceEnd(s0, ms + [mv]);
  }

  lemma {:induction false} CallProgress(s0: State, ms: seq<Move>, ks: seq<Move>, p: Tid, c: Cid, all: bool)
    requires Initial(s0) && Legal(s0, ms) && Legal(s0, ms + ks) && Exec(s0, ms).Pc(p) == SigBody(c, all)
    requires NotYetOver(s0, ms, ks, p)
    ensures var s, q := Exec(s0, ms + ks), Exec(s0, ms).Cond(c);
      var before, sent := Sent(Trace(s0, ms), p), Sent(Trace(s0, ms + ks), p);
      if s.Pc(p) == Idle then sent == before + Share(q, all) else Calling(s, p, c, all, q, before, sent)
    decreases |ks|
  {
    if ks == [] {
      assert ms + ks == ms;
    } else {
      var ks', mv := ks[..|ks|-1], ks[|ks|-1];
      assert ms + ks == (ms + ks') + [mv];
      LegalBefore(s0, ms + ks', mv);
      CallProgress(s0, ms, ks', p, c, all);
      var h := RunKeepsCore(s0, ms + ks');
      SentMore(s0, ms + ks', mv, p);
      CallingOn(Exec(s0, ms + ks'), h, mv, p, c, all, Exec(s0, ms).Cond(c),
                Sent(Trace(s0, ms), p), Sent(Trace(s0, ms + ks'), p));
    }
  }

  /** A broadcast wakes exactly the threads that were queued while it held the spinlock,
      in their order; a signal the first of them. Whatever the others do, from any moment
      at which p has got the spinlock of c in a call of signal or broadcast, and has not
      used it yet, until that call returns, p sends these restarts and no other. No thread
      is named twice, if no time-out has raced with a signal. */
  lemma {:induction false} WakesExactlyTheQueued(s0: State, ms: seq<Move>, ks: seq<Move>, p: Tid, c: Cid, r: Record)
    requires Initial(s0) && Legal(s0, ms) && Legal(s0, ms + ks) && Latest(s0, ms, p) == Some(r)
    requires Exec(s0, ms).Pc(p) != Idle && (r.call == Signal(c) || r.call == Broadcast(c))
    requires C(c) in Exec(s0, ms).spin && Exec(s0, ms).spin[C(c)] == p && C(c) !in r.inside
    requires NotYetOver(s0, ms, ks, p) && Exec(s0, ms + ks).Pc(p) == Idle
    ensures var q := Exec(s0, ms).Cond(c);
      && Sent(Trace(s0, ms + ks), p) ==
           Sent(Trace(s0, ms), p) + (if r.call == Broadcast(c) || q == [] then q else [q[0]])
      && (CleanRun(s0, ms) ==> Distinct(q))
  {
    var h := RunKeepsCore(s0, ms);
    RunCalls(s0, ms, p);
    assert SpinOk(Exec(s0, ms), C(c));
    CallProgress(s0, ms, ks, p, c, r.call.Broadcast?);
    if CleanRun(s0, ms) {
      var g := RunKeepsInv(s0, ms);
      assert QueueOk(Exec(s0, ms), g, C(c));
    }
  }
}
