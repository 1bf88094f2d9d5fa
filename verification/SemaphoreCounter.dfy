/** What callers of the semaphore operations observe over a whole run. */
module SemaphoreCounter {
  import opened Words
  import opened Semaphore
  import opened SemaphoreWakeups

  function Count(tr: seq<Event>, e: Event): nat {
    if tr == [] then 0 else Count(tr[..|tr|-1], e) + (if tr[|tr|-1] == e then 1 else 0)
  }

  /** sem_post gives up once the encoded status reaches SEM_VALUE_MAX, which is at this count. */
  const POST_LIMIT := SEM_VALUE_MAX / 2

  /** An atomic counter: what an event does to the value of semaphore k, ... */
  function Effect(k: Sid, v: int, e: Event): int {
    if e == Took(k) then v - 1 else if e == Posted(k) then v + 1 else v
  }

  /** ... and its value after a sequence of events. */
  function Value(k: Sid, v0: nat, tr: seq<Event>): int {
    if tr == [] then v0 else Effect(k, Value(k, v0, tr[..|tr|-1]), tr[|tr|-1])
  }

  /** The event is one an atomic counter with value v may show: waits succeed only
      when it is positive, a trywait fails only when it is zero, a post is refused
      exactly from POST_LIMIT on, and getvalue reports the value. */
  ghost predicate Allowed(k: Sid, v: int, e: Event) {
    match e
    case Took(j) => j == k ==> v > 0
    case TryFailed(j) => j == k ==> v == 0
    case Posted(j) => j == k ==> 0 <= v < POST_LIMIT
    case Overflow(j) => j == k ==> v >= POST_LIMIT
    case Got(j, x) => j == k ==> x == v
    case _ => true
  }

  ghost predicate Atomic(k: Sid, v0: nat, tr: seq<Event>) {
    tr == [] || (Atomic(k, v0, tr[..|tr|-1]) && Allowed(k, Value(k, v0, tr[..|tr|-1]), tr[|tr|-1]))
  }

  /** One step changes the decoded word as its event says. */
  lemma StepCounts(s: State, g: Shape, t: Tid, call: Call, k: Sid)
    requires Inv(s, g) && Enabled(s, t)
    ensures Allowed(k, Decode(s.Status(k)), EventOf(s, t, call))
    ensures Effect(k, Decode(s.Status(k)), EventOf(s, t, call)) == Decode(Step(s, t, call).Status(k))
  {
    assert ThreadOk(s, g, t);
    MoverAllowed(s, g, t, call, k);
    MoverCounts(s, g, t, call, k);
  }

  lemma MoverAllowed(s: State, g: Shape, t: Tid, call: Call, k: Sid)
    requires ThreadOk(s, g, t) && Enabled(s, t)
    ensures Allowed(k, Decode(s.Status(k)), EventOf(s, t, call))
  {
  }

  lemma MoverCounts(s: State, g: Shape, t: Tid, call: Call, k: Sid)
    requires ThreadOk(s, g, t) && Enabled(s, t)
    ensures Effect(k, Decode(s.Status(k)), EventOf(s, t, call)) == Decode(Step(s, t, call).Status(k))
  {
  }

  lemma TraceEnd(s0: State, ms: seq<Move>)
    requires Legal(s0, ms) && ms != []
    ensures var ms', m := ms[..|ms|-1], ms[|ms|-1];
      && Trace(s0, ms)[..|Trace(s0, ms)|-1] == Trace(s0, ms')
      && Trace(s0, ms)[|Trace(s0, ms)|-1] == EventOf(Exec(s0, ms'), m.t, m.call)
      && Exec(s0, ms) == Step(Exec(s0, ms'), m.t, m.call)
  {
  }

  /** Main theorem: in every run each semaphore behaves as an atomic counter whose
      operations take effect at their successful swap (or deciding read). The swap
      may succeed on a word that changed and changed back in between. */
  lemma {:induction false} RefinesCounter(s0: State, ms: seq<Move>, k: Sid)
    requires Initial(s0) && Legal(s0, ms)
    ensures var tr := Trace(s0, ms); var v0 := Decode(s0.Status(k));
      Atomic(k, v0, tr) && Value(k, v0, tr) == Decode(Exec(s0, ms).Status(k))
    decreases |ms|
  {
    if ms != [] {
      var ms', m := ms[..|ms|-1], ms[|ms|-1];
      RefinesCounter(s0, ms', k);
      var g := RunKeepsInv(s0, ms');
      StepCounts(Exec(s0, ms'), g, m.t, m.call, k);
      TraceEnd(s0, ms);
    }
  }

  lemma ValueBalance(k: Sid, v0: nat, tr: seq<Event>)
    ensures Value(k, v0, tr) + Count(tr, Took(k)) == v0 + Count(tr, Posted(k))
  {
    if tr != [] { ValueBalance(k, v0, tr[..|tr|-1]); }
  }

  /** Conservation: count plus successful waits equals initial value plus posts. */
  lemma {:induction false} Conservation(s0: State, ms: seq<Move>, k: Sid)
    requires Initial(s0) && Legal(s0, ms)
    ensures Decode(Exec(s0, ms).Status(k)) + Count(Trace(s0, ms), Took(k))
         == Decode(s0.Status(k)) + Count(Trace(s0, ms), Posted(k))
  {
    RefinesCounter(s0, ms, k);
    ValueBalance(k, Decode(s0.Status(k)), Trace(s0, ms));
  }

  /** A step suspends or resumes a thread exactly when its event says so. */
  lemma StepSuspends(s: State, g: Shape, t: Tid, call: Call, u: Tid)
    requires Inv(s, g) && Enabled(s, t)
    ensures var s', e := Step(s, t, call), EventOf(s, t, call);
      && (s'.Pc(u).WaitSuspend? <==> e == Parked(u) || (s.Pc(u).WaitSuspend? && e != Resumed(u)))
      && (e == Parked(u) ==> !s.Pc(u).WaitSuspend?)
      && (e == Resumed(u) ==> s.Pc(u).WaitSuspend?)
  {
    assert ThreadOk(s, g, t);
  }

  /** A restart finds its target suspended and not yet restarted. */
  lemma StepRestarts(s: State, g: Shape, t: Tid, call: Call, u: Tid)
    requires Inv(s, g) && Enabled(s, t)
    ensures var s', e := Step(s, t, call), EventOf(s, t, call);
      && (u in s'.pending <==> e == Restarted(u) || (u in s.pending && e != Resumed(u)))
      && (e == Restarted(u) ==> s.Pc(u).WaitSuspend? && u !in s.pending)
      && (e == Resumed(u) ==> u in s.pending)
  {
    assert WalkOk(s, g, t) && ThreadOk(s, g, u);
  }

  /** Restart tokens: each wait of a thread gets exactly one restart and each
      restart ends exactly one wait, so one non-queued signal per thread suffices. */
  lemma {:induction false} OneRestartPerWait(s0: State, ms: seq<Move>, t: Tid)
    requires Initial(s0) && Legal(s0, ms)
    ensures var s, tr := Exec(s0, ms), Trace(s0, ms);
      && Count(tr, Parked(t)) == Count(tr, Resumed(t)) + (if s.Pc(t).WaitSuspend? then 1 else 0)
      && Count(tr, Restarted(t)) == Count(tr, Resumed(t)) + (if t in s.pending then 1 else 0)
      && (t in s.pending ==> s.Pc(t).WaitSuspend?)
    decreases |ms|
  {
    if ms != [] {
      var ms', m := ms[..|ms|-1], ms[|ms|-1];
      OneRestartPerWait(s0, ms', t);
      var g := RunKeepsInv(s0, ms');
      StepSuspends(Exec(s0, ms'), g, m.t, m.call, t);
      StepRestarts(Exec(s0, ms'), g, m.t, m.call, t);
      TraceEnd(s0, ms);
    }
  }

  /** Nothing can move except by starting a new operation. */
  ghost predicate Quiescent(s: State) {
    forall t :: s.Pc(t) == Idle || !Enabled(s, t)
  }

  lemma OwingPosterRuns(s: State, g: Shape, t: Tid)
    requires Inv(s, g) && (g.At(t).OnWalk? || g.At(t).Held?)
    ensures s.Pc(g.At(t).p) != Idle && Enabled(s, g.At(t).p)
  {
    assert ThreadOk(s, g, t) && WalkOk(s, g, g.At(t).p);
  }

  /** When everything has come to rest, nobody waits on a positive semaphore. */
  lemma {:induction false} NobodyStranded(s0: State, ms: seq<Move>, t: Tid)
    requires Initial(s0) && Legal(s0, ms) && Quiescent(Exec(s0, ms))
    ensures var s := Exec(s0, ms); s.Pc(t).WaitSuspend? ==> Decode(s.Status(s.Pc(t).k)) == 0
  {
    var s := Exec(s0, ms);
    var g := RunKeepsInv(s0, ms);
    assert ThreadOk(s, g, t);
    if g.At(t).OnSem? { assert SemChainOk(s, g, g.At(t).k); }
    if g.At(t).OnWalk? || g.At(t).Held? { OwingPosterRuns(s, g, t); }
  }

  function Moves(ms: seq<Move>, p: Tid): nat {
    if ms == [] then 0 else Moves(ms[..|ms|-1], p) + (if ms[|ms|-1].t == p then 1 else 0)
  }

  lemma WalkCountdown(s: State, g: Shape, ms: seq<Move>, p: Tid) returns (g': Shape)
    requires Inv(s, g) && Legal(s, ms) && Moves(ms, p) <= WalkSteps(s, g, p)
    ensures Inv(Exec(s, ms), g')
    ensures WalkSteps(Exec(s, ms), g', p) == WalkSteps(s, g, p) - Moves(ms, p)
    decreases |ms|
  {
    if ms == [] { g' := g; }
    else {
      var ms', m := ms[..|ms|-1], ms[|ms|-1];
      g' := WalkCountdown(s, g, ms', p);
      var q := Exec(s, ms');
      StepKeepsInv(q, g', m.t, m.call);
      if m.t == p { StepShortensWalk(q, g', p, m.call); } else { StepKeepsOtherWalks(q, g', m.t, m.call, p); }
      g' := NextShape(q, g', m.t);
    }
  }

  /** Every walk of sem_post ends: a poster that has detached a chain returns after
      a number of its own steps that is fixed at that moment, whatever the others do. */
  lemma {:induction false} PostTerminates(s0: State, ms0: seq<Move>, p: Tid) returns (n: nat)
    requires Initial(s0) && Legal(s0, ms0) && Exec(s0, ms0).Pc(p).WalkRead?
    ensures forall ms :: Legal(Exec(s0, ms0), ms) && Moves(ms, p) == n ==> Exec(Exec(s0, ms0), ms).Pc(p) == Idle
  {
    var s := Exec(s0, ms0);
    var g := RunKeepsInv(s0, ms0);
    n := WalkSteps(s, g, p);
    forall ms | Legal(s, ms) && Moves(ms, p) == n ensures Exec(s, ms).Pc(p) == Idle {
      WalkLeadsToIdle(s, g, ms, p);
    }
  }

  lemma LastWalkStep(s: State, g: Shape, p: Tid, call: Call)
    requires Inv(s, g) && WalkSteps(s, g, p) == 1
    ensures Enabled(s, p) && Step(s, p, call).Pc(p) == Idle
  {
    assert WalkOk(s, g, p);
  }

  lemma WalkLeadsToIdle(s: State, g: Shape, ms: seq<Move>, p: Tid)
    requires Inv(s, g) && s.Pc(p).WalkRead? && Legal(s, ms) && Moves(ms, p) == WalkSteps(s, g, p)
    ensures Exec(s, ms).Pc(p) == Idle
    decreases |ms|
  {
    WalkIsNotOver(s, g, p);
    var ms', m := ms[..|ms|-1], ms[|ms|-1];
    if m.t == p {
      var g' := WalkCountdown(s, g, ms', p);
      LastWalkStep(Exec(s, ms'), g', p, m.call);
    } else {
      WalkLeadsToIdle(s, g, ms', p);
      OthersMove(Exec(s, ms'), m, p);
    }
  }

  lemma WalkIsNotOver(s: State, g: Shape, p: Tid)
    requires Inv(s, g) && s.Pc(p).WalkRead?
    ensures WalkSteps(s, g, p) > 0
  {
    assert WalkOk(s, g, p);
  }

  lemma OthersMove(s: State, m: Move, p: Tid)
    requires Enabled(s, m.t) && m.t != p
    ensures Step(s, m.t, m.call).Pc(p) == s.Pc(p)
  {
  }

  /** The manual lets sem_post fail only when the count would exceed SEM_VALUE_MAX.
      The code compares the encoded word instead: it fails from POST_LIMIT on. The word is
      taken as wide enough for 2 * SEM_VALUE_MAX + 1: with a 32-bit long, sem_init would
      encode a value from 2^30 on as a negative number, which this test lets pass. */
  lemma PostRefusal(s: State, t: Tid, call: Call, k: Sid, v: nat)
    requires s.Pc(t) == PostRead(k) && s.Status(k) == 2 * v + 1 && v <= SEM_VALUE_MAX
    ensures EventOf(s, t, call) == Overflow(k) <==> v >= POST_LIMIT
    ensures (EventOf(s, t, call) == Overflow(k) <==> v + 1 > SEM_VALUE_MAX) <==> v < POST_LIMIT || v == SEM_VALUE_MAX
  {
  }

  /** A list of states linked by enabled steps is a run. */
  lemma RunThrough(ss: seq<State>, ms: seq<Move>)
    requires |ss| == |ms| + 1
    requires forall i | 0 <= i < |ms| :: Enabled(ss[i], ms[i].t) && ss[i+1] == Step(ss[i], ms[i].t, ms[i].call)
    ensures Legal(ss[0], ms) && Exec(ss[0], ms) == ss[|ms|]
    decreases |ms|
  {
    if ms != [] { RunThrough(ss[..|ms|], ms[..|ms|-1]); }
  }

  /** t has stored a link since it was last restarted. */
  function Relinked(tr: seq<Event>, t: Tid): bool {
    if tr == [] then false
    else if tr[|tr|-1] == Stored(t) then true
    else if tr[|tr|-1] == Restarted(t) then false
    else Relinked(tr[..|tr|-1], t)
  }

  lemma StepLinks(s: State, g: Shape, t: Tid, call: Call, u: Tid)
    requires ThreadOk(s, g, t) && WalkOk(s, g, t) && ThreadOk(s, g, u) && Enabled(s, t)
    ensures var s', e := Step(s, t, call), EventOf(s, t, call);
      !s'.Pc(u).WaitSuspend? || u in s'.pending ==>
        if e == Stored(u) then s'.Next(u) != NULL
        else if e == Restarted(u) then s'.Next(u) == NULL
        else (!s.Pc(u).WaitSuspend? || u in s.pending) && s'.Next(u) == s.Next(u)
  {
  }

  /** enqueue expects a null link, and sem_wait does not always leave one. Outside
      a wait the link of a thread is null if and only if the thread has stored no
      link since its last restart: a push that lost its race leaves a stale one. */
  lemma {:induction false} LinkNullIff(s0: State, ms: seq<Move>, t: Tid)
    requires Initial(s0) && Legal(s0, ms)
    ensures var s := Exec(s0, ms);
      !s.Pc(t).WaitSuspend? || t in s.pending ==> (s.Next(t) == NULL <==> !Relinked(Trace(s0, ms), t))
    decreases |ms|
  {
    if ms != [] {
      var ms', m := ms[..|ms|-1], ms[|ms|-1];
      LinkNullIff(s0, ms', t);
      var g := RunKeepsInv(s0, ms');
      assert ThreadOk(Exec(s0, ms'), g, t) && ThreadOk(Exec(s0, ms'), g, m.t) && WalkOk(Exec(s0, ms'), g, m.t);
      StepLinks(Exec(s0, ms'), g, m.t, m.call, t);
      TraceEnd(s0, ms);
    }
  }

  /** t has linked itself to an empty chain when p's post makes the count one. */
  lemma LostRace(t: Tid, p: Tid) returns (s0: State, s: State, ms: seq<Move>)
    requires t != p
    ensures Initial(s0) && Legal(s0, ms) && Exec(s0, ms) == s
    ensures s.Pc(t) == WaitCas(0, 1, t) && s.Next(t) == END && s.Status(0) == 3
  {
    s0 := State(map[], map[], map[], {});
    var wait, post := Move(t, Wait(0)), Move(p, Post(0));
    var s1 := Step(s0, t, Wait(0));
    var s2 := Step(s1, t, Wait(0));
    var s3 := Step(s2, t, Wait(0));
    assert s3.Pc(t) == WaitCas(0, 1, t) && s3.Next(t) == END;
    var s4 := Step(s3, p, Post(0));
    var s5 := Step(s4, p, Post(0));
    assert s5.Pc(p) == PostCas(0, 1, 3) && s5.Pc(t) == WaitCas(0, 1, t);
    s := Step(s5, p, Post(0));
    ms := [wait, wait, wait, post, post, post];
    RunThrough([s0, s1, s2, s3, s4, s5, s], ms);
  }

  lemma Extend(s0: State, ms: seq<Move>, m: Move)
    requires Legal(s0, ms) && Enabled(Exec(s0, ms), m.t)
    ensures Legal(s0, ms + [m]) && Exec(s0, ms + [m]) == Step(Exec(s0, ms), m.t, m.call)
    ensures Trace(s0, ms + [m]) == Trace(s0, ms) + [EventOf(Exec(s0, ms), m.t, m.call)]
  {
    assert (ms + [m])[..|ms|] == ms;
  }

  /** sem_wait may return with a stale link: its push lost the race, then a unit was
      there to take. */
  lemma {:induction false} StaleLink(t: Tid, p: Tid) returns (s0: State, ms: seq<Move>)
    requires t != p
    ensures Initial(s0) && Legal(s0, ms)
    ensures var tr := Trace(s0, ms); tr != [] && tr[|tr|-1] == Took(0)
    ensures Exec(s0, ms).Pc(t) == Idle && Exec(s0, ms).Next(t) == END
  {
    var s;
    s0, s, ms := LostRace(t, p);
    var wait := Move(t, Wait(0));
    Extend(s0, ms, wait);
    Extend(s0, ms + [wait], wait);
    Extend(s0, ms + [wait] + [wait], wait);
    ms := ms + [wait] + [wait] + [wait];
  }
}
