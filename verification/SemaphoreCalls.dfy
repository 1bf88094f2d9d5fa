/** Calls of the semaphore functions, from the step that starts one to the step that
    ends it. */
module SemaphoreCalls {
  import opened Options
  import opened Words
  import opened Seqs
  import opened Semaphore
  import opened SemaphoreWakeups
  import opened SemaphoreCounter

  /** The events that decide a call. */
  predicate Decides(e: Event) { e.Took? || e.TryFailed? || e.Posted? || e.Overflow? || e.Got? }

  /** The latest call of a thread: the deciding events of its steps, the state in which
      the first of them was shown, how often it was suspended and resumed, and the
      threads it restarted. */
  datatype Record = Record(
    call: Call, shown: seq<Event>, when: Option<State>, parked: nat, resumed: nat, sent: seq<Tid>)

  function Next(r: Record, s: State, e: Event): Record {
    Record(r.call,
      r.shown + (if Decides(e) then [e] else []),
      if Decides(e) && r.when.None? then Some(s) else r.when,
      r.parked + (if e.Parked? then 1 else 0),
      r.resumed + (if e.Resumed? then 1 else 0),
      r.sent + (if e.Restarted? then [e.t] else []))
  }

  ghost function Latest(s0: State, ms: seq<Move>, t: Tid): Option<Record>
    requires Legal(s0, ms)
  {
    if ms == [] then None
    else
      var s, m, r := Exec(s0, ms[..|ms|-1]), ms[|ms|-1], Latest(s0, ms[..|ms|-1], t);
      if m.t != t then r
      else if s.Pc(t) == Idle then Some(Next(Record(m.call, [], None, 0, 0, []), s, EventOf(s, t, m.call)))
      else if r.None? then None
      else Some(Next(r.value, s, EventOf(s, t, m.call)))
  }

  predicate InWalk(p: Pc) { p.WalkRead? || p.WalkClear? || p.WalkRestart? }

  /** The places of a call. */
  predicate On(call: Call, p: Pc) {
    match call
    case Wait(k) => (p.WaitRead? || p.WaitLink? || p.WaitCas? || p.WaitSuspend?) && p.k == k
    case TryWait(k) => (p.TryRead? || p.TryCas?) && p.k == k
    case Post(k) => InWalk(p) || ((p.PostRead? || p.PostCas?) && p.k == k)
    case GetValue(_) => false
  }

  /** What the call answers if it is decided in state i. */
  function Answer(call: Call, i: State): Event {
    var v := Decode(i.Status(call.k));
    match call
    case Wait(k) => Took(k)
    case TryWait(k) => if v > 0 then Took(k) else TryFailed(k)
    case Post(k) => if v >= POST_LIMIT then Overflow(k) else Posted(k)
    case GetValue(k) => Got(k, v)
  }

  ghost predicate AnswerOk(r: Record, p: Pc) {
    if p == Idle || InWalk(p) then
      && r.when.Some? && r.shown == [Answer(r.call, r.when.value)]
      && (r.call.Wait? ==> Decode(r.when.value.Status(r.call.k)) > 0)
    else r.when == None && r.shown == []
  }

  predicate ParkedOk(r: Record, p: Pc) {
    r.parked == r.resumed + (if p.WaitSuspend? then 1 else 0) && (r.call.Wait? || r.parked == 0)
  }

  /** The threads it has restarted, and those it still has to. */
  ghost function All(r: Record, p: Pc, rest: seq<Tid>): seq<Tid> {
    r.sent + (if p.WalkRestart? then [p.th] else []) + rest
  }

  /** They are the threads that waited on the chain of the semaphore. */
  ghost predicate SentOk(r: Record, p: Pc, rest: seq<Tid>) {
    if r.call.Post? && r.when.Some? && r.when.value.Status(r.call.k) % 2 == 0 then
      Linked(r.when.value, r.when.value.Status(r.call.k), All(r, p, rest)) && Distinct(All(r, p, rest))
    else
      r.sent == [] && !InWalk(p)
  }

  ghost predicate CallOk(r: Record, s: State, g: Shape, t: Tid) {
    var p := s.Pc(t);
    (p == Idle || On(r.call, p)) && AnswerOk(r, p) && ParkedOk(r, p) && SentOk(r, p, g.Walk(t))
  }

  lemma Starts(s: State, g: Shape, t: Tid, call: Call)
    requires Inv(s, g) && s.Pc(t) == Idle
    ensures var r := Next(Record(call, [], None, 0, 0, []), s, EventOf(s, t, call));
      CallOk(r, Step(s, t, call), NextShape(s, g, t), t)
  {
    assert WalkOk(s, g, t);
  }

  lemma OwnPlace(r: Record, s: State, t: Tid, call: Call)
    requires Enabled(s, t) && On(r.call, s.Pc(t)) && ParkedOk(r, s.Pc(t))
    ensures var r', p' := Next(r, s, EventOf(s, t, call)), Step(s, t, call).Pc(t);
      (p' == Idle || On(r.call, p')) && ParkedOk(r', p')
  {
  }

  /** A wait or trywait returns with the step that takes a unit, a trywait also with the
      step that finds none. */
  lemma WaitAnswers(r: Record, s: State, g: Shape, t: Tid, call: Call)
    requires Enabled(s, t) && ThreadOk(s, g, t) && On(r.call, s.Pc(t)) && AnswerOk(r, s.Pc(t)) && !r.call.Post?
    ensures AnswerOk(Next(r, s, EventOf(s, t, call)), Step(s, t, call).Pc(t))
  {
  }

  /** A post is decided when its swap succeeds, or when it finds the semaphore full. */
  lemma PostAnswers(r: Record, s: State, g: Shape, t: Tid, call: Call)
    requires Enabled(s, t) && ThreadOk(s, g, t) && On(r.call, s.Pc(t)) && AnswerOk(r, s.Pc(t)) && r.call.Post?
    ensures AnswerOk(Next(r, s, EventOf(s, t, call)), Step(s, t, call).Pc(t))
  {
  }

  /** The walk of a post goes along the chain it has detached. */
  lemma WalkAll(r: Record, s: State, g: Shape, t: Tid, call: Call)
    requires Enabled(s, t) && InWalk(s.Pc(t)) && WalkOk(s, g, t)
    ensures var p', rest' := Step(s, t, call).Pc(t), NextShape(s, g, t).Walk(t);
      && All(Next(r, s, EventOf(s, t, call)), p', rest') == All(r, s.Pc(t), g.Walk(t))
      && (p' == Idle ==> rest' == [])
  {
    var c := g.Walk(t);
    if s.Pc(t).WalkClear? { assert c == [c[0]] + c[1..]; }
  }

  lemma PostDetaches(r: Record, s: State, g: Shape, t: Tid, call: Call, k: Sid)
    requires Enabled(s, t) && s.Pc(t).PostCas? && s.Pc(t).k == k && r.call == Post(k) && WalkOk(s, g, t)
    requires SemChainOk(s, g, k) && r.when == None && r.sent == []
    ensures SentOk(Next(r, s, EventOf(s, t, call)), Step(s, t, call).Pc(t), NextShape(s, g, t).Walk(t))
  {
    var r', p', rest' := Next(r, s, EventOf(s, t, call)), Step(s, t, call).Pc(t), NextShape(s, g, t).Walk(t);
    if s.Pc(t).seen == s.Status(k) && s.Status(k) % 2 == 0 { assert All(r', p', rest') == g.Sem(k); }
  }

  lemma OwnSent(r: Record, s: State, g: Shape, t: Tid, call: Call)
    requires Enabled(s, t) && CallOk(r, s, g, t) && s.Pc(t) != Idle && WalkOk(s, g, t)
    requires s.Pc(t).PostCas? ==> SemChainOk(s, g, s.Pc(t).k)
    ensures SentOk(Next(r, s, EventOf(s, t, call)), Step(s, t, call).Pc(t), NextShape(s, g, t).Walk(t))
  {
    if InWalk(s.Pc(t)) { WalkAll(r, s, g, t, call); }
    else if s.Pc(t).PostCas? { PostDetaches(r, s, g, t, call, s.Pc(t).k); }
  }

  lemma OwnStep(r: Record, s: State, g: Shape, t: Tid, call: Call)
    requires Inv(s, g) && Enabled(s, t) && CallOk(r, s, g, t) && s.Pc(t) != Idle
    ensures CallOk(Next(r, s, EventOf(s, t, call)), Step(s, t, call), NextShape(s, g, t), t)
  {
    assert WalkOk(s, g, t) && ThreadOk(s, g, t);
    assert s.Pc(t).PostCas? ==> SemChainOk(s, g, s.Pc(t).k);
    OwnPlace(r, s, t, call);
    if r.call.Post? { PostAnswers(r, s, g, t, call); } else { WaitAnswers(r, s, g, t, call); }
    OwnSent(r, s, g, t, call);
  }

  lemma {:induction false} RunCalls(s0: State, ms: seq<Move>, t: Tid) returns (g: Shape)
    requires Initial(s0) && Legal(s0, ms)
    ensures var s, r := Exec(s0, ms), Latest(s0, ms, t);
      Inv(s, g) && if r.Some? then CallOk(r.value, s, g, t) else s.Pc(t) == Idle
    decreases |ms|
  {
    if ms == [] {
      g := InitialInv(s0);
    } else {
      var ms', m := ms[..|ms|-1], ms[|ms|-1];
      var s, r := Exec(s0, ms'), Latest(s0, ms', t);
      g := RunCalls(s0, ms', t);
      StepKeepsInv(s, g, m.t, m.call);
      if m.t != t {
        OthersMove(s, m, t);
        assert NextShape(s, g, m.t).Walk(t) == g.Walk(t);
      } else if s.Pc(t) == Idle {
        Starts(s, g, t, m.call);
      } else {
        OwnStep(r.value, s, g, t, m.call);
      }
      g := NextShape(s, g, m.t);
    }
  }

  /** What every call has answered when its caller is idle again: one answer, decided by
      the value at one moment of the call. A wait has taken a unit that was there, a
      trywait has if there was one and has not waited, a post has added one unless the
      semaphore was full, and getvalue reports the value. Every wait has ended, and a post
      that found waiters has restarted exactly these, once each and in their order. */
  lemma {:induction false} CallReturns(s0: State, ms: seq<Move>, t: Tid)
    requires Initial(s0) && Legal(s0, ms) && Exec(s0, ms).Pc(t) == Idle && Latest(s0, ms, t).Some?
    ensures var r := Latest(s0, ms, t).value;
      && r.when.Some? && r.shown == [Answer(r.call, r.when.value)]
      && (r.call.Wait? ==> Decode(r.when.value.Status(r.call.k)) > 0)
      && r.parked == r.resumed && (r.call.Wait? || r.parked == 0)
      && (if r.call.Post? && r.when.value.Status(r.call.k) % 2 == 0
          then Linked(r.when.value, r.when.value.Status(r.call.k), r.sent) && Distinct(r.sent)
          else r.sent == [])
  {
    var g := RunCalls(s0, ms, t);
    var r := Latest(s0, ms, t).value;
    assert WalkOk(Exec(s0, ms), g, t);
    assert All(r, Idle, []) == r.sent;
  }

  /** The answer of a wait or a trywait is its return: as long as the call is not over,
      nothing has been taken and nothing refused. A post that has been decided and is not
      over is restarting the threads it found. */
  lemma {:induction false} AnswerIsReturn(s0: State, ms: seq<Move>, t: Tid)
    requires Initial(s0) && Legal(s0, ms) && Exec(s0, ms).Pc(t) != Idle
    ensures Latest(s0, ms, t).Some?
    ensures var r := Latest(s0, ms, t).value;
      r.shown == [] || (r.call.Post? && r.shown == [Posted(r.call.k)] && InWalk(Exec(s0, ms).Pc(t)))
  {
    var g := RunCalls(s0, ms, t);
    assert WalkOk(Exec(s0, ms), g, t);
  }
}
