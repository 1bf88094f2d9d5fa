/** What creation, joining, reaping and the exit of the main thread guarantee, over
    all runs and for all clients. */
module LifecycleTheorems {
  import opened Options
  import opened Lifecycle
  import opened LifecycleInvariant

  lemma TraceEnd(ms: seq<Move>)
    requires Legal(INITIAL, ms) && ms != []
    ensures var ms', mv, tr := ms[..|ms|-1], ms[|ms|-1], Trace(INITIAL, ms);
      && tr != [] && tr[..|tr|-1] == Trace(INITIAL, ms')
      && tr[|tr|-1] == EventOf(Exec(INITIAL, ms'), mv)
      && Exec(INITIAL, ms) == Step(Exec(INITIAL, ms'), mv)
  {
  }

  /** The value a thread terminated with, if it has. */
  function ExitValue(tr: seq<Event>, t: Tid): Option<Val> {
    if tr == [] then None
    else
      var e := tr[|tr|-1];
      if e.Exited? && e.t == t then Some(e.v) else ExitValue(tr[..|tr|-1], t)
  }

  /** The part of a descriptor that carries values: only termination and the
      manager's answer write it. */
  function Values(d: Desc): Desc { d.(spin := None, detached := false, exited := false, joining := None) }

  lemma GoValues(s: State, t: Tid, call: Call, u: Tid)
    requires Enabled(s, Go(t, call)) && !(s.Pc(t).ExitBody? && u == t)
    ensures Values(Step(s, Go(t, call)).D(u)) == Values(s.D(u))
  {
  }

  lemma ManageValues(s: State, child: Tid, ok: bool, u: Tid)
    requires ProcOk(s, child) && Enabled(s, Manage(child, ok)) && !(s.mgr.MkReply? && u == s.mgr.t)
    ensures var d := Values(Step(s, Manage(child, ok)).D(u)); d == Values(s.D(u))
  {
  }

  lemma GoExits(s: State, u: Tid, call: Call, t: Tid)
    requires Enabled(s, Go(u, call)) && ProcOk(s, u)
    ensures var s', e := Step(s, Go(u, call)), EventOf(s, Go(u, call));
      if e.Exited? && e.t == t then s'.D(t).terminated && s'.D(t).retval == e.v
      else s'.D(t).terminated == s.D(t).terminated && (s.D(t).terminated ==> s'.D(t).retval == s.D(t).retval)
  {
    if !(s.Pc(u).ExitBody? && u == t) { GoValues(s, u, call, t); }
  }

  lemma ManageExits(s: State, child: Tid, ok: bool, t: Tid)
    requires Enabled(s, Manage(child, ok)) && CreatorOk(s, t) && ProcOk(s, t) && ProcOk(s, child)
    ensures var s' := Step(s, Manage(child, ok));
      && !EventOf(s, Manage(child, ok)).Exited?
      && s'.D(t).terminated == s.D(t).terminated && (s.D(t).terminated ==> s'.D(t).retval == s.D(t).retval)
  {
    if !(s.mgr.MkReply? && t == s.mgr.t) { ManageValues(s, child, ok, t); }
  }

  lemma StepExits(s: State, mv: Move, t: Tid)
    requires Inv(s) && Enabled(s, mv)
    ensures var s', e := Step(s, mv), EventOf(s, mv);
      if e.Exited? && e.t == t then s'.D(t).terminated && s'.D(t).retval == e.v
      else s'.D(t).terminated == s.D(t).terminated && (s.D(t).terminated ==> s'.D(t).retval == s.D(t).retval)
  {
    match mv
    case Go(u, call) => assert ProcOk(s, u); GoExits(s, u, call, t);
    case Manage(child, ok) =>
      assert CreatorOk(s, t) && ProcOk(s, t) && ProcOk(s, child);
      ManageExits(s, child, ok, t);
    case Deliver =>
  }

  /** The call that t is making, or made last: the argument of its latest move made
      while it was running its own code. */
  ghost function LastCall(ms: seq<Move>, t: Tid): Option<Call> {
    if ms == [] then None
    else
      var ms', mv := ms[..|ms|-1], ms[|ms|-1];
      if mv.Go? && mv.t == t && Exec(INITIAL, ms').Pc(t) == Running then Some(mv.call) else LastCall(ms', t)
  }

  /** th is detached, or somebody has registered to join it. */
  predicate Marked(s: State, th: Tid) { s.D(th).detached || s.D(th).joining.Some? }

  /** What the place of t in the code says about its call, ... */
  predicate Names(p: Pc, t: Tid, c: Option<Call>) {
    && (p.CreateSuspend? || p.CreateRead? ==> c.Some? && c.value.Start?)
    && (p.ExitAcq? || p.ExitBody? ==> c == Some(Exit(p.v)))
    && (Terminated(p) ==> c.Some? && c.value.Exit?)
    && (Ref(p).Some? ==>
          if p.DetachAcq? || p.DetachBody? || p.DetachRel? || p.DetachSend? then c == Some(Detach(p.th))
          else c == Some(Join(p.th)) && p.th != t)
  }

  /** ... and what the call has left in the descriptors. */
  predicate Follows(s: State, t: Tid, c: Option<Call>) {
    var p := s.Pc(t);
    && Names(p, t, c)
    && (Terminated(p) ==> c == Some(Exit(s.D(t).retval)))
    && (p.JoinFail? || p.DetachRel? || p.DetachSend? ==> Marked(s, p.th))
  }

  lemma StaysMarked(s: State, mv: Move, th: Tid)
    requires Enabled(s, mv) && Marked(s, th) && ProcOk(s, th)
    ensures Marked(Step(s, mv), th)
  {
  }

  lemma OwnNames(s: State, t: Tid, call: Call, c: Option<Call>)
    requires Names(s.Pc(t), t, c)
    ensures Names(Target(s, t, call), t, if s.Pc(t) == Running then Some(call) else c)
  {
  }

  /** Where t marks its target, and where it terminates. */
  lemma OwnMarks(s: State, t: Tid, call: Call, c: Option<Call>)
    requires Enabled(s, Go(t, call)) && Follows(s, t, c)
    ensures var s' := Step(s, Go(t, call)); var p := s'.Pc(t);
      && (Terminated(p) ==> c == Some(Exit(s'.D(t).retval)))
      && (p.JoinFail? || p.DetachRel? || p.DetachSend? ==> Marked(s', p.th))
  {
  }

  lemma OthersStay(s: State, mv: Move, t: Tid)
    requires Enabled(s, mv) && !(mv.Go? && mv.t == t)
    requires ProcOk(s, t)
    ensures Step(s, mv).Pc(t) == s.Pc(t)
  {
  }

  lemma OthersFollow(s: State, mv: Move, t: Tid, c: Option<Call>)
    requires Inv(s) && Enabled(s, mv) && Follows(s, t, c) && !(mv.Go? && mv.t == t)
    ensures Follows(Step(s, mv), t, c)
  {
    var p := s.Pc(t);
    assert ProcOk(s, t);
    OthersStay(s, mv, t);
    if Terminated(p) { StepExits(s, mv, t); }
    if p.JoinFail? || p.DetachRel? || p.DetachSend? {
      assert ProcOk(s, p.th);
      StaysMarked(s, mv, p.th);
    }
  }

  lemma {:induction false} RunFollows(ms: seq<Move>, t: Tid)
    requires Legal(INITIAL, ms)
    ensures Follows(Exec(INITIAL, ms), t, LastCall(ms, t))
    decreases |ms|
  {
    if ms != [] {
      var ms', mv := ms[..|ms|-1], ms[|ms|-1];
      var s := Exec(INITIAL, ms');
      RunFollows(ms', t);
      RunKeepsInv(ms');
      TraceEnd(ms);
      if mv.Go? && mv.t == t {
        OwnNames(s, t, mv.call, LastCall(ms', t));
        OwnMarks(s, t, mv.call, LastCall(ms', t));
      } else {
        OthersFollow(s, mv, t, LastCall(ms', t));
      }
    }
  }

  /** A terminated thread keeps the value it was given, the argument of its call of
      pthread_exit: neither the manager, which parks thread identities in the same
      field, nor anybody else overwrites it. */
  lemma {:induction false} ValueKept(ms: seq<Move>, t: Tid)
    requires Legal(INITIAL, ms)
    ensures var s := Exec(INITIAL, ms);
      && ExitValue(Trace(INITIAL, ms), t) == (if s.D(t).terminated then Some(s.D(t).retval) else None)
      && (s.D(t).terminated ==> LastCall(ms, t) == Some(Exit(s.D(t).retval)))
    decreases |ms|
  {
    if ms != [] {
      var ms', mv := ms[..|ms|-1], ms[|ms|-1];
      ValueKept(ms', t);
      RunKeepsInv(ms');
      StepExits(Exec(INITIAL, ms'), mv, t);
      TraceEnd(ms);
    }
    RunKeepsInv(ms);
    RunFollows(ms, t);
    assert ProcOk(Exec(INITIAL, ms), t);
  }

  /** A join succeeds only after its target, the thread the caller named, has
      terminated, and delivers exactly the value the target gave to pthread_exit. */
  lemma {:induction false} JoinDelivers(ms: seq<Move>, mv: Move)
    requires Legal(INITIAL, ms) && Enabled(Exec(INITIAL, ms), mv) && EventOf(Exec(INITIAL, ms), mv).Joined?
    ensures var e := EventOf(Exec(INITIAL, ms), mv);
      && LastCall(ms, e.t) == Some(Join(e.th))
      && LastCall(ms, e.th) == Some(Exit(e.v))
      && ExitValue(Trace(INITIAL, ms), e.th) == Some(e.v)
  {
    var s, e := Exec(INITIAL, ms), EventOf(Exec(INITIAL, ms), mv);
    RunKeepsInv(ms);
    assert JoinerOk(s, e.t);
    ValueKept(ms, e.th);
    RunFollows(ms, e.t);
  }

  /** How calls return. Only a join of oneself is over at once, and does nothing. A
      create returns with its answer. An exit does not return. A join of another
      thread delivers the value that thread exits with, or fails because the thread is
      detached or joined. A detach leaves the thread detached or joined. */
  lemma {:induction false} CallReturns(ms: seq<Move>, t: Tid, call: Call)
    requires Legal(INITIAL, ms) && Enabled(Exec(INITIAL, ms), Go(t, call))
    requires Step(Exec(INITIAL, ms), Go(t, call)).Pc(t) == Running
    ensures LastCall(ms + [Go(t, call)], t).Some?
    ensures var s, s', e :=
        Exec(INITIAL, ms), Step(Exec(INITIAL, ms), Go(t, call)), EventOf(Exec(INITIAL, ms), Go(t, call));
      match LastCall(ms + [Go(t, call)], t).value
      case Start(_) => e.Returned? && e.t == t
      case Exit(_) => false
      case Join(th) =>
        if th == t then s' == s.(pc := s.pc[t := Running]) && s.Pc(t) == Running && e == Silent
        else if e.Joined? then e.t == t && e.th == th && LastCall(ms, th) == Some(Exit(e.v))
        else Marked(s', th)
      case Detach(th) => Marked(s', th)
  {
    var s := Exec(INITIAL, ms);
    assert (ms + [Go(t, call)])[..|ms|] == ms;
    RunFollows(ms, t);
    RunKeepsInv(ms);
    if EventOf(s, Go(t, call)).Joined? { JoinDelivers(ms, Go(t, call)); }
    else if Ref(s.Pc(t)).Some? {
      assert ProcOk(s, t) && ProcOk(s, s.Pc(t).th);
      if Marked(s, s.Pc(t).th) { StaysMarked(s, Go(t, call), s.Pc(t).th); }
    }
  }

  /** A create request in the pipe, or in the manager's hand, is what its sender
      asked for. */
  ghost predicate RequestsOk(s: State, ms: seq<Move>) {
    && (forall i | 0 <= i < |s.pipe| && s.pipe[i].Create? ::
          LastCall(ms, s.pipe[i].t) == Some(Start(s.pipe[i].detached)))
    && (s.mgr.MkClone? ==> LastCall(ms, s.mgr.t) == Some(Start(s.mgr.det)))
  }

  /** A thread that waits for its answer makes no other call. */
  lemma WaiterKeepsCall(ms: seq<Move>, mv: Move, t: Tid)
    requires Exec(INITIAL, ms).Pc(t) != Running
    ensures LastCall(ms + [mv], t) == LastCall(ms, t)
  {
    assert (ms + [mv])[..|ms|] == ms;
  }

  lemma StepRequests(ms: seq<Move>, mv: Move)
    requires var s := Exec(INITIAL, ms);
      Inv(s) && Enabled(s, mv) && RequestsOk(s, ms)
    ensures RequestsOk(Step(Exec(INITIAL, ms), mv), ms + [mv])
  {
    var s, s' := Exec(INITIAL, ms), Step(Exec(INITIAL, ms), mv);
    assert (ms + [mv])[..|ms|] == ms;
    forall i | 0 <= i < |s'.pipe| && s'.pipe[i].Create?
      ensures LastCall(ms + [mv], s'.pipe[i].t) == Some(Start(s'.pipe[i].detached))
    {
      var t := s'.pipe[i].t;
      if s'.pipe[i] in s.pipe {
        assert s.Pc(t) == CreateSuspend;
        WaiterKeepsCall(ms, mv, t);
      }
    }
    if s'.mgr.MkClone? {
      if s.mgr.MkClone? { assert CreatorOk(s, s.mgr.t); }
      WaiterKeepsCall(ms, mv, s'.mgr.t);
    }
  }

  lemma {:induction false} RunRequests(ms: seq<Move>)
    requires Legal(INITIAL, ms)
    ensures RequestsOk(Exec(INITIAL, ms), ms)
    decreases |ms|
  {
    if ms != [] {
      var ms', mv := ms[..|ms|-1], ms[|ms|-1];
      RunRequests(ms');
      RunKeepsInv(ms');
      StepRequests(ms', mv);
      assert ms == ms' + [mv];
    }
  }

  /** What the manager last did about a create request: for whom, and the thread it
      made, if it could. */
  datatype Birth = Birth(t: Tid, made: Option<Tid>)

  ghost function LastBirth(ms: seq<Move>): Option<Birth> {
    if ms == [] then None
    else
      var s, mv := Exec(INITIAL, ms[..|ms|-1]), ms[|ms|-1];
      if mv.Manage? && s.mgr.MkClone? then Some(Birth(s.mgr.t, if mv.ok then Some(mv.child) else None))
      else LastBirth(ms[..|ms|-1])
  }

  /** The thread made for a create is new, runs, and is detached if and only if its
      creator asked for it. */
  lemma {:induction false} MadeAsAsked(ms: seq<Move>, child: Tid)
    requires Legal(INITIAL, ms) && Exec(INITIAL, ms).mgr.MkClone? && Enabled(Exec(INITIAL, ms), Manage(child, true))
    ensures var s, s' := Exec(INITIAL, ms), Step(Exec(INITIAL, ms), Manage(child, true));
      && s.Proc(child) == Absent && s'.Proc(child) == Alive && s'.Pc(child) == Running
      && LastCall(ms, s.mgr.t) == Some(Start(s'.D(child).detached))
      && !s'.D(child).terminated && s'.D(child).joining == None && s'.D(child).spin == None
      && LastBirth(ms + [Manage(child, true)]) == Some(Birth(s.mgr.t, Some(child)))
  {
    RunRequests(ms);
    assert (ms + [Manage(child, true)])[..|ms|] == ms;
  }

  lemma {:induction false} BirthKept(ms: seq<Move>)
    requires Legal(INITIAL, ms)
    ensures var m := Exec(INITIAL, ms).mgr;
      && (m.MkLink? ==> LastBirth(ms) == Some(Birth(m.t, Some(m.kid))))
      && (m.MkReply? ==> LastBirth(ms) == Some(Birth(m.t, m.made)))
    decreases |ms|
  {
    if ms != [] {
      BirthKept(ms[..|ms|-1]);
      TraceEnd(ms);
    }
  }

  /** The manager answers a create with the thread it made for it. */
  lemma {:induction false} AnswersWithBirth(ms: seq<Move>, mv: Move)
    requires Legal(INITIAL, ms) && Enabled(Exec(INITIAL, ms), mv) && EventOf(Exec(INITIAL, ms), mv).Created?
    ensures var e := EventOf(Exec(INITIAL, ms), mv); LastBirth(ms) == Some(Birth(e.t, e.made))
  {
    BirthKept(ms);
  }

  /** At most one thread waits for the end of another, and it does not miss it: once
      the target has terminated, its restart is pending or about to be sent by the
      target, which nothing blocks. */
  lemma {:induction false} JoinerNotForgotten(ms: seq<Move>, j: Tid, th: Tid)
    requires Legal(INITIAL, ms) && Awaited(Exec(INITIAL, ms).Pc(j)) == Some(th)
    ensures var s := Exec(INITIAL, ms);
      && s.D(th).joining == Some(j)
      && (forall k | Awaited(s.Pc(k)) == Some(th) :: k == j)
      && (ExitValue(Trace(INITIAL, ms), th).Some? ==>
            j in s.pending || (Owed(s.Pc(th)) == Some(j) && forall call :: Enabled(s, Go(th, call))))
  {
    var s := Exec(INITIAL, ms);
    RunKeepsInv(ms);
    ValueKept(ms, th);
    assert JoinerOk(s, j) && ProcOk(s, th);
    forall k | Awaited(s.Pc(k)) == Some(th) ensures k == j { assert JoinerOk(s, k); }
  }

  /** The manager's latest answer to a create request of t. */
  function Answer(tr: seq<Event>, t: Tid): Option<Option<Tid>> {
    if tr == [] then None
    else
      var e := tr[|tr|-1];
      if e.Created? && e.t == t then Some(e.made) else Answer(tr[..|tr|-1], t)
  }

  /** What t finds in its own descriptor. */
  function Found(s: State, t: Tid): Option<Tid> {
    if s.D(t).created && s.D(t).retval.Id? then Some(s.D(t).retval.t) else None
  }

  /** t has been answered and has not returned yet. */
  ghost predicate Answered(s: State, t: Tid) {
    s.mgr == MkWake(t) || (s.Pc(t) == CreateSuspend && t in s.pending) || s.Pc(t) == CreateRead
  }

  /** No thread but the manager answers a create request, ... */
  lemma GoAnswers(s: State, u: Tid, call: Call, t: Tid)
    requires ProcOk(s, t) && TargetOk(s, u) && CreatorOk(s, t)
    requires Enabled(s, Go(u, call)) && Answered(Step(s, Go(u, call)), t)
    ensures Answered(s, t) && Found(Step(s, Go(u, call)), t) == Found(s, t)
  {
    if !(s.Pc(u).ExitBody? && u == t) { GoValues(s, u, call, t); }
  }

  /** The manager restarts only a thread it has answered, or the main thread. */
  lemma ManageRestarts(s: State, child: Tid, ok: bool, t: Tid)
    requires Enabled(s, Manage(child, ok)) && s.Pc(t) == CreateSuspend && s.Proc(t) != Absent
    requires MainOk(s) && PipeOk(s)
    ensures var s' := Step(s, Manage(child, ok));
      s'.Pc(t) == CreateSuspend && (t in s'.pending ==> t in s.pending || s.mgr == MkWake(t))
  {
  }

  lemma ReplyAnswers(s: State, child: Tid, ok: bool)
    requires s.mgr.MkReply?
    ensures var s', e := Step(s, Manage(child, ok)), EventOf(s, Manage(child, ok));
      e == Created(s.mgr.t, s.mgr.made) && Found(s', s.mgr.t) == s.mgr.made
  {
  }

  /** ... and the manager does so once. */
  lemma ManageAnswers(s: State, child: Tid, ok: bool, t: Tid)
    requires ProcOk(s, t) && ProcOk(s, child) && CreatorOk(s, t) && MainOk(s) && PipeOk(s)
    requires Enabled(s, Manage(child, ok)) && Answered(Step(s, Manage(child, ok)), t)
    ensures var s', e := Step(s, Manage(child, ok)), EventOf(s, Manage(child, ok));
      if e.Created? && e.t == t then Found(s', t) == e.made else Answered(s, t) && Found(s', t) == Found(s, t)
  {
    if s.mgr.MkReply? && t == s.mgr.t { ReplyAnswers(s, child, ok); return; }
    ManageValues(s, child, ok, t);
    if s.Pc(t) == CreateSuspend { ManageRestarts(s, child, ok, t); }
  }

  lemma StepAnswers(s: State, mv: Move, t: Tid)
    requires Inv(s) && Enabled(s, mv) && Answered(Step(s, mv), t)
    ensures var s', e := Step(s, mv), EventOf(s, mv);
      if e.Created? && e.t == t then Found(s', t) == e.made else Answered(s, t) && Found(s', t) == Found(s, t)
  {
    match mv
    case Go(u, call) => assert ProcOk(s, t) && TargetOk(s, u) && CreatorOk(s, t); GoAnswers(s, u, call, t);
    case Manage(child, ok) =>
      assert ProcOk(s, t) && ProcOk(s, child) && CreatorOk(s, t);
      ManageAnswers(s, child, ok, t);
    case Deliver =>
  }

  lemma AnswerKept(ms: seq<Move>, t: Tid)
    requires Legal(INITIAL, ms)
    ensures Answered(Exec(INITIAL, ms), t) ==> Answer(Trace(INITIAL, ms), t) == Some(Found(Exec(INITIAL, ms), t))
    decreases |ms|
  {
    if ms != [] {
      var ms', mv := ms[..|ms|-1], ms[|ms|-1];
      AnswerKept(ms', t);
      RunKeepsInv(ms');
      TraceEnd(ms);
      if Answered(Exec(INITIAL, ms), t) { StepAnswers(Exec(INITIAL, ms'), mv, t); }
    }
  }

  /** How many creates of t the manager has answered, and how many have returned. */
  function Answers(tr: seq<Event>, t: Tid): nat {
    if tr == [] then 0
    else var e := tr[|tr|-1]; Answers(tr[..|tr|-1], t) + if e.Created? && e.t == t then 1 else 0
  }

  function Returns(tr: seq<Event>, t: Tid): nat {
    if tr == [] then 0
    else var e := tr[|tr|-1]; Returns(tr[..|tr|-1], t) + if e.Returned? && e.t == t then 1 else 0
  }

  /** An answer is for a create of t that has none yet, and its return uses it up. */
  lemma OwnCounts(s: State, t: Tid, call: Call)
    requires ProcOk(s, t) && CreatorOk(s, t) && Enabled(s, Go(t, call))
    ensures var s', e := Step(s, Go(t, call)), EventOf(s, Go(t, call));
      && (Answered(s', t) <==> Answered(s, t) && !e.Returned?)
      && (e.Returned? ==> e.t == t && Answered(s, t)) && !e.Created?
  {
  }

  lemma OtherCounts(s: State, u: Tid, call: Call, t: Tid)
    requires TargetOk(s, u) && JoinerOk(s, u) && Enabled(s, Go(u, call)) && u != t
    ensures var s', e := Step(s, Go(u, call)), EventOf(s, Go(u, call));
      && (Answered(s', t) <==> Answered(s, t))
      && (e.Returned? ==> e.t != t) && !e.Created?
  {
  }

  lemma ManageKeepsPc(s: State, child: Tid, ok: bool, t: Tid)
    requires ProcOk(s, t) && Enabled(s, Manage(child, ok))
    ensures Step(s, Manage(child, ok)).Pc(t) == s.Pc(t)
    ensures !EventOf(s, Manage(child, ok)).Returned?
  {
  }

  lemma ManageCounts(s: State, child: Tid, ok: bool, t: Tid)
    requires ProcOk(s, t) && CreatorOk(s, t) && MainOk(s) && PipeOk(s) && Enabled(s, Manage(child, ok))
    ensures var s', e := Step(s, Manage(child, ok)), EventOf(s, Manage(child, ok));
      && (Answered(s', t) <==> Answered(s, t) || (e.Created? && e.t == t))
      && (e.Created? && e.t == t ==> !Answered(s, t)) && !e.Returned?
  {
    ManageKeepsPc(s, child, ok, t);
    if s.Pc(t) == CreateSuspend { ManageRestarts(s, child, ok, t); }
  }

  lemma {:induction false} OneAnswerPerCreate(ms: seq<Move>, t: Tid)
    requires Legal(INITIAL, ms)
    ensures var s, tr := Exec(INITIAL, ms), Trace(INITIAL, ms);
      Answers(tr, t) == Returns(tr, t) + if Answered(s, t) then 1 else 0
    decreases |ms|
  {
    if ms != [] {
      var ms', mv := ms[..|ms|-1], ms[|ms|-1];
      var s := Exec(INITIAL, ms');
      OneAnswerPerCreate(ms', t);
      RunKeepsInv(ms');
      TraceEnd(ms);
      assert ProcOk(s, t) && CreatorOk(s, t);
      match mv
      case Go(u, call) =>
        assert TargetOk(s, u) && JoinerOk(s, u);
        if u == t { OwnCounts(s, t, call); } else { OtherCounts(s, u, call, t); }
      case Manage(child, ok) => ManageCounts(s, child, ok, t);
      case Deliver =>
    }
  }

  /** pthread_create returns the thread the manager made for this very request, or the
      failure it reported: the manager's latest answer to the caller, which has not been
      returned before, every earlier one having been. */
  lemma {:induction false} CreateReturnsAnswer(ms: seq<Move>, mv: Move)
    requires Legal(INITIAL, ms) && Enabled(Exec(INITIAL, ms), mv) && EventOf(Exec(INITIAL, ms), mv).Returned?
    ensures var e, tr := EventOf(Exec(INITIAL, ms), mv), Trace(INITIAL, ms);
      Answer(tr, e.t) == Some(e.made) && Answers(tr, e.t) == Returns(tr, e.t) + 1
  {
    AnswerKept(ms, EventOf(Exec(INITIAL, ms), mv).t);
    OneAnswerPerCreate(ms, EventOf(Exec(INITIAL, ms), mv).t);
  }

  /** How often t was suspended, restarted and resumed. */
  datatype Tally = Tally(parked: nat, restarted: nat, resumed: nat)

  function Bump(y: Tally, e: Event, t: Tid): Tally {
    if e == Parked(t) then y.(parked := y.parked + 1)
    else if e == Restarted(t) then y.(restarted := y.restarted + 1)
    else if e == Resumed(t) then y.(resumed := y.resumed + 1)
    else y
  }

  function TallyOf(tr: seq<Event>, t: Tid): Tally {
    if tr == [] then Tally(0, 0, 0) else Bump(TallyOf(tr[..|tr|-1], t), tr[|tr|-1], t)
  }

  ghost predicate Balanced(s: State, y: Tally, t: Tid) {
    && y.parked == y.resumed + (if Waits(s.Pc(t)) then 1 else 0)
    && y.restarted == y.resumed + (if t in s.pending then 1 else 0)
    && (t in s.pending ==> Waits(s.Pc(t)))
  }

  /** A thread's own steps start and end its waits. */
  lemma GoWaits(s: State, t: Tid, call: Call)
    requires Enabled(s, Go(t, call))
    ensures var e, w, w' := EventOf(s, Go(t, call)), Waits(s.Pc(t)), Waits(Step(s, Go(t, call)).Pc(t));
      && (w' <==> e == Parked(t) || (w && e != Resumed(t)))
      && (e == Parked(t) ==> !w) && (e == Resumed(t) ==> w && t in s.pending)
      && (e.Parked? || e.Resumed? ==> e.t == t)
  {
  }

  /** Signals of the threads: the one thread restarted by t waits for t's end. */
  lemma GoRestarts(s: State, t: Tid, call: Call, u: Tid)
    requires Enabled(s, Go(t, call)) && TargetOk(s, t) && JoinerOk(s, t) && (Waits(s.Pc(u)) || u !in s.pending)
    ensures var e, s' := EventOf(s, Go(t, call)), Step(s, Go(t, call));
      && (u in s'.pending <==> e == Restarted(u) || (u in s.pending && e != Resumed(u)))
      && (e == Restarted(u) ==> u !in s.pending && Waits(s.Pc(u)))
  {
  }

  /** Signals of the manager: answered creators, and the main thread when alone. */
  lemma MgrRestarts(s: State, child: Tid, ok: bool, u: Tid)
    requires Enabled(s, Manage(child, ok)) && PipeOk(s) && MainOk(s)
    requires Serving(s.mgr) == Some(u) ==> s.Pc(u) == CreateSuspend && u !in s.pending
    ensures var e, s' := EventOf(s, Manage(child, ok)), Step(s, Manage(child, ok));
      && (u in s'.pending <==> e == Restarted(u) || u in s.pending)
      && (e == Restarted(u) ==> u !in s.pending && Waits(s.Pc(u)))
      && !e.Parked? && !e.Resumed?
  {
  }

  lemma GoBalances(s: State, u: Tid, call: Call, y: Tally, t: Tid)
    requires Inv(s) && Enabled(s, Go(u, call)) && Balanced(s, y, t)
    ensures Balanced(Step(s, Go(u, call)), Bump(y, EventOf(s, Go(u, call)), t), t)
  {
    assert TargetOk(s, u) && JoinerOk(s, u);
    GoWaits(s, u, call);
    GoRestarts(s, u, call, t);
  }

  lemma MgrBalances(s: State, child: Tid, ok: bool, y: Tally, t: Tid)
    requires Inv(s) && Enabled(s, Manage(child, ok)) && Balanced(s, y, t)
    ensures Balanced(Step(s, Manage(child, ok)), Bump(y, EventOf(s, Manage(child, ok)), t), t)
  {
    assert CreatorOk(s, t) && ProcOk(s, child);
    MgrRestarts(s, child, ok, t);
  }

  lemma StepBalances(s: State, mv: Move, y: Tally, t: Tid)
    requires Inv(s) && Enabled(s, mv) && Balanced(s, y, t)
    ensures Balanced(Step(s, mv), Bump(y, EventOf(s, mv), t), t)
  {
    match mv
    case Go(u, call) => GoBalances(s, u, call, y, t);
    case Manage(child, ok) => MgrBalances(s, child, ok, y, t);
    case Deliver =>
  }

  /** Restart tokens: each wait, in create, join or the exit of the main thread, is
      sent exactly one restart, and each restart ends exactly one wait. */
  lemma {:induction false} OneRestartPerWait(ms: seq<Move>, t: Tid)
    requires Legal(INITIAL, ms)
    ensures Balanced(Exec(INITIAL, ms), TallyOf(Trace(INITIAL, ms), t), t)
    decreases |ms|
  {
    if ms != [] {
      var ms', mv := ms[..|ms|-1], ms[|ms|-1];
      OneRestartPerWait(ms', t);
      RunKeepsInv(ms');
      StepBalances(Exec(INITIAL, ms'), mv, TallyOf(Trace(INITIAL, ms'), t), t);
      TraceEnd(ms);
    }
  }

  /** No dead child is overlooked: while one is unreaped, the manager's flag is set,
      its signal is pending, or it is in its reaping loop. The live ring holds
      exactly the threads that exist and are not reaped, apart from the one the
      manager is just linking or unlinking. */
  lemma {:induction false} DeadAreNoticed(ms: seq<Move>, t: Tid)
    requires Legal(INITIAL, ms)
    ensures var s := Exec(INITIAL, ms);
      && (IsZombie(s, t) ==> s.signal || s.flag || InReap(s.mgr))
      && (s.mgr.MkLink? || s.mgr.ReapLink? || (t in s.ring <==> s.Proc(t) == Alive || s.Proc(t) == Zombie))
  {
    RunKeepsInv(ms);
    assert ReapOk(Exec(INITIAL, ms), t) && RingOk(Exec(INITIAL, ms), t);
  }

  /** The manager ends only by releasing the main thread from its pthread_exit, when
      that thread is alone: every other thread ever made has been reaped, so nobody
      is left behind waiting for an answer or a join. */
  lemma {:induction false} MainReleasedAlone(ms: seq<Move>, mv: Move)
    requires Legal(INITIAL, ms) && Enabled(Exec(INITIAL, ms), mv)
    requires Exec(INITIAL, ms).mgr != Gone && Step(Exec(INITIAL, ms), mv).mgr == Gone
    ensures var s, s' := Exec(INITIAL, ms), Step(Exec(INITIAL, ms), mv);
      && s.ring == {MAIN} && s.Pc(MAIN) == ExitSuspend && MAIN !in s.pending && MAIN in s'.pending
      && EventOf(s, mv) == Restarted(MAIN)
      && forall t | t != MAIN :: s.Proc(t) == Absent || s.Proc(t) == Reaped
  {
    var s := Exec(INITIAL, ms);
    RunKeepsInv(ms);
    forall t | t != MAIN ensures s.Proc(t) == Absent || s.Proc(t) == Reaped { assert RingOk(s, t); }
  }

  /** The main thread is never forgotten: as long as it waits in pthread_exit without
      a restart, its request is in the pipe, or other threads are in the ring, or
      the manager is about to look. And it does not leave before it is released. */
  lemma {:induction false} MainNotForgotten(ms: seq<Move>)
    requires Legal(INITIAL, ms)
    ensures var s := Exec(INITIAL, ms);
      && (s.Pc(MAIN) == ExitSuspend && MAIN !in s.pending ==>
            MainExit in s.pipe || s.ring != {MAIN} || WillCheck(s.mgr))
      && (s.Pc(MAIN) == ExitEnd || s.Pc(MAIN) == Dead ==> s.mgr == Gone && s.ring == {MAIN})
  {
    RunKeepsInv(ms);
  }
}
