/** pthread_detach for all clients, also those that detach a thread twice or detach a
    thread that is being joined. */
module LifecycleDetach {
  import opened Options
  import opened Lifecycle
  import opened LifecycleInvariant

  /** t has decided to ask the manager to free th and has not done so yet. */
  predicate WillAsk(p: Pc, th: Tid) { p == DetachRel(th, true) || p == DetachSend(th) }

  function Asks(s: State, mv: Move, th: Tid): nat { if mv.Go? && s.Pc(mv.t) == DetachSend(th) then 1 else 0 }

  /** How often a detach has asked for th to be freed. */
  ghost function Asked(ms: seq<Move>, th: Tid): nat {
    if ms == [] then 0 else Asked(ms[..|ms|-1], th) + Asks(Exec(INITIAL, ms[..|ms|-1]), ms[|ms|-1], th)
  }

  ghost predicate AskOk(s: State, n: nat, th: Tid, t: Tid) {
    WillAsk(s.Pc(t), th) ==>
      s.D(th).detached && s.D(th).joining == None && n == 0 && forall u | WillAsk(s.Pc(u), th) :: u == t
  }

  ghost predicate AsksOk(s: State, n: nat, th: Tid) {
    n <= 1 && (n == 1 ==> s.D(th).detached && s.D(th).joining == None) && forall t :: AskOk(s, n, th, t)
  }

  /** A detached thread stays detached, and nobody starts to join it. */
  lemma StaysDetached(s: State, mv: Move, th: Tid)
    requires Enabled(s, mv) && s.D(th).detached && s.D(th).joining == None && th in s.desc
    requires mv.Manage? && s.mgr.MkClone? && mv.ok ==> mv.child != th
    ensures Step(s, mv).D(th).detached && Step(s, mv).D(th).joining == None
  {
  }

  /** Who is going to ask after a step of u. */
  lemma GoAsker(s: State, n: nat, th: Tid, u: Tid, call: Call, t: Tid)
    requires Enabled(s, Go(u, call)) && AskOk(s, n, th, t) && AskOk(s, n, th, u)
    requires n == 1 ==> s.D(th).detached
    requires WillAsk(Step(s, Go(u, call)).Pc(t), th)
    ensures WillAsk(s.Pc(t), th)
      || (t == u && s.Pc(u) == DetachBody(th) && !s.D(th).detached && s.D(th).joining == None)
    ensures t == u ==> s.Pc(u) != DetachSend(th)
  {
  }

  lemma GoAsks(s: State, n: nat, th: Tid, u: Tid, call: Call)
    requires Enabled(s, Go(u, call)) && AsksOk(s, n, th)
    ensures AsksOk(Step(s, Go(u, call)), n + if s.Pc(u) == DetachSend(th) then 1 else 0, th)
  {
    var s', n' := Step(s, Go(u, call)), n + if s.Pc(u) == DetachSend(th) then 1 else 0;
    assert AskOk(s, n, th, u);
    if s.D(th).detached && s.D(th).joining == None { StaysDetached(s, Go(u, call), th); }
    forall t | WillAsk(s'.Pc(t), th) ensures AskOk(s', n', th, t) {
      assert AskOk(s, n, th, t);
      GoAsker(s, n, th, u, call, t);
      forall v | WillAsk(s'.Pc(v), th) ensures v == t {
        assert AskOk(s, n, th, v);
        GoAsker(s, n, th, u, call, v);
      }
    }
    forall t ensures AskOk(s', n', th, t) { }
  }

  /** A step that moves no thread and leaves what is detached detached. */
  lemma OthersAsk(s: State, s': State, n: nat, th: Tid)
    requires AsksOk(s, n, th) && forall t :: s'.Pc(t) == s.Pc(t)
    requires s.D(th).detached && s.D(th).joining == None ==> s'.D(th).detached && s'.D(th).joining == None
    ensures AsksOk(s', n, th)
  {
    forall t ensures AskOk(s', n, th, t) { assert AskOk(s, n, th, t); }
  }

  lemma StepAsks(s: State, n: nat, th: Tid, mv: Move)
    requires Inv(s) && Enabled(s, mv) && AsksOk(s, n, th)
    ensures AsksOk(Step(s, mv), n + Asks(s, mv, th), th)
  {
    match mv
    case Go(u, call) => GoAsks(s, n, th, u, call);
    case Manage(child, ok) => assert ProcOk(s, child); ManageAsks(s, n, th, child, ok);
    case Deliver => OthersAsk(s, Step(s, mv), n, th);
  }

  lemma ManageAsks(s: State, n: nat, th: Tid, child: Tid, ok: bool)
    requires ProcOk(s, child) && Enabled(s, Manage(child, ok)) && AsksOk(s, n, th)
    ensures AsksOk(Step(s, Manage(child, ok)), n, th) && Asks(s, Manage(child, ok), th) == 0
  {
    if s.D(th).detached && s.D(th).joining == None { StaysDetached(s, Manage(child, ok), th); }
    OthersAsk(s, Step(s, Manage(child, ok)), n, th);
  }

  /** However often a thread is detached, at most one detach ever asks the manager to
      free it, and none does while somebody is registered to join it. */
  lemma {:induction false} AsksOnce(ms: seq<Move>, th: Tid)
    requires Legal(INITIAL, ms)
    ensures AsksOk(Exec(INITIAL, ms), Asked(ms, th), th)
    decreases |ms|
  {
    if ms == [] {
      forall t ensures AskOk(INITIAL, 0, th, t) { }
    } else {
      var s := Exec(INITIAL, ms[..|ms|-1]);
      AsksOnce(ms[..|ms|-1], th);
      RunKeepsInv(ms[..|ms|-1]);
      StepAsks(s, Asked(ms[..|ms|-1], th), th, ms[|ms|-1]);
      assert Exec(INITIAL, ms) == Step(s, ms[|ms|-1]);
    }
  }
}
