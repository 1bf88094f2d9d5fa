/** What mutexes and spinlocks keep in every run, time-outs that race with a signal
    included: spinlocks exclude, the count of a mutex is the depth of its one holder,
    and clients are inside the mutexes they are about to give back. */
module LocksCore {
  import opened Options
  import opened Locks

  /** The spinlock a thread holds. */
  function Crit(p: Pc): Option<Obj> {
    match p
    case LockBody(m) => Some(M(m))
    case LockRel(m, _) => Some(M(m))
    case TryBody(m) => Some(M(m))
    case TryRel(m) => Some(M(m))
    case UnlBody(m, _) => Some(M(m))
    case UnlRel(m, _, _) => Some(M(m))
    case CondEnq(c, _, _) => Some(C(c))
    case CondRel(c, _, _) => Some(C(c))
    case TimedCheck(c, _, _) => Some(C(c))
    case TimedRel(c, _) => Some(C(c))
    case SigBody(c, _) => Some(C(c))
    case SigRel(c, _) => Some(C(c))
    case _ => None
  }

  /** The mutex a client must hold at this point. */
  function Needs(p: Pc): Option<Mid> {
    match p
    case UnlAcq(m, _) => Some(m)
    case UnlBody(m, _) => Some(m)
    case CondAcq(_, m, _) => Some(m)
    case CondEnq(_, m, _) => Some(m)
    case CondRel(_, m, _) => Some(m)
    case _ => None
  }

  /** Who holds a mutex, if its count is positive. */
  function Holder(h: map<Mid, Tid>, m: Mid): Tid { if m in h then h[m] else 0 }

  ghost predicate SpinOk(s: State, o: Obj) {
    o in s.spin ==> Crit(s.Pc(s.spin[o])) == Some(o)
  }

  ghost predicate CritOk(s: State, t: Tid) {
    var o := Crit(s.Pc(t));
    o.Some? ==> o.value in s.spin && s.spin[o.value] == t
  }

  ghost predicate NeedOk(s: State, t: Tid) {
    Needs(s.Pc(t)).Some? ==> s.Depth(Needs(s.Pc(t)).value, t) > 0
  }

  /** The count is the depth of the one holder, whom a recursive mutex names. */
  ghost predicate CountOk(s: State, h: map<Mid, Tid>, m: Mid) {
    var x := s.Mu(m);
    && x.kind != Other && (x.kind == Fast ==> x.count <= 1)
    && (forall t | x.count == 0 || t != Holder(h, m) :: s.Depth(m, t) == 0)
    && (x.count > 0 ==> s.Depth(m, Holder(h, m)) == x.count)
    && (x.count > 0 && x.kind == Recursive ==> x.owner == Some(Holder(h, m)))
  }

  ghost predicate Core(s: State, h: map<Mid, Tid>) {
    && (forall o :: SpinOk(s, o))
    && (forall t :: CritOk(s, t))
    && (forall t :: NeedOk(s, t))
    && (forall m :: CountOk(s, h, m))
  }

  /** t keeps, takes or gives back a spinlock. */
  ghost predicate SpinMove(s: State, s': State, t: Tid) {
    var o, o' := Crit(s.Pc(t)), Crit(s'.Pc(t));
    || (o == o' && s'.spin == s.spin)
    || (o == None && o'.Some? && o'.value !in s.spin && s'.spin == s.spin[o'.value := t])
    || (o.Some? && o' == None && s'.spin == s.spin - {o.value})
  }

  lemma OthersStay(s: State, mv: Move, u: Tid)
    requires Enabled(s, mv) && u != mv.t
    ensures Step(s, mv).Pc(u) == s.Pc(u)
    ensures forall m :: Step(s, mv).Depth(m, u) == s.Depth(m, u)
  {
  }

  lemma StepMovesSpin(s: State, mv: Move)
    requires Enabled(s, mv) && KindOk(s, s.Pc(mv.t))
    ensures SpinMove(s, Step(s, mv), mv.t)
  {
  }

  /** The kind of the mutex that is being locked or unlocked is valid. */
  predicate KindOk(s: State, p: Pc) {
    p.LockBody? || p.TryBody? || p.UnlBody? ==> s.Mu(p.m).kind != Other
  }

  lemma KindsAreOk(s: State, h: map<Mid, Tid>, t: Tid)
    requires Core(s, h)
    ensures KindOk(s, s.Pc(t))
  {
    var p := s.Pc(t);
    if p.LockBody? || p.TryBody? || p.UnlBody? { assert CountOk(s, h, p.m); }
  }

  lemma SpinsKept(s: State, h: map<Mid, Tid>, mv: Move)
    requires Core(s, h) && Enabled(s, mv)
    ensures (forall o :: SpinOk(Step(s, mv), o)) && forall u :: CritOk(Step(s, mv), u)
  {
    var s', t := Step(s, mv), mv.t;
    KindsAreOk(s, h, t);
    StepMovesSpin(s, mv);
    assert CritOk(s, t);
    forall u | u != t ensures s'.Pc(u) == s.Pc(u) { OthersStay(s, mv, u); }
    SpinFrame(s, s', t);
  }

  lemma SpinFrame(s: State, s': State, t: Tid)
    requires (forall o :: SpinOk(s, o)) && (forall u :: CritOk(s, u))
    requires SpinMove(s, s', t) && forall u | u != t :: s'.Pc(u) == s.Pc(u)
    ensures (forall o :: SpinOk(s', o)) && forall u :: CritOk(s', u)
  {
    assert CritOk(s, t);
    forall o ensures SpinOk(s', o) { assert SpinOk(s, o); }
    forall u ensures CritOk(s', u) { assert CritOk(s, u); }
  }

  lemma NeedsKept(s: State, h: map<Mid, Tid>, mv: Move)
    requires Core(s, h) && Enabled(s, mv)
    ensures forall u :: NeedOk(Step(s, mv), u)
  {
    forall u ensures NeedOk(Step(s, mv), u) {
      assert NeedOk(s, u);
      if u != mv.t { OthersStay(s, mv, u); } else { OwnNeed(s, mv); }
    }
  }

  lemma OwnNeed(s: State, mv: Move)
    requires Enabled(s, mv) && NeedOk(s, mv.t)
    ensures NeedOk(Step(s, mv), mv.t)
  {
  }

  ghost function NextHolder(s: State, h: map<Mid, Tid>, mv: Move): map<Mid, Tid> {
    var p := s.Pc(mv.t);
    if (p.LockBody? || p.TryBody?) && Grants(s.Mu(p.m), mv.t) then h[p.m := mv.t] else h
  }

  /** Only lock, trylock and unlock change a count or a depth. */
  lemma CountsUntouched(s: State, mv: Move, m: Mid)
    requires Enabled(s, mv)
    requires var p := s.Pc(mv.t); !((p.LockBody? || p.TryBody? || p.UnlBody?) && p.m == m)
    ensures var s' := Step(s, mv); s'.Mu(m) == s.Mu(m) && forall t :: s'.Depth(m, t) == s.Depth(m, t)
  {
  }

  lemma LockCount(s: State, h: map<Mid, Tid>, mv: Move, m: Mid)
    requires Enabled(s, mv) && CountOk(s, h, m) && (s.Pc(mv.t) == LockBody(m) || s.Pc(mv.t) == TryBody(m))
    ensures CountOk(Step(s, mv), NextHolder(s, h, mv), m)
  {
    var s', t := Step(s, mv), mv.t;
    if Grants(s.Mu(m), t) {
      forall u | u != t ensures s'.Depth(m, u) == 0 { assert s.Depth(m, u) == 0; }
    } else {
      assert forall u :: s'.Depth(m, u) == s.Depth(m, u);
    }
  }

  lemma UnlockCount(s: State, h: map<Mid, Tid>, mv: Move, m: Mid)
    requires Enabled(s, mv) && CountOk(s, h, m) && NeedOk(s, mv.t) && s.Pc(mv.t).UnlBody? && s.Pc(mv.t).m == m
    ensures CountOk(Step(s, mv), h, m)
  {
    var s', t := Step(s, mv), mv.t;
    forall u | u != t ensures s'.Depth(m, u) == 0 { assert s.Depth(m, u) == 0; }
  }

  lemma StepKeepsCount(s: State, h: map<Mid, Tid>, mv: Move, m: Mid)
    requires Core(s, h) && Enabled(s, mv)
    ensures CountOk(Step(s, mv), NextHolder(s, h, mv), m)
  {
    var p := s.Pc(mv.t);
    assert CountOk(s, h, m) && NeedOk(s, mv.t);
    if p == LockBody(m) || p == TryBody(m) { LockCount(s, h, mv, m); }
    else if p.UnlBody? && p.m == m { UnlockCount(s, h, mv, m); }
    else { CountsUntouched(s, mv, m); }
  }

  /** Every step of every thread keeps it. */
  lemma StepKeepsCore(s: State, h: map<Mid, Tid>, mv: Move)
    requires Core(s, h) && Enabled(s, mv)
    ensures Core(Step(s, mv), NextHolder(s, h, mv))
  {
    SpinsKept(s, h, mv);
    NeedsKept(s, h, mv);
    forall m ensures CountOk(Step(s, mv), NextHolder(s, h, mv), m) { StepKeepsCount(s, h, mv, m); }
  }

  lemma RunKeepsCore(s: State, ms: seq<Move>) returns (h: map<Mid, Tid>)
    requires Initial(s) && Legal(s, ms)
    ensures Core(Exec(s, ms), h)
    decreases |ms|
  {
    h := map[];
    if ms != [] {
      h := RunKeepsCore(s, ms[..|ms|-1]);
      StepKeepsCore(Exec(s, ms[..|ms|-1]), h, ms[|ms|-1]);
      h := NextHolder(Exec(s, ms[..|ms|-1]), h, ms[|ms|-1]);
    }
  }

  /** The mutex a thread could not get, from its look at it to the end of its suspend. */
  function Refused(p: Pc): Option<Mid> {
    if p.LockSuspend? || (p.LockRel? && !p.got) then Some(p.m) else None
  }

  /** A recursive mutex is refused to threads that do not hold it. */
  ghost predicate RefusedOk(s: State, t: Tid) {
    var m := Refused(s.Pc(t));
    m.Some? && s.Mu(m.value).kind == Recursive ==> s.Depth(m.value, t) == 0
  }

  lemma KindsStay(s: State, mv: Move, m: Mid)
    requires Enabled(s, mv)
    ensures Step(s, mv).Mu(m).kind == s.Mu(m).kind
  {
  }

  lemma OwnRefused(s: State, h: map<Mid, Tid>, mv: Move)
    requires Core(s, h) && Enabled(s, mv) && RefusedOk(s, mv.t)
    ensures RefusedOk(Step(s, mv), mv.t)
  {
    var p, t := s.Pc(mv.t), mv.t;
    if p.LockBody? {
      assert CountOk(s, h, p.m);
      assert s.Mu(p.m).kind == Recursive && !Grants(s.Mu(p.m), t) ==> t != Holder(h, p.m);
    } else if Refused(p).Some? {
      CountsUntouched(s, mv, p.m);
    }
  }

  lemma {:induction false} RunRefused(s0: State, ms: seq<Move>, t: Tid)
    requires Initial(s0) && Legal(s0, ms)
    ensures RefusedOk(Exec(s0, ms), t)
    decreases |ms|
  {
    if ms != [] {
      var s, mv := Exec(s0, ms[..|ms|-1]), ms[|ms|-1];
      RunRefused(s0, ms[..|ms|-1], t);
      var h := RunKeepsCore(s0, ms[..|ms|-1]);
      if mv.t == t { OwnRefused(s, h, mv); }
      else {
        OthersStay(s, mv, t);
        if Refused(s.Pc(t)).Some? { KindsStay(s, mv, Refused(s.Pc(t)).value); }
      }
    }
  }
}
