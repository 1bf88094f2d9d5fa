/** Several cancelled waiters of sem_wait at once, and a post among them: exactly when
    the last store or swap of a canceller takes it, and only it, off the chain. */
module SemaphoreCancelRaces {
  import opened Words
  import opened Seqs
  import opened SemaphoreCancel

  lemma {:induction false} WithoutAt(c: seq<Tid>, i: nat)
    requires Distinct(c) && i < |c|
    ensures Without(c, c[i]) == c[..i] + c[i+1..]
  {
    if i == 0 {
      WithoutAbsent(c[1..], c[0]);
    } else {
      WithoutAt(c[1..], i - 1);
      assert c[0] != c[i];
      assert c[..i] + c[i+1..] == [c[0]] + (c[1..][..i-1] + c[1..][i..]);
    }
  }

  /** A chain that leaves out its i-th thread says where the links of the others lead. */
  lemma SkipLinks(s: State, link: int, c: seq<Tid>, i: nat)
    requires Distinct(c) && i < |c| && Linked(s, link, Without(c, c[i]))
    ensures i == 0 ==> link != c[0]
    ensures i > 0 ==> s.Next(c[i-1]) == if i + 1 < |c| then c[i+1] else END
  {
    WithoutAt(c, i);
    var w := c[..i] + c[i+1..];
    if i > 0 { LinkedAt(s, link, w, i - 1); }
    else if i + 1 < |c| { assert w[0] == c[1]; assert c[1] in c[1..]; }
  }

  /** The last store of the walk takes t, and only t, off the chain if and only if it goes
      to the predecessor of t on the chain and stores t's link as it is now. If t is not
      on the chain, the store must not change a link of the chain. */
  lemma UnlinkExact(s: State, cur: seq<Tid>, t: Tid)
    requires Linked(s, s.status, cur) && Distinct(cur) && s.Pc(t).UnlinkWrite?
    ensures var at, want, s' := s.Pc(t).at, s.Pc(t).want, CancelStep(s, t);
      Linked(s', s'.status, Without(cur, t)) <==>
        if t in cur then at in cur && s.Next(at) == t && want == s.Next(t) else at in cur ==> want == s.Next(at)
  {
    if t in cur {
      var i :| 0 <= i < |cur| && cur[i] == t;
      UnlinkExactOn(s, cur, t, i);
    } else {
      UnlinkExactOff(s, cur, t);
    }
  }

  lemma UnlinkExactOn(s: State, cur: seq<Tid>, t: Tid, i: nat)
    requires Linked(s, s.status, cur) && Distinct(cur) && s.Pc(t).UnlinkWrite? && i < |cur| && cur[i] == t
    ensures var at, want, s' := s.Pc(t).at, s.Pc(t).want, CancelStep(s, t);
      Linked(s', s'.status, Without(cur, t)) <==> at in cur && s.Next(at) == t && want == s.Next(t)
  {
    var at, want, s' := s.Pc(t).at, s.Pc(t).want, CancelStep(s, t);
    LinkedAt(s, s.status, cur, i);
    if Linked(s', s'.status, Without(cur, t)) {
      SkipLinks(s', s'.status, cur, i);
      LinkedAt(s, s.status, cur, i - 1);
      if i + 1 < |cur| { DistinctAt(cur, i, i + 1); }
    }
    if at in cur && s.Next(at) == t && want == s.Next(t) {
      var j :| 0 <= j < |cur| && cur[j] == at;
      LinkedAt(s, s.status, cur, j);
      Unlinked(s, s', s.status, cur, j);
    }
  }

  lemma UnlinkExactOff(s: State, cur: seq<Tid>, t: Tid)
    requires Linked(s, s.status, cur) && s.Pc(t).UnlinkWrite? && t !in cur
    ensures var at, want, s' := s.Pc(t).at, s.Pc(t).want, CancelStep(s, t);
      Linked(s', s'.status, Without(cur, t)) <==> (at in cur ==> want == s.Next(at))
  {
    var at, want, s' := s.Pc(t).at, s.Pc(t).want, CancelStep(s, t);
    WithoutAbsent(cur, t);
    if at in cur {
      var j :| 0 <= j < |cur| && cur[j] == at;
      LinkedAt(s, s.status, cur, j);
      if Linked(s', s'.status, cur) { LinkedAt(s', s'.status, cur, j); }
    }
    if at in cur ==> want == s.Next(at) { LinkedFrame(s, s', s.status, cur); }
  }

  /** The swap of a canceller at the head does so if and only if the link it read is
      still its link. */
  lemma HeadSwapExact(s: State, cur: seq<Tid>, t: Tid)
    requires Linked(s, s.status, cur) && Distinct(cur) && s.Pc(t).HeadCas? && s.status == t
    ensures var s' := CancelStep(s, t);
      Linked(s', s'.status, Without(cur, t)) <==>
        s.Pc(t).want == s.Next(t)
  {
    var s', want := CancelStep(s, t), s.Pc(t).want;
    WithoutAt(cur, 0);
    var w := Without(cur, t);
    assert w == cur[1..];
    LinkedAt(s, s.status, cur, 0);
    LinkedFrame(s, s', s.Next(t), cur[1..]);
  }

  predicate Exited(s: State, t: Tid) { s.Pc(t) == Gone }

  /** The threads of a list that have not exited. */
  ghost function Live(s: State, all: seq<Tid>): seq<Tid> {
    if all == [] then []
    else if Exited(s, all[0]) then Live(s, all[1..])
    else [all[0]] + Live(s, all[1..])
  }

  /** The link leads into the list past exited threads only. */
  ghost predicate Leads(s: State, link: int, all: seq<Tid>) {
    if all == [] then link == END else link == all[0] || (Exited(s, all[0]) && Leads(s, link, all[1..]))
  }

  /** So do the links of all threads that ever were on the chain, exited or not. */
  ghost predicate Skips(s: State, all: seq<Tid>) {
    all == [] || (Leads(s, s.Next(all[0]), all[1..]) && Skips(s, all[1..]))
  }

  /** x comes before t. */
  ghost predicate Ahead(all: seq<Tid>, x: Tid, t: Tid) {
    all != [] && if all[0] == x then t in all[1..] else Ahead(all[1..], x, t)
  }

  ghost predicate WalkOk(s: State, all: seq<Tid>, t: Tid) {
    match s.Pc(t)
    case HeadNext => t in all
    case HeadCas(_) => t in all
    case WalkTest(at) => at in all && (t in all ==> Ahead(all, at, t))
    case UnlinkRead(at) => at in all && t in all
    case UnlinkWrite(at, _) => at in all && t in all
    case _ => true
  }

  /** all are the threads that ever were on the chain, the latest first. */
  ghost predicate ChainInv(s: State, all: seq<Tid>) {
    && Distinct(all) && Skips(s, all) && Linked(s, s.status, Live(s, all))
    && forall t :: WalkOk(s, all, t)
  }

  lemma {:induction false} LiveIn(s: State, all: seq<Tid>, t: Tid)
    ensures t in Live(s, all) <==> t in all && !Exited(s, t)
  {
    if all != [] { LiveIn(s, all[1..], t); assert all == [all[0]] + all[1..]; }
  }

  lemma {:induction false} LiveDistinct(s: State, all: seq<Tid>)
    requires Distinct(all)
    ensures Distinct(Live(s, all))
  {
    if all != [] {
      LiveDistinct(s, all[1..]);
      LiveIn(s, all[1..], all[0]);
      assert ([all[0]] + Live(s, all[1..]))[1..] == Live(s, all[1..]);
    }
  }

  lemma {:induction false} LiveFrame(s: State, s': State, all: seq<Tid>)
    requires forall t | t in all :: Exited(s', t) == Exited(s, t)
    ensures Live(s', all) == Live(s, all)
  {
    if all != [] { LiveFrame(s, s', all[1..]); }
  }

  /** A thread exits. */
  lemma {:induction false} LiveWithout(s: State, s': State, all: seq<Tid>, t: Tid)
    requires Exited(s', t) && forall u | u != t :: Exited(s', u) == Exited(s, u)
    ensures Live(s', all) == Without(Live(s, all), t)
  {
    if all != [] { LiveWithout(s, s', all[1..], t); }
  }

  lemma {:induction false} LeadsLater(s: State, s': State, link: int, all: seq<Tid>)
    requires Leads(s, link, all) && forall t :: Exited(s, t) ==> Exited(s', t)
    ensures Leads(s', link, all)
  {
    if all != [] && link != all[0] { LeadsLater(s, s', link, all[1..]); }
  }

  lemma {:induction false} SkipsLater(s: State, s': State, all: seq<Tid>)
    requires Skips(s, all) && (forall t | t in all :: s'.Next(t) == s.Next(t))
      && forall t :: Exited(s, t) ==> Exited(s', t)
    ensures Skips(s', all)
  {
    if all != [] { LeadsLater(s, s', s.Next(all[0]), all[1..]); SkipsLater(s, s', all[1..]); }
  }

  /** Past t, which exits, the link leads where the link of t leads. */
  lemma {:induction false} LeadsThrough(s: State, s': State, t: Tid, all: seq<Tid>)
    requires Leads(s, t, all) && Skips(s, all) && Exited(s', t) && forall u :: Exited(s, u) ==> Exited(s', u)
    ensures Leads(s', s.Next(t), all)
  {
    if all[0] == t { LeadsLater(s, s', s.Next(t), all[1..]); } else { LeadsThrough(s, s', t, all[1..]); }
  }

  lemma {:induction false} UnlinkSkips(s: State, s': State, all: seq<Tid>, at: Tid, t: Tid)
    requires Skips(s, all) && Distinct(all) && s.Next(at) == t && Exited(s', t) && at != t
    requires forall u :: Exited(s, u) ==> Exited(s', u)
    requires forall x :: s'.Next(x) == if x == at then s.Next(t) else s.Next(x)
    ensures Skips(s', all)
  {
    if all != [] {
      UnlinkSkips(s, s', all[1..], at, t);
      if all[0] == at { LeadsThrough(s, s', t, all[1..]); } else { LeadsLater(s, s', s.Next(all[0]), all[1..]); }
    }
  }

  /** A link that leads into the list does not lead past a thread that is still there. */
  lemma {:induction false} LeadsBefore(s: State, link: int, all: seq<Tid>, t: Tid)
    requires Leads(s, link, all) && t in all && !Exited(s, t)
    ensures IsThread(link) && (link == t || Ahead(all, link, t))
  {
    if link == all[0] {
      if t != all[0] { assert all == [all[0]] + all[1..]; }
    } else {
      assert t in all[1..];
      LeadsBefore(s, link, all[1..], t);
    }
  }

  /** So a walk that has not reached t yet finds t further on. */
  lemma {:induction false} WalkOn(s: State, all: seq<Tid>, x: Tid, t: Tid)
    requires Skips(s, all) && Distinct(all) && Ahead(all, x, t) && !Exited(s, t)
    ensures IsThread(s.Next(x)) && (s.Next(x) == t || Ahead(all, s.Next(x), t))
  {
    if all[0] == x {
      LeadsBefore(s, s.Next(x), all[1..], t);
      AheadIn(all[1..], s.Next(x), t);
    } else {
      WalkOn(s, all[1..], x, t);
      AheadIn(all[1..], s.Next(x), t);
    }
  }

  lemma {:induction false} AheadIn(all: seq<Tid>, x: int, t: Tid)
    requires IsThread(x)
    ensures Ahead(all, x, t) ==> x in all && t in all
  {
    if all != [] && all[0] != x { AheadIn(all[1..], x, t); }
  }

  /** The head is before every other thread still there, ... */
  lemma {:induction false} HeadAhead(s: State, all: seq<Tid>, t: Tid)
    requires Live(s, all) != [] && t in all && !Exited(s, t) && t != Live(s, all)[0] && Distinct(all)
    ensures Ahead(all, Live(s, all)[0], t)
  {
    assert all == [all[0]] + all[1..];
    if Exited(s, all[0]) {
      HeadAhead(s, all[1..], t);
      LiveIn(s, all[1..], Live(s, all)[0]);
    }
  }

  /** ... and a new thread can link to it. */
  lemma {:induction false} HeadLeads(s: State, all: seq<Tid>, link: int)
    requires if Live(s, all) == [] then link == END else link == Live(s, all)[0]
    ensures Leads(s, link, all)
  {
    if all != [] && Exited(s, all[0]) { HeadLeads(s, all[1..], link); }
  }

  /** The threads that ever were on the chain, the latest first. */
  function Ever(c: seq<Tid>, ms: seq<Move>): seq<Tid> {
    if ms == [] then c
    else var m := ms[|ms|-1]; (if m.Push? then [m.t] else []) + Ever(c, ms[..|ms|-1])
  }

  /** The condition on the last store or swap of a canceller. */
  ghost predicate LastWriteOk(s: State, m: Move, cur: seq<Tid>) {
    m.Cancel? ==>
      match s.Pc(m.t)
      case HeadCas(want) => s.status == m.t ==> want == s.Next(m.t)
      case UnlinkWrite(at, want) => at in cur && s.Next(at) == m.t && want == s.Next(m.t)
      case _ => true
  }

  /** A run with any number of cancellers, of pushes of new threads, takes and posts of a
      semaphore without waiters, in which every last write meets the condition. */
  ghost predicate Careful(s: State, c: seq<Tid>, ms: seq<Move>) {
    ms == [] ||
    var ms', m := ms[..|ms|-1], ms[|ms|-1];
    var p, all := Exec(s, ms'), Ever(c, ms');
    && Careful(s, c, ms') && Enabled(p, m) && !m.Detach? && !m.Clear?
    && (m.Push? ==> m.t !in all && p.Pc(m.t) == HeadRead)
    && LastWriteOk(p, m, Live(p, all))
  }

  /** The moves that leave chain and links alone. */
  lemma QuietKeeps(s: State, s': State, all: seq<Tid>, t: Tid)
    requires ChainInv(s, all) && s'.next == s.next && s'.status == s.status && WalkOk(s', all, t)
    requires (forall u | u != t :: s'.Pc(u) == s.Pc(u)) && (t in all ==> Exited(s', t) == Exited(s, t))
    requires Exited(s, t) ==> Exited(s', t)
    ensures ChainInv(s', all)
  {
    LiveFrame(s, s', all);
    SkipsLater(s, s', all);
    LinkedFrame(s, s', s.status, Live(s, all));
    forall u ensures WalkOk(s', all, u) { assert WalkOk(s, all, u); }
  }

  lemma HeadReadKeeps(s: State, all: seq<Tid>, t: Tid)
    requires ChainInv(s, all) && s.Pc(t) == HeadRead
    ensures ChainInv(CancelStep(s, t), all)
  {
    var cur := Live(s, all);
    LiveIn(s, all, t);
    if cur != [] {
      LiveIn(s, all, cur[0]);
      if t in all && t != cur[0] { HeadAhead(s, all, t); }
    }
    QuietKeeps(s, CancelStep(s, t), all, t);
  }

  lemma WalkKeeps(s: State, all: seq<Tid>, t: Tid)
    requires ChainInv(s, all) && s.Pc(t).WalkTest?
    ensures ChainInv(CancelStep(s, t), all)
  {
    var at := s.Pc(t).at;
    assert WalkOk(s, all, t);
    if t in all { WalkOn(s, all, at, t); AheadIn(all, s.Next(at), t); }
    else { LinksInside(s, all, at); }
    QuietKeeps(s, CancelStep(s, t), all, t);
  }

  /** Links lead to threads of the list only. */
  lemma {:induction false} LinksInside(s: State, all: seq<Tid>, x: Tid)
    requires Skips(s, all) && x in all
    ensures IsThread(s.Next(x)) ==> s.Next(x) in all
  {
    if all[0] != x { LinksInside(s, all[1..], x); }
    else if IsThread(s.Next(x)) { LeadsInside(s, s.Next(x), all[1..]); }
  }

  lemma {:induction false} LeadsInside(s: State, link: int, all: seq<Tid>)
    requires Leads(s, link, all) && IsThread(link)
    ensures link in all
  {
    if link != all[0] { LeadsInside(s, link, all[1..]); }
  }

  lemma HeadSwapKeeps(s: State, all: seq<Tid>, t: Tid)
    requires ChainInv(s, all) && s.Pc(t).HeadCas? && LastWriteOk(s, Cancel(t), Live(s, all))
    ensures ChainInv(CancelStep(s, t), all)
  {
    var s' := CancelStep(s, t);
    assert WalkOk(s, all, t);
    if s.status == t {
      LiveDistinct(s, all);
      HeadSwapExact(s, Live(s, all), t);
      LiveWithout(s, s', all, t);
      SkipsLater(s, s', all);
      forall u ensures WalkOk(s', all, u) { assert WalkOk(s, all, u); }
    } else {
      QuietKeeps(s, s', all, t);
    }
  }

  lemma UnlinkKeeps(s: State, all: seq<Tid>, t: Tid)
    requires ChainInv(s, all) && s.Pc(t).UnlinkWrite? && LastWriteOk(s, Cancel(t), Live(s, all))
    ensures ChainInv(CancelStep(s, t), all)
  {
    var s', at := CancelStep(s, t), s.Pc(t).at;
    assert WalkOk(s, all, t);
    LiveDistinct(s, all);
    LiveIn(s, all, t);
    UnlinkExact(s, Live(s, all), t);
    LiveWithout(s, s', all, t);
    if at == t { WalkOnSelf(s, all, t); }
    UnlinkSkips(s, s', all, at, t);
    forall u ensures WalkOk(s', all, u) { assert WalkOk(s, all, u); }
  }

  /** No thread is its own successor. */
  lemma {:induction false} WalkOnSelf(s: State, all: seq<Tid>, x: Tid)
    requires Skips(s, all) && Distinct(all) && x in all
    ensures s.Next(x) != x
  {
    if all[0] == x {
      if s.Next(x) == x { LeadsInside(s, x, all[1..]); }
    } else {
      WalkOnSelf(s, all[1..], x);
    }
  }

  lemma CancelKeeps(s: State, all: seq<Tid>, t: Tid)
    requires ChainInv(s, all) && LastWriteOk(s, Cancel(t), Live(s, all))
    ensures ChainInv(CancelStep(s, t), all)
  {
    assert WalkOk(s, all, t);
    match s.Pc(t)
    case HeadRead => HeadReadKeeps(s, all, t);
    case WalkTest(_) => WalkKeeps(s, all, t);
    case HeadCas(_) => HeadSwapKeeps(s, all, t);
    case UnlinkWrite(_, _) => UnlinkKeeps(s, all, t);
    case _ => QuietKeeps(s, CancelStep(s, t), all, t);
  }

  lemma PushKeeps(s: State, all: seq<Tid>, x: Tid)
    requires ChainInv(s, all) && x !in all && s.Pc(x) == HeadRead && (IsThread(s.status) || s.status == 1)
    ensures ChainInv(Step(s, Push(x)), [x] + all)
  {
    var s', all' := Step(s, Push(x)), [x] + all;
    assert all'[1..] == all;
    HeadLeads(s, all, s.status);
    LeadsLater(s, s', s.status, all);
    SkipsLater(s, s', all);
    LiveFrame(s, s', all);
    var cur := Live(s, all);
    LiveIn(s, all, x);
    LinkedFrame(s, s', s.status, cur);
    assert ([x] + cur)[1..] == cur;
    forall u ensures WalkOk(s', all', u) { assert WalkOk(s, all, u); }
  }

  lemma OtherKeeps(s: State, all: seq<Tid>, m: Move)
    requires ChainInv(s, all) && Enabled(s, m) && (m.Take? || m.Add?)
    ensures ChainInv(Step(s, m), all)
  {
    var s' := Step(s, m);
    LiveFrame(s, s', all);
    SkipsLater(s, s', all);
    forall u ensures WalkOk(s', all, u) { assert WalkOk(s, all, u); }
  }

  lemma MoveKeeps(s: State, all: seq<Tid>, m: Move)
    requires ChainInv(s, all) && Enabled(s, m) && !m.Detach? && !m.Clear? && LastWriteOk(s, m, Live(s, all))
    requires m.Push? ==> m.t !in all && s.Pc(m.t) == HeadRead
    ensures ChainInv(Step(s, m), (if m.Push? then [m.t] else []) + all)
  {
    assert [] + all == all;
    if m.Cancel? { CancelKeeps(s, all, m.t); }
    else if m.Push? { PushKeeps(s, all, m.t); }
    else { OtherKeeps(s, all, m); }
  }

  lemma {:induction false} RunKeepsChain(s: State, c: seq<Tid>, ms: seq<Move>)
    requires Linked(s, s.status, c) && Distinct(c) && s.pc == map[] && Careful(s, c, ms)
    ensures ChainInv(Exec(s, ms), Ever(c, ms))
    decreases |ms|
  {
    if ms == [] {
      StartsAlive(s, c, s.status);
    } else {
      RunKeepsChain(s, c, ms[..|ms|-1]);
      MoveKeeps(Exec(s, ms[..|ms|-1]), Ever(c, ms[..|ms|-1]), ms[|ms|-1]);
    }
  }

  /** Main theorem for any number of cancellers: while every last write meets the
      condition, the chain is exactly the threads that were on it or pushed and have
      not exited, in their order. No thread that has exited is reachable. */
  lemma {:induction false} CancelsRemoveOnlyThemselves(s: State, c: seq<Tid>, ms: seq<Move>)
    requires Linked(s, s.status, c) && Distinct(c) && s.pc == map[] && Careful(s, c, ms)
    ensures var s', cur := Exec(s, ms), Live(Exec(s, ms), Ever(c, ms));
      Linked(s', s'.status, cur) && forall t :: t in cur <==> t in Ever(c, ms) && s'.Pc(t) != Gone
  {
    RunKeepsChain(s, c, ms);
    forall t ensures t in Live(Exec(s, ms), Ever(c, ms)) <==> t in Ever(c, ms) && Exec(s, ms).Pc(t) != Gone {
      LiveIn(Exec(s, ms), Ever(c, ms), t);
    }
  }

  /** Any run of that kind, careful or not. */
  ghost predicate Mixed(s: State, c: seq<Tid>, ms: seq<Move>) {
    ms == [] ||
    var ms', m := ms[..|ms|-1], ms[|ms|-1];
    && Mixed(s, c, ms') && Enabled(Exec(s, ms'), m) && !m.Detach? && !m.Clear?
    && (m.Push? ==> m.t !in Ever(c, ms') && Exec(s, ms').Pc(m.t) == HeadRead)
  }

  /** After every move of the run the chain is exactly the threads that were on it or
      pushed and have not exited, in their order. */
  ghost predicate ChainRight(s: State, c: seq<Tid>, ms: seq<Move>) {
    var s', cur := Exec(s, ms), Live(Exec(s, ms), Ever(c, ms));
    Linked(s', s'.status, cur) && (ms == [] || ChainRight(s, c, ms[..|ms|-1]))
  }

  /** A chain that is right after the last write of a canceller shows that the write met
      the condition. */
  lemma RightShowsOk(s: State, all: seq<Tid>, t: Tid)
    requires ChainInv(s, all)
    requires var s' := CancelStep(s, t); Linked(s', s'.status, Live(s', all))
    ensures LastWriteOk(s, Cancel(t), Live(s, all))
  {
    var s', cur := CancelStep(s, t), Live(s, all);
    assert WalkOk(s, all, t);
    LiveDistinct(s, all);
    LiveIn(s, all, t);
    if s.Pc(t).HeadCas? && s.status == t {
      LiveWithout(s, s', all, t);
      HeadSwapExact(s, cur, t);
    } else if s.Pc(t).UnlinkWrite? {
      LiveWithout(s, s', all, t);
      UnlinkExact(s, cur, t);
    }
  }

  /** Exactly when the cancel path keeps its promise, for any number of cancellers: the
      chain is right after every move if and only if every last write of a canceller
      meets the condition. */
  lemma {:induction false} RightIffCareful(s: State, c: seq<Tid>, ms: seq<Move>)
    requires Linked(s, s.status, c) && Distinct(c) && s.pc == map[] && Mixed(s, c, ms)
    ensures ChainRight(s, c, ms) <==> Careful(s, c, ms)
    decreases |ms|
  {
    if ms == [] {
      StartsAlive(s, c, s.status);
    } else {
      var ms', m := ms[..|ms|-1], ms[|ms|-1];
      RightIffCareful(s, c, ms');
      if Careful(s, c, ms) { RunKeepsChain(s, c, ms); }
      if ChainRight(s, c, ms) && m.Cancel? {
        RunKeepsChain(s, c, ms');
        assert Ever(c, ms) == Ever(c, ms');
        RightShowsOk(Exec(s, ms'), Ever(c, ms'), m.t);
      }
    }
  }

  lemma {:induction false} StartsAlive(s: State, c: seq<Tid>, link: int)
    requires Linked(s, link, c) && s.pc == map[]
    ensures Live(s, c) == c && Skips(s, c)
  {
    if c != [] {
      StartsAlive(s, c[1..], s.Next(c[0]));
      assert c == [c[0]] + c[1..];
    }
  }

  /** A run of cancellation steps only, as the list of its states. */
  ghost predicate CancelRun(ss: seq<State>, who: seq<Tid>) {
    |ss| == |who| + 1 && forall i | 0 <= i < |who| :: ss[i+1] == CancelStep(ss[i], who[i])
  }

  /** Two cancellers at once can break it: on the chain d, a, b the thread b finds its
      predecessor a, a takes itself off, and then b unlinks itself from a, which nobody
      reaches any more. b has exited and is still on the chain. */
  lemma TwoCancellersRelink(s: State, d: Tid, a: Tid, b: Tid) returns (ss: seq<State>)
    requires d != a && d != b && a != b && Linked(s, s.status, [d, a, b]) && s.pc == map[]
    ensures CancelRun(ss, [b, b, b, b, a, a, a, a, b]) && ss[0] == s
    ensures ss[9].Pc(a) == Gone && ss[9].Pc(b) == Gone && Linked(ss[9], ss[9].status, [d, b])
  {
    LinkedAt(s, s.status, [d, a, b], 0);
    LinkedAt(s, s.status, [d, a, b], 1);
    LinkedAt(s, s.status, [d, a, b], 2);
    FindsPredecessor(s, d, a, b);
    var r := s.Goto(b, UnlinkWrite(a, END));
    LeavesSecondPlace(r, d, a, b);
    var s8 := r.(next := s.next[d := b]).Goto(a, Gone);
    var s9 := s8.(next := s8.next[a := END]).Goto(b, Gone);
    UnlinksFromGone(s8, d, a, b);
    ss := [s, s.Goto(b, WalkTest(d)), s.Goto(b, WalkTest(a)), s.Goto(b, UnlinkRead(a)), r,
           r.Goto(a, WalkTest(d)), r.Goto(a, UnlinkRead(d)), r.Goto(a, UnlinkWrite(d, b)), s8, s9];
  }

  /** b unlinks itself from a, which is off the chain d, b. */
  lemma UnlinksFromGone(s: State, d: Tid, a: Tid, b: Tid)
    requires d != a && a != b && s.status == d && s.Next(d) == b && s.Next(b) == END && s.Pc(b) == UnlinkWrite(a, END)
    ensures var s' := s.(next := s.next[a := END]).Goto(b, Gone);
      CancelStep(s, b) == s' && Linked(s', s'.status, [d, b])
  {
    assert [d, b][1..] == [b] && [b][1..] == [];
  }

  /** On the chain d, a, b the cancelled thread b gets ready to overwrite a's link. */
  lemma FindsPredecessor(s: State, d: Tid, a: Tid, b: Tid)
    requires d != a && d != b && a != b && s.status == d && s.Next(d) == a && s.Next(a) == b && s.Pc(b) == HeadRead
    ensures CancelStep(s, b) == s.Goto(b, WalkTest(d))
      && CancelStep(s.Goto(b, WalkTest(d)), b) == s.Goto(b, WalkTest(a))
    ensures CancelStep(s.Goto(b, WalkTest(a)), b) == s.Goto(b, UnlinkRead(a))
    ensures CancelStep(s.Goto(b, UnlinkRead(a)), b) == s.Goto(b, UnlinkWrite(a, s.Next(b)))
  {
  }

  /** The cancelled thread a next to the head d takes itself off. */
  lemma LeavesSecondPlace(s: State, d: Tid, a: Tid, b: Tid)
    requires d != a && s.status == d && s.Next(d) == a && s.Next(a) == b && s.Pc(a) == HeadRead
    ensures CancelStep(s, a) == s.Goto(a, WalkTest(d))
      && CancelStep(s.Goto(a, WalkTest(d)), a) == s.Goto(a, UnlinkRead(d))
    ensures CancelStep(s.Goto(a, UnlinkRead(d)), a) == s.Goto(a, UnlinkWrite(d, b))
    ensures CancelStep(s.Goto(a, UnlinkWrite(d, b)), a) == s.(next := s.next[d := b]).Goto(a, Gone)
  {
  }

  /** The other shape of the race, at the head of the chain a, b: a has read its link,
      b unlinks itself from a and exits, and then a's swap makes b the head again. */
  lemma HeadReadTooEarly(s: State, a: Tid, b: Tid) returns (ss: seq<State>)
    requires a != b && Linked(s, s.status, [a, b]) && s.pc == map[]
    ensures CancelRun(ss, [a, a, b, b, b, b, a]) && ss[0] == s
    ensures ss[7].Pc(b) == Gone && ss[7].status == b
  {
    LinkedAt(s, s.status, [a, b], 0);
    LinkedAt(s, s.status, [a, b], 1);
    var s1 := s.Goto(a, HeadNext);
    var s2 := s.Goto(a, HeadCas(b));
    var s3, s4 := s2.Goto(b, WalkTest(a)), s2.Goto(b, UnlinkRead(a));
    var s5 := s2.Goto(b, UnlinkWrite(a, END));
    var s6 := s2.(next := s.next[a := END]).Goto(b, Gone);
    var s7 := s6.(status := b).Goto(a, Gone);
    HeadReadSteps(s, a, b);
    ss := [s, s1, s2, s3, s4, s5, s6, s7];
  }

  lemma HeadReadSteps(s: State, a: Tid, b: Tid)
    requires a != b && s.status == a && s.Next(a) == b && s.Next(b) == END && s.pc == map[]
    ensures var s1, s2 := s.Goto(a, HeadNext), s.Goto(a, HeadCas(b));
      var s3, s4, s5 := s2.Goto(b, WalkTest(a)), s2.Goto(b, UnlinkRead(a)), s2.Goto(b, UnlinkWrite(a, END));
      var s6 := s2.(next := s.next[a := END]).Goto(b, Gone);
      && CancelStep(s, a) == s1 && CancelStep(s1, a) == s2
      && CancelStep(s2, b) == s3 && CancelStep(s3, b) == s4 && CancelStep(s4, b) == s5
      && CancelStep(s5, b) == s6 && CancelStep(s6, a) == s6.(status := b).Goto(a, Gone)
  {
  }

  /** A run of any moves, as the list of its states. */
  ghost predicate MoveRun(ss: seq<State>, ms: seq<Move>) {
    |ss| == |ms| + 1 && forall i | 0 <= i < |ms| :: Enabled(ss[i], ms[i]) && ss[i+1] == Step(ss[i], ms[i])
  }

  lemma RunsJoin(ss: seq<State>, ms: seq<Move>, rr: seq<State>, ks: seq<Move>)
    requires MoveRun(ss, ms) && MoveRun(rr, ks) && ss[|ms|] == rr[0]
    ensures MoveRun(ss + rr[1..], ms + ks)
  {
    var all, moves := ss + rr[1..], ms + ks;
    forall i | 0 <= i < |moves| ensures Enabled(all[i], moves[i]) && all[i+1] == Step(all[i], moves[i]) {
      if i >= |ms| { assert all[i] == rr[i - |ms|] && all[i+1] == rr[i - |ms| + 1]; }
    }
  }

  /** On the chain a, t the cancelled thread t finds its predecessor a, ... */
  lemma FindsNext(s: State, a: Tid, t: Tid)
    requires a != t && s.status == a && s.Next(a) == t && s.Next(t) == END && s.Pc(t) == HeadRead
    ensures MoveRun([s, s.Goto(t, WalkTest(a)), s.Goto(t, UnlinkRead(a)), s.Goto(t, UnlinkWrite(a, END))],
                    [Cancel(t), Cancel(t), Cancel(t)])
  {
  }

  lemma CutsOff(s: State, a: Tid, t: Tid, x: Tid) returns (ss: seq<State>)
    requires a != t && a != x && t != x && s.status == a && s.Pc(t) == UnlinkWrite(a, END)
    ensures MoveRun(ss, [Detach, Clear(a), Take, Push(x), Push(a), Cancel(t)]) && ss[0] == s
    ensures Linked(ss[5], ss[5].status, [a, x]) && Linked(ss[6], ss[6].status, [a])
  {
    var s1 := s.(status := 3);
    var s2 := s1.(next := s.next[a := NULL]);
    var s3 := s2.(status := 1);
    var s4 := s3.(next := s2.next[x := END], status := x);
    var s5 := s4.(next := s4.next[a := x], status := a);
    var s6 := s5.(next := s5.next[a := END]).Goto(t, Gone);
    assert [a, x][1..] == [x] && [x][1..] == [] && [a][1..] == [];
    ss := [s, s1, s2, s3, s4, s5, s6];
  }

  /** ... and is about to unlink itself from it when a post detaches the chain and clears
      the link of a; x and then a wait again, and the store of t cuts x off: it waits and
      is on no chain. */
  lemma PostThenCutOff(s: State, a: Tid, t: Tid, x: Tid) returns (ss: seq<State>)
    requires a != t && a != x && t != x && Linked(s, s.status, [a, t]) && s.pc == map[]
    ensures MoveRun(ss, [Cancel(t), Cancel(t), Cancel(t)] + [Detach, Clear(a), Take, Push(x), Push(a), Cancel(t)])
    ensures ss[0] == s && Linked(ss[8], ss[8].status, [a, x]) && Linked(ss[9], ss[9].status, [a])
  {
    LinkedAt(s, s.status, [a, t], 0);
    LinkedAt(s, s.status, [a, t], 1);
    FindsNext(s, a, t);
    var found := [s, s.Goto(t, WalkTest(a)), s.Goto(t, UnlinkRead(a)), s.Goto(t, UnlinkWrite(a, END))];
    var cut := CutsOff(found[3], a, t, x);
    RunsJoin(found, [Cancel(t), Cancel(t), Cancel(t)], cut, [Detach, Clear(a), Take, Push(x), Push(a), Cancel(t)]);
    ss := found + cut[1..];
  }
}
