/** The cancellation path of sem_wait (semaphore.c:105-135): a cancelled waiter
    takes itself off the chain before it exits. Loads, stores and compare-and-swaps
    of the path are separate steps, except that WalkTest takes the loads of the same
    link in one iteration of the walk (lines 126, 127 and 131) as one. Between the
    steps other threads may push themselves on the chain and take or add units of a
    semaphore without waiters, and a post may detach the chain and clear its links. */
module SemaphoreCancel {
  import opened Words
  import opened Seqs

  datatype Pc =
    | HeadRead                            // read the status word
    | HeadNext                            // it named us: read our own link
    | HeadCas(want: Link)                 // and swap it in
    | WalkTest(at: Tid)                   // compare the link of `at`
    | UnlinkRead(at: Tid)                 // it named us: read our own link
    | UnlinkWrite(at: Tid, want: Link)    // and store it there
    | Gone                                // pthread_exit

  datatype State = State(status: int, next: map<Tid, Link>, pc: map<Tid, Pc>)
  {
    function Next(t: Tid): Link { if t in next then next[t] else NULL }
    function Pc(t: Tid): Pc { if t in pc then pc[t] else HeadRead }
    function Goto(t: Tid, p: Pc): State { this.(pc := pc[t := p]) }
  }

  predicate IsThread(v: int) { v >= 2 && v % 2 == 0 }

  /** One step of the cancellation path of thread t. */
  function CancelStep(s: State, t: Tid): State {
    match s.Pc(t)
    case HeadRead =>
      if s.status == t then s.Goto(t, HeadNext)
      else if IsThread(s.status) then s.Goto(t, WalkTest(s.status))
      else s.Goto(t, Gone)
    case HeadNext => s.Goto(t, HeadCas(s.Next(t)))
    case HeadCas(want) =>
      if s.status != t then s.Goto(t, HeadRead) else s.(status := want).Goto(t, Gone)
    case WalkTest(at) =>
      var v := s.Next(at);
      if v == t then s.Goto(t, UnlinkRead(at))
      else if IsThread(v) then s.Goto(t, WalkTest(v))
      else s.Goto(t, Gone)
    case UnlinkRead(at) => s.Goto(t, UnlinkWrite(at, s.Next(t)))
    case UnlinkWrite(at, want) => s.(next := s.next[at := want]).Goto(t, Gone)
    case Gone => s
  }

  /** A move: a step of a cancelled thread, or one of the environment. */
  datatype Move = Cancel(t: Tid) | Push(t: Tid) | Take | Add | Detach | Clear(t: Tid)

  predicate Enabled(s: State, m: Move) {
    match m
    case Cancel(_) => true
    case Push(_) => IsThread(s.status) || s.status == 1
    case Take => s.status % 2 == 1 && s.status > 1
    case Add => s.status % 2 == 1
    case Detach => IsThread(s.status)
    case Clear(_) => true
  }

  function Step(s: State, m: Move): State
    requires Enabled(s, m)
  {
    match m
    case Cancel(t) => CancelStep(s, t)
    case Push(t) => s.(next := s.next[t := s.status], status := t)
    case Take => s.(status := s.status - 2)
    case Add => s.(status := s.status + 2)
    case Detach => s.(status := 3)
    case Clear(t) => s.(next := s.next[t := NULL])
  }

  /** Following the links from the status word visits the threads of c. */
  ghost predicate Linked(s: State, link: int, c: seq<Tid>)
    decreases |c|
  {
    if c == [] then link % 2 == 1
    else link == c[0] && (c[1..] == [] ==> s.Next(c[0]) == END) && Linked(s, s.Next(c[0]), c[1..])
  }

  function Without(c: seq<Tid>, x: Tid): seq<Tid> {
    if c == [] then [] else if c[0] == x then Without(c[1..], x) else [c[0]] + Without(c[1..], x)
  }

  /** The threads pushed by a run, the latest first. */
  function Pushed(ms: seq<Move>): seq<Tid> {
    if ms == [] then []
    else var m := ms[|ms|-1]; (if m.Push? then [m.t] else []) + Pushed(ms[..|ms|-1])
  }

  /** A run in which t alone cancels, no post walks the chain, and each pushed thread
      is new to the chain. */
  ghost predicate SoleCanceller(s: State, c: seq<Tid>, t: Tid, ms: seq<Move>) {
    ms == [] ||
    var ms', m := ms[..|ms|-1], ms[|ms|-1];
    && SoleCanceller(s, c, t, ms')
    && Enabled(Exec(s, ms'), m)
    && (m.Cancel? ==> m.t == t) && !m.Detach? && !m.Clear?
    && (m.Push? ==> m.t != t && m.t !in c && m.t !in Pushed(ms'))
  }

  ghost function Exec(s: State, ms: seq<Move>): State {
    if ms == [] then s
    else var p := Exec(s, ms[..|ms|-1]); if Enabled(p, ms[|ms|-1]) then Step(p, ms[|ms|-1]) else p
  }

  lemma LinkedFrame(s: State, s': State, link: int, c: seq<Tid>)
    requires Linked(s, link, c) && forall x | x in c :: s'.Next(x) == s.Next(x)
    ensures Linked(s', link, c)
    decreases |c|
  {
    if c != [] { LinkedFrame(s, s', s.Next(c[0]), c[1..]); }
  }

  /** The link of the i-th thread of a chain. */
  lemma LinkedAt(s: State, link: int, c: seq<Tid>, i: nat)
    requires Linked(s, link, c) && i < |c|
    ensures s.Next(c[i]) == if i + 1 < |c| then c[i+1] else END
    decreases i
  {
    if i > 0 { LinkedAt(s, s.Next(c[0]), c[1..], i - 1); }
  }

  lemma WithoutAbsent(c: seq<Tid>, x: Tid)
    requires x !in c
    ensures Without(c, x) == c
  {
    if c != [] { WithoutAbsent(c[1..], x); }
  }

  lemma WithoutGone(c: seq<Tid>, x: Tid)
    ensures x !in Without(c, x)
  {
    if c != [] { WithoutGone(c[1..], x); }
  }

  /** Storing x's link in its predecessor takes x, and only x, off the chain. */
  lemma Unlinked(s: State, s': State, link: int, c: seq<Tid>, i: nat)
    requires Linked(s, link, c) && Distinct(c) && i + 1 < |c|
    requires forall y :: s'.Next(y) == if y == c[i] then s.Next(c[i+1]) else s.Next(y)
    ensures Linked(s', link, Without(c, c[i+1])) && Distinct(Without(c, c[i+1]))
    decreases i
  {
    var x := c[i+1];
    assert c[0] != x;
    if i == 0 {
      WithoutAbsent(c[2..], x);
      assert c[1..][1..] == c[2..];
      LinkedFrame(s, s', s.Next(x), c[2..]);
      assert Without(c, x) == [c[0]] + c[2..];
      LinkedAt(s, link, c, 1);
    } else {
      assert c[1..][i] == x;
      Unlinked(s, s', s.Next(c[0]), c[1..], i - 1);
      WithoutOnly(c[1..], x);
    }
  }

  lemma WithoutOnly(c: seq<Tid>, x: Tid)
    ensures forall y :: y in Without(c, x) <==> y in c && y != x
  {
    if c != [] {
      WithoutOnly(c[1..], x);
      assert c == [c[0]] + c[1..];
    }
  }

  /** cur is the chain; i is where the walk of t stands on it. */
  ghost predicate Inv(s: State, t: Tid, cur: seq<Tid>, i: nat) {
    && Linked(s, s.status, cur) && Distinct(cur)
    && match s.Pc(t)
       case HeadRead => true
       case HeadNext => t in cur
       case HeadCas(want) => t in cur && want == s.Next(t)
       case WalkTest(at) => i < |cur| && cur[i] == at && at != t && (t in cur ==> t in cur[i+1..])
       case UnlinkRead(at) => i + 1 < |cur| && cur[i] == at && cur[i+1] == t
       case UnlinkWrite(at, want) => i + 1 < |cur| && cur[i] == at && cur[i+1] == t && want == s.Next(t)
       case Gone => t !in cur
  }

  lemma LinkedIndex(s: State, link: int, c: seq<Tid>, t: Tid) returns (i: nat)
    requires Linked(s, link, c) && t in c
    ensures i < |c| && c[i] == t && (s.Next(t) == END || IsThread(s.Next(t)))
  {
    i :| 0 <= i < |c| && c[i] == t;
    LinkedAt(s, link, c, i);
  }

  /** A step of the canceller leaves the chain as it is or takes t off it. */
  lemma CancelKeepsInv(s: State, t: Tid, cur: seq<Tid>, i: nat) returns (cur': seq<Tid>, i': nat)
    requires Inv(s, t, cur, i)
    ensures Inv(CancelStep(s, t), t, cur', i')
    ensures cur' == if CancelStep(s, t).Pc(t) == Gone then Without(cur, t) else cur
  {
    var s' := CancelStep(s, t);
    cur', i' := cur, 0;
    match s.Pc(t)
    case HeadRead =>
      LinkedFrame(s, s', s.status, cur);
      if s'.Pc(t) == Gone { WithoutAbsent(cur, t); }
      else if s'.Pc(t).WalkTest? { assert cur == [cur[0]] + cur[1..]; }
    case HeadNext => LinkedFrame(s, s', s.status, cur);
    case HeadCas(want) =>
      var _ := LinkedIndex(s, s.status, cur, t);
      if s.status == t {
        WithoutAbsent(cur[1..], t);
        LinkedFrame(s, s', want, cur[1..]);
        cur' := cur[1..];
      } else {
        LinkedFrame(s, s', s.status, cur);
      }
    case WalkTest(at) =>
      LinkedFrame(s, s', s.status, cur);
      LinkedAt(s, s.status, cur, i);
      i' := i;
      if s'.Pc(t).WalkTest? {
        i' := i + 1;
        assert cur[i+1..] == [cur[i+1]] + cur[i+2..];
      } else if s'.Pc(t) == Gone {
        assert cur[i+1..] == [];
        WithoutAbsent(cur, t);
      }
    case UnlinkRead(at) => LinkedFrame(s, s', s.status, cur); i' := i;
    case UnlinkWrite(at, want) =>
      Unlinked(s, s', s.status, cur, i);
      WithoutGone(cur, t);
      cur' := Without(cur, t);
    case Gone => WithoutAbsent(cur, t);
  }

  lemma WithoutConcat(a: seq<Tid>, b: seq<Tid>, x: Tid)
    requires x !in a
    ensures Without(a + b, x) == a + Without(b, x)
  {
    if a == [] { assert a + b == b; }
    else { assert (a + b)[1..] == a[1..] + b; WithoutConcat(a[1..], b, x); }
  }

  lemma EnvKeepsInv(s: State, m: Move, t: Tid, cur: seq<Tid>, i: nat) returns (cur': seq<Tid>, i': nat)
    requires Inv(s, t, cur, i) && Enabled(s, m) && !m.Cancel? && !m.Detach? && !m.Clear?
    requires m.Push? ==> m.t != t && m.t !in cur
    ensures Inv(Step(s, m), t, cur', i')
    ensures cur' == if m.Push? then [m.t] + cur else cur
  {
    var s' := Step(s, m);
    if m.Push? {
      cur', i' := [m.t] + cur, i + 1;
      assert cur'[1..] == cur;
      if s.Pc(t).WalkTest? { assert cur'[i+2..] == cur[i+1..]; }
      LinkedFrame(s, s', s.status, cur);
    } else {
      cur', i' := cur, i;
      LinkedFrame(s, s', s'.status, cur);
    }
  }

  /** The chain after a run of which t is the only canceller. */
  ghost function ChainAfter(c: seq<Tid>, t: Tid, pushed: seq<Tid>, gone: bool): seq<Tid> {
    pushed + if gone then Without(c, t) else c
  }

  lemma ChainAfterExit(c: seq<Tid>, t: Tid, pushed: seq<Tid>, gone: bool)
    requires t !in pushed
    ensures Without(ChainAfter(c, t, pushed, gone), t) == ChainAfter(c, t, pushed, true)
  {
    WithoutConcat(pushed, if gone then Without(c, t) else c, t);
    WithoutGone(c, t);
    WithoutAbsent(Without(c, t), t);
  }

  lemma ChainAfterPush(c: seq<Tid>, t: Tid, pushed: seq<Tid>, gone: bool, x: Tid)
    requires x !in c && x !in pushed
    ensures x !in ChainAfter(c, t, pushed, gone)
    ensures [x] + ChainAfter(c, t, pushed, gone) == ChainAfter(c, t, [x] + pushed, gone)
  {
    WithoutOnly(c, t);
  }

  lemma MoveKeepsInv(p: State, m: Move, c: seq<Tid>, t: Tid, pushed: seq<Tid>, i: nat) returns (i': nat)
    requires Inv(p, t, ChainAfter(c, t, pushed, p.Pc(t) == Gone), i) && Enabled(p, m) && t !in pushed
    requires (m.Cancel? ==> m.t == t) && !m.Detach? && !m.Clear?
      && (m.Push? ==> m.t != t && m.t !in c && m.t !in pushed)
    ensures var s' := Step(p, m);
      Inv(s', t, ChainAfter(c, t, if m.Push? then [m.t] + pushed else pushed, s'.Pc(t) == Gone), i')
  {
    var was := p.Pc(t) == Gone;
    var cur := ChainAfter(c, t, pushed, was);
    if m.Cancel? {
      var cur';
      cur', i' := CancelKeepsInv(p, t, cur, i);
      ChainAfterExit(c, t, pushed, was);
    } else {
      if m.Push? { ChainAfterPush(c, t, pushed, was, m.t); }
      var cur';
      cur', i' := EnvKeepsInv(p, m, t, cur, i);
    }
  }

  lemma RunKeepsInv(s: State, c: seq<Tid>, t: Tid, ms: seq<Move>) returns (i: nat)
    requires Linked(s, s.status, c) && Distinct(c) && s.Pc(t) == HeadRead && SoleCanceller(s, c, t, ms)
    ensures Inv(Exec(s, ms), t, ChainAfter(c, t, Pushed(ms), Exec(s, ms).Pc(t) == Gone), i)
    ensures t !in Pushed(ms)
    decreases |ms|
  {
    if ms == [] {
      i := 0;
      assert [] + c == c;
    } else {
      var ms', m := ms[..|ms|-1], ms[|ms|-1];
      i := RunKeepsInv(s, c, t, ms');
      i := MoveKeepsInv(Exec(s, ms'), m, c, t, Pushed(ms'), i);
      assert Pushed(ms) == if m.Push? then [m.t] + Pushed(ms') else Pushed(ms');
    }
  }

  /** Main theorem: when t reaches pthread_exit, the chain is exactly the old one
      without t, in its old order, below the threads pushed meanwhile; t is not on
      it. It does not matter where t stood, or whether it was on the chain at all. */
  lemma {:induction false} CancelRemovesOnlyCaller(s: State, c: seq<Tid>, t: Tid, ms: seq<Move>)
    requires Linked(s, s.status, c) && Distinct(c) && s.Pc(t) == HeadRead && SoleCanceller(s, c, t, ms)
    requires Exec(s, ms).Pc(t) == Gone
    ensures var c' := Pushed(ms) + Without(c, t); Linked(Exec(s, ms), Exec(s, ms).status, c') && t !in c'
  {
    var i := RunKeepsInv(s, c, t, ms);
  }
}
