/** No wake-up of the semaphore protocol is lost, merged or sent twice. */
module SemaphoreWakeups {
  import opened Words
  import opened Seqs
  import opened Semaphore

  /** Where the outstanding wait of a thread is recorded. */
  datatype Place =
    | Nowhere          // not waiting
    | OnSem(k: Sid)    // on the chain of a status word
    | OnWalk(p: Tid)   // on the rest of the chain that poster p detached
    | Held(p: Tid)     // unlinked by poster p, its restart not sent yet
    | Woken            // restart pending

  /** The chains behind the pointers, as sequences. */
  datatype Shape = Shape(onSem: map<Sid, seq<Tid>>, onWalk: map<Tid, seq<Tid>>, place: map<Tid, Place>)
  {
    ghost function Sem(k: Sid): seq<Tid> { if k in onSem then onSem[k] else [] }
    ghost function Walk(p: Tid): seq<Tid> { if p in onWalk then onWalk[p] else [] }
    ghost function At(t: Tid): Place { if t in place then place[t] else Nowhere }
  }

  /** Following p_nextwaiting from `link` visits the threads of c and ends at END. */
  ghost predicate Linked(s: State, link: int, c: seq<Tid>)
    decreases |c|
  {
    if c == [] then link == END else link == c[0] && Linked(s, s.Next(c[0]), c[1..])
  }

  ghost predicate SemChainOk(s: State, g: Shape, k: Sid) {
    var c := g.Sem(k);
    && Distinct(c)
    && (if s.Status(k) % 2 == 1 then c == [] else Linked(s, s.Status(k), c))
    && (forall x | x in c :: g.At(x) == OnSem(k))
  }

  ghost predicate WalkOk(s: State, g: Shape, p: Tid) {
    var c := g.Walk(p);
    && Distinct(c)
    && (forall x | x in c :: g.At(x) == OnWalk(p))
    && match s.Pc(p)
       case WalkRead(th) => Linked(s, th, c)
       case WalkClear(th, nx) => Linked(s, th, c) && nx == s.Next(th)
       case WalkRestart(th, nx) => g.At(th) == Held(p) && Linked(s, nx, c)
       case _ => c == []
  }

  ghost predicate ThreadOk(s: State, g: Shape, t: Tid) {
    && (g.At(t) == Nowhere <==> !s.Pc(t).WaitSuspend?)
    && (g.At(t) == Woken <==> t in s.pending)
    && (match g.At(t)
        case OnSem(k) => t in g.Sem(k) && s.Pc(t) == WaitSuspend(k)
        case OnWalk(p) => t in g.Walk(p)
        case Held(p) => s.Pc(p).WalkRestart? && s.Pc(p).th == t && s.Next(t) == NULL
        case Woken => s.Next(t) == NULL
        case Nowhere => true)
    && (match s.Pc(t)
        case WaitLink(_, seen) => seen == 1 || seen % 2 == 0
        case WaitCas(_, seen, want) =>
          if want % 2 == 1 then seen == want + 2
          else want == t && s.Next(t) == seen && (seen == 1 || seen % 2 == 0)
        case TryCas(_, seen, want) => seen % 2 == 1 && seen == want + 2
        case PostCas(_, seen, want) =>
          if seen % 2 == 0 then want == 3 else seen < SEM_VALUE_MAX && want == seen + 2
        case _ => true)
  }

  ghost predicate Inv(s: State, g: Shape) {
    && (forall k :: SemChainOk(s, g, k))
    && (forall p :: WalkOk(s, g, p))
    && (forall t :: ThreadOk(s, g, t))
  }

  lemma LinkedFrame(s: State, s': State, link: int, c: seq<Tid>)
    requires Linked(s, link, c)
    requires forall x | x in c :: s'.Next(x) == s.Next(x)
    ensures Linked(s', link, c)
    decreases |c|
  {
    if c != [] { LinkedFrame(s, s', s.Next(c[0]), c[1..]); }
  }

  /** A semaphore is undisturbed when its word, its chain and its waiters are. */
  lemma SemFrame(s: State, g: Shape, s': State, g': Shape, k: Sid)
    requires SemChainOk(s, g, k)
    requires s'.Status(k) == s.Status(k) && g'.Sem(k) == g.Sem(k)
    requires forall x | x in g.Sem(k) :: s'.Next(x) == s.Next(x) && g'.At(x) == g.At(x)
    ensures SemChainOk(s', g', k)
  {
    if s.Status(k) % 2 == 0 { LinkedFrame(s, s', s.Status(k), g.Sem(k)); }
  }

  /** So is a poster that does not move while its part of the chain is untouched. */
  lemma WalkFrame(s: State, g: Shape, s': State, g': Shape, p: Tid)
    requires WalkOk(s, g, p)
    requires s'.Pc(p) == s.Pc(p) && g'.Walk(p) == g.Walk(p)
    requires forall x | g.At(x) == OnWalk(p) || g.At(x) == Held(p) :: s'.Next(x) == s.Next(x) && g'.At(x) == g.At(x)
    ensures WalkOk(s', g', p)
  {
    match s.Pc(p)
    case WalkRead(th) => LinkedFrame(s, s', th, g.Walk(p));
    case WalkClear(th, nx) => LinkedFrame(s, s', th, g.Walk(p));
    case WalkRestart(th, nx) => LinkedFrame(s, s', nx, g.Walk(p));
    case _ =>
  }

  /** A step of t that leaves every link, chain and place alone and does not
      enter or leave a walk or a wait. */
  lemma LocalStep(s: State, g: Shape, s': State, t: Tid)
    requires Inv(s, g)
    requires s'.next == s.next && s'.pending == s.pending
    requires forall u | u != t :: s'.Pc(u) == s.Pc(u)
    requires forall k :: s'.Status(k) == s.Status(k) || (s.Status(k) % 2 == s'.Status(k) % 2 == 1)
    requires WalkOk(s', g, t) && ThreadOk(s', g, t)
    requires s.Pc(t).WalkRestart? == s'.Pc(t).WalkRestart? == false
    ensures Inv(s', g)
  {
    forall k ensures SemChainOk(s', g, k) {
      assert SemChainOk(s, g, k);
      if s'.Status(k) == s.Status(k) { SemFrame(s, g, s', g, k); }
    }
    forall p ensures WalkOk(s', g, p) {
      assert WalkOk(s, g, p);
      if p != t { WalkFrame(s, g, s', g, p); }
    }
    forall u ensures ThreadOk(s', g, u) { assert ThreadOk(s, g, u); }
  }

  /** WaitLink: t writes its own link, which no chain contains. */
  lemma LinkKeepsInv(s: State, g: Shape, t: Tid, call: Call)
    requires Inv(s, g) && s.Pc(t).WaitLink?
    ensures Inv(Step(s, t, call), g)
  {
    var s' := Step(s, t, call);
    assert ThreadOk(s, g, t) && WalkOk(s, g, t);
    forall k ensures SemChainOk(s', g, k) { assert SemChainOk(s, g, k); SemFrame(s, g, s', g, k); }
    forall p ensures WalkOk(s', g, p) {
      assert WalkOk(s, g, p);
      if p != t { WalkFrame(s, g, s', g, p); }
    }
    forall u ensures ThreadOk(s', g, u) { assert ThreadOk(s, g, u); }
  }

  ghost function ParkShape(g: Shape, t: Tid, k: Sid): Shape {
    g.(onSem := g.onSem[k := [t] + g.Sem(k)], place := g.place[t := OnSem(k)])
  }

  ghost predicate Parks(s: State, g: Shape, t: Tid) {
    Inv(s, g) && s.Pc(t).WaitCas? && s.Status(s.Pc(t).k) == s.Pc(t).seen && s.Pc(t).want % 2 == 0
  }

  lemma ParkChains(s: State, g: Shape, t: Tid, call: Call)
    requires Parks(s, g, t)
    ensures forall j :: SemChainOk(Step(s, t, call), ParkShape(g, t, s.Pc(t).k), j)
  {
    var k := s.Pc(t).k;
    assert ThreadOk(s, g, t) && SemChainOk(s, g, k);
    var s', g' := Step(s, t, call), ParkShape(g, t, k);
    forall j ensures SemChainOk(s', g', j) {
      assert SemChainOk(s, g, j);
      if j != k { SemFrame(s, g, s', g', j); }
      else {
        assert ([t] + g.Sem(k))[1..] == g.Sem(k);
        LinkedFrame(s, s', s.Next(t), g.Sem(k));
      }
    }
  }

  lemma ParkWalks(s: State, g: Shape, t: Tid, call: Call)
    requires Parks(s, g, t)
    ensures forall p :: WalkOk(Step(s, t, call), ParkShape(g, t, s.Pc(t).k), p)
  {
    var s', g' := Step(s, t, call), ParkShape(g, t, s.Pc(t).k);
    assert ThreadOk(s, g, t) && WalkOk(s, g, t);
    forall p ensures WalkOk(s', g', p) {
      assert WalkOk(s, g, p);
      if p != t { WalkFrame(s, g, s', g', p); }
    }
  }

  /** A waiter swaps itself in as the new head. */
  lemma ParkKeepsInv(s: State, g: Shape, t: Tid, call: Call)
    requires Parks(s, g, t)
    ensures Inv(Step(s, t, call), ParkShape(g, t, s.Pc(t).k))
  {
    var s', g' := Step(s, t, call), ParkShape(g, t, s.Pc(t).k);
    ParkChains(s, g, t, call);
    ParkWalks(s, g, t, call);
    assert ThreadOk(s, g, t);
    forall u ensures ThreadOk(s', g', u) { assert ThreadOk(s, g, u); }
  }

  ghost function DetachShape(g: Shape, t: Tid, k: Sid): Shape {
    var c := g.Sem(k);
    g.(onSem := g.onSem[k := []], onWalk := g.onWalk[t := c],
       place := map x | x in g.place.Keys :: if x in c then OnWalk(t) else g.place[x])
  }

  lemma DetachPlaces(s: State, g: Shape, t: Tid, k: Sid)
    requires Inv(s, g)
    ensures forall x :: DetachShape(g, t, k).At(x) == if x in g.Sem(k) then OnWalk(t) else g.At(x)
  {
    assert SemChainOk(s, g, k);
  }

  /** A poster swaps the whole chain out and owns it from then on. */
  lemma DetachKeepsInv(s: State, g: Shape, t: Tid, call: Call)
    requires Inv(s, g) && s.Pc(t).PostCas? && s.Status(s.Pc(t).k) == s.Pc(t).seen && s.Pc(t).seen % 2 == 0
    ensures Inv(Step(s, t, call), DetachShape(g, t, s.Pc(t).k))
  {
    var k := s.Pc(t).k;
    assert ThreadOk(s, g, t) && WalkOk(s, g, t) && SemChainOk(s, g, k);
    var s', g' := Step(s, t, call), DetachShape(g, t, k);
    DetachPlaces(s, g, t, k);
    forall j ensures SemChainOk(s', g', j) {
      assert SemChainOk(s, g, j);
      if j != k { SemFrame(s, g, s', g', j); }
    }
    DetachKeepsWalks(s, g, t, call);
    DetachKeepsThreads(s, g, t, call);
  }

  lemma DetachKeepsThreads(s: State, g: Shape, t: Tid, call: Call)
    requires Inv(s, g) && s.Pc(t).PostCas? && s.Status(s.Pc(t).k) == s.Pc(t).seen && s.Pc(t).seen % 2 == 0
    ensures forall u :: ThreadOk(Step(s, t, call), DetachShape(g, t, s.Pc(t).k), u)
  {
    var k := s.Pc(t).k;
    assert ThreadOk(s, g, t) && WalkOk(s, g, t) && SemChainOk(s, g, k);
    DetachPlaces(s, g, t, k);
    forall u ensures ThreadOk(Step(s, t, call), DetachShape(g, t, k), u) { assert ThreadOk(s, g, u); }
  }

  lemma DetachKeepsWalks(s: State, g: Shape, t: Tid, call: Call)
    requires Inv(s, g) && s.Pc(t).PostCas? && s.Status(s.Pc(t).k) == s.Pc(t).seen && s.Pc(t).seen % 2 == 0
    ensures forall p :: WalkOk(Step(s, t, call), DetachShape(g, t, s.Pc(t).k), p)
  {
    var k := s.Pc(t).k;
    var s', g' := Step(s, t, call), DetachShape(g, t, k);
    assert SemChainOk(s, g, k);
    DetachPlaces(s, g, t, k);
    forall p ensures WalkOk(s', g', p) {
      assert WalkOk(s, g, p);
      if p != t { WalkFrame(s, g, s', g', p); } else { LinkedFrame(s, s', s.Status(k), g.Sem(k)); }
    }
  }

  ghost function ClearShape(g: Shape, t: Tid): Shape
    requires g.Walk(t) != []
  {
    g.(onWalk := g.onWalk[t := g.Walk(t)[1..]], place := g.place[g.Walk(t)[0] := Held(t)])
  }

  /** A poster nulls the link of the first thread left on its chain. */
  lemma ClearKeepsInv(s: State, g: Shape, t: Tid, call: Call)
    requires Inv(s, g) && s.Pc(t).WalkClear?
    ensures g.Walk(t) != [] && Inv(Step(s, t, call), ClearShape(g, t))
  {
    var th := s.Pc(t).th;
    assert ThreadOk(s, g, t) && WalkOk(s, g, t) && ThreadOk(s, g, th);
    var s', g' := Step(s, t, call), ClearShape(g, t);
    forall j ensures SemChainOk(s', g', j) { assert SemChainOk(s, g, j); SemFrame(s, g, s', g', j); }
    forall p ensures WalkOk(s', g', p) {
      assert WalkOk(s, g, p);
      if p != t { WalkFrame(s, g, s', g', p); }
      else {
        forall x | x in g.Walk(t)[1..] ensures x in g.Walk(t) && x != th { }
        LinkedFrame(s, s', s.Next(th), g.Walk(t)[1..]);
      }
    }
    forall u ensures ThreadOk(s', g', u) { assert ThreadOk(s, g, u); }
  }

  /** The restart reaches a thread that has none pending. */
  lemma RestartKeepsInv(s: State, g: Shape, t: Tid, call: Call)
    requires Inv(s, g) && s.Pc(t).WalkRestart?
    ensures s.Pc(t).th !in s.pending
    ensures Inv(Step(s, t, call), g.(place := g.place[s.Pc(t).th := Woken]))
  {
    var th := s.Pc(t).th;
    assert ThreadOk(s, g, t) && WalkOk(s, g, t) && ThreadOk(s, g, th);
    var s', g' := Step(s, t, call), g.(place := g.place[th := Woken]);
    forall j ensures SemChainOk(s', g', j) { assert SemChainOk(s, g, j); SemFrame(s, g, s', g', j); }
    forall p ensures WalkOk(s', g', p) {
      assert WalkOk(s, g, p);
      if p != t { WalkFrame(s, g, s', g', p); } else { LinkedFrame(s, s', s.Pc(t).nx, g.Walk(t)); }
    }
    forall u ensures ThreadOk(s', g', u) { assert ThreadOk(s, g, u); }
  }

  lemma ResumeKeepsInv(s: State, g: Shape, t: Tid, call: Call)
    requires Inv(s, g) && s.Pc(t).WaitSuspend? && t in s.pending
    ensures Inv(Step(s, t, call), g.(place := g.place[t := Nowhere]))
  {
    assert ThreadOk(s, g, t) && WalkOk(s, g, t);
    var s', g' := Step(s, t, call), g.(place := g.place[t := Nowhere]);
    forall j ensures SemChainOk(s', g', j) { assert SemChainOk(s, g, j); SemFrame(s, g, s', g', j); }
    forall p ensures WalkOk(s', g', p) {
      assert WalkOk(s, g, p);
      if p != t { WalkFrame(s, g, s', g', p); }
    }
    forall u ensures ThreadOk(s', g', u) { assert ThreadOk(s, g, u); }
  }

  lemma WalkReadKeepsInv(s: State, g: Shape, t: Tid, call: Call)
    requires Inv(s, g) && s.Pc(t).WalkRead?
    ensures Inv(Step(s, t, call), g)
  {
    assert ThreadOk(s, g, t) && WalkOk(s, g, t);
    var s' := Step(s, t, call);
    LinkedFrame(s, s', s.Pc(t).th, g.Walk(t));
    LocalStep(s, g, s', t);
  }

  /** The other steps move no waiter. */
  predicate Quiet(s: State, t: Tid) {
    match s.Pc(t)
    case WaitLink(_, _) | WaitSuspend(_) | WalkRead(_) | WalkClear(_, _) | WalkRestart(_, _) => false
    case WaitCas(k, seen, want) => s.Status(k) != seen || want % 2 == 1
    case PostCas(k, seen, _) => s.Status(k) != seen || seen % 2 == 1
    case _ => true
  }

  lemma QuietStep(s: State, g: Shape, t: Tid, call: Call)
    requires ThreadOk(s, g, t) && WalkOk(s, g, t) && Quiet(s, t)
    ensures var s' := Step(s, t, call);
      && s'.next == s.next && s'.pending == s.pending && (forall u | u != t :: s'.Pc(u) == s.Pc(u))
      && (forall k :: s'.Status(k) == s.Status(k) || (s.Status(k) % 2 == s'.Status(k) % 2 == 1))
      && WalkOk(s', g, t) && ThreadOk(s', g, t) && !s'.Pc(t).WalkRestart?
  {
  }

  lemma QuietKeepsInv(s: State, g: Shape, t: Tid, call: Call)
    requires Inv(s, g) && Quiet(s, t)
    ensures Inv(Step(s, t, call), g)
  {
    assert ThreadOk(s, g, t) && WalkOk(s, g, t);
    QuietStep(s, g, t, call);
    LocalStep(s, g, Step(s, t, call), t);
  }

  /** How many steps poster p still needs to finish its walk. */
  ghost function WalkSteps(s: State, g: Shape, p: Tid): int {
    match s.Pc(p)
    case WalkRead(_) => 3 * |g.Walk(p)|
    case WalkClear(_, _) => 3 * |g.Walk(p)| - 1
    case WalkRestart(_, _) => 3 * |g.Walk(p)| + 1
    case _ => 0
  }

  ghost function NextShape(s: State, g: Shape, t: Tid): Shape {
    match s.Pc(t)
    case WaitSuspend(_) => g.(place := g.place[t := Nowhere])
    case WalkClear(_, _) => if g.Walk(t) == [] then g else ClearShape(g, t)
    case WalkRestart(th, _) => g.(place := g.place[th := Woken])
    case WaitCas(k, seen, want) => if s.Status(k) == seen && want % 2 == 0 then ParkShape(g, t, k) else g
    case PostCas(k, seen, _) => if s.Status(k) == seen && seen % 2 == 0 then DetachShape(g, t, k) else g
    case _ => g
  }

  /** Every step of every thread keeps the invariant. */
  lemma StepKeepsInv(s: State, g: Shape, t: Tid, call: Call)
    requires Inv(s, g) && Enabled(s, t)
    ensures Inv(Step(s, t, call), NextShape(s, g, t))
  {
    match s.Pc(t)
    case WaitLink(_, _) => LinkKeepsInv(s, g, t, call);
    case WaitSuspend(_) => ResumeKeepsInv(s, g, t, call);
    case WalkRead(_) => WalkReadKeepsInv(s, g, t, call);
    case WalkClear(_, _) => ClearKeepsInv(s, g, t, call);
    case WalkRestart(_, _) => RestartKeepsInv(s, g, t, call);
    case WaitCas(k, seen, want) =>
      if s.Status(k) == seen && want % 2 == 0 { ParkKeepsInv(s, g, t, call); } else { QuietKeepsInv(s, g, t, call); }
    case PostCas(k, seen, _) =>
      if s.Status(k) == seen && seen % 2 == 0 { DetachKeepsInv(s, g, t, call); } else { QuietKeepsInv(s, g, t, call); }
    case _ => QuietKeepsInv(s, g, t, call);
  }

  /** Only the poster's own steps shorten its walk, by one each. */
  lemma StepShortensWalk(s: State, g: Shape, t: Tid, call: Call)
    requires Inv(s, g) && Enabled(s, t)
    ensures WalkSteps(s, g, t) > 0 ==>
              WalkSteps(Step(s, t, call), NextShape(s, g, t), t) == WalkSteps(s, g, t) - 1
    ensures WalkSteps(s, g, t) == 0 ==> !s.Pc(t).WalkRead? && !s.Pc(t).WalkClear? && !s.Pc(t).WalkRestart?
  {
    assert WalkOk(s, g, t);
  }

  lemma StepKeepsOtherWalks(s: State, g: Shape, t: Tid, call: Call, p: Tid)
    requires Inv(s, g) && Enabled(s, t) && p != t
    ensures WalkSteps(Step(s, t, call), NextShape(s, g, t), p) == WalkSteps(s, g, p)
  {
    assert NextShape(s, g, t).Walk(p) == g.Walk(p);
    assert Step(s, t, call).Pc(p) == s.Pc(p);
  }

  lemma InitialInv(s: State) returns (g: Shape)
    requires Initial(s)
    ensures Inv(s, g)
  {
    g := Shape(map[], map[], map[]);
    forall k ensures SemChainOk(s, g, k) { }
  }

  lemma RunKeepsInv(s: State, ms: seq<Move>) returns (g: Shape)
    requires Initial(s) && Legal(s, ms)
    ensures Inv(Exec(s, ms), g)
    decreases |ms|
  {
    if ms == [] { g := InitialInv(s); }
    else {
      var m := ms[|ms|-1];
      g := RunKeepsInv(s, ms[..|ms|-1]);
      var p := Exec(s, ms[..|ms|-1]);
      StepKeepsInv(p, g, m.t, m.call);
      g := NextShape(p, g, m.t);
    }
  }

  /** t is reached by following the links from the status word of k. */
  ghost predicate OnChain(s: State, k: Sid, t: Tid) {
    s.Status(k) % 2 == 0 && exists c :: Linked(s, s.Status(k), c) && t in c
  }

  ghost predicate ProperChain(s: State, k: Sid) {
    exists c: seq<Tid> :: Linked(s, s.Status(k), c) && Distinct(c)
  }

  /** Poster p has detached t and will restart it. */
  ghost predicate Owes(s: State, p: Tid, t: Tid) {
    match s.Pc(p)
    case WalkRead(th) => exists c :: Linked(s, th, c) && t in c
    case WalkClear(th, _) => exists c :: Linked(s, th, c) && t in c
    case WalkRestart(th, nx) => t == th || exists c :: Linked(s, nx, c) && t in c
    case _ => false
  }

  lemma LinkedUnique(s: State, link: int, c: seq<Tid>, d: seq<Tid>)
    requires Linked(s, link, c) && Linked(s, link, d)
    ensures c == d
    decreases |c|
  {
    if c != [] && d != [] {
      LinkedUnique(s, s.Next(c[0]), c[1..], d[1..]);
      assert c == [c[0]] + c[1..] && d == [d[0]] + d[1..];
    }
  }

  lemma OnChainIff(s: State, g: Shape, k: Sid, t: Tid)
    requires Inv(s, g)
    ensures OnChain(s, k, t) <==> g.At(t) == OnSem(k)
  {
    assert SemChainOk(s, g, k) && ThreadOk(s, g, t);
    if OnChain(s, k, t) {
      var c :| Linked(s, s.Status(k), c) && t in c;
      LinkedUnique(s, s.Status(k), c, g.Sem(k));
    }
  }

  lemma OwesIff(s: State, g: Shape, p: Tid, t: Tid)
    requires Inv(s, g)
    ensures Owes(s, p, t) <==> g.At(t) == OnWalk(p) || g.At(t) == Held(p)
  {
    assert WalkOk(s, g, p) && ThreadOk(s, g, t);
    var w := s.Pc(p);
    if w.WalkRead? || w.WalkClear? || w.WalkRestart? {
      var link := if w.WalkRestart? then w.nx else w.th;
      forall c | Linked(s, link, c) ensures c == g.Walk(p) { LinkedUnique(s, link, c, g.Walk(p)); }
    }
  }

  /** The outstanding wait of t is recorded exactly once, or t does not wait. */
  ghost predicate Accounted(s: State, t: Tid) {
    var owed := exists p :: Owes(s, p, t);
    && (forall p, q :: Owes(s, p, t) && Owes(s, q, t) ==> p == q)
    && (forall k :: OnChain(s, k, t) ==> s.Pc(t) == WaitSuspend(k))
    && match s.Pc(t)
       case WaitSuspend(k) =>
         || (OnChain(s, k, t) && !owed && t !in s.pending)
         || (!OnChain(s, k, t) && owed && t !in s.pending)
         || (!OnChain(s, k, t) && !owed && t in s.pending)
       case _ => !owed && t !in s.pending
  }

  lemma ThreadAccounted(s: State, g: Shape, t: Tid)
    requires Inv(s, g)
    ensures Accounted(s, t)
  {
    assert ThreadOk(s, g, t);
    forall k ensures OnChain(s, k, t) <==> g.At(t) == OnSem(k) { OnChainIff(s, g, k, t); }
    forall p ensures Owes(s, p, t) <==> g.At(t) == OnWalk(p) || g.At(t) == Held(p) { OwesIff(s, g, p, t); }
    match g.At(t)
    case OnWalk(p) => assert Owes(s, p, t);
    case Held(p) => assert Owes(s, p, t);
    case _ =>
  }

  /** Main theorem. In every reachable state each suspended thread is in exactly
      one of three places: on the chain of the semaphore it waits for, on the
      rest of the chain of exactly one poster, or woken with its restart
      pending. Nobody else is on a chain, every chain is finite, free of
      repetition and ends in END, and a semaphore with a positive count has no
      chain at all. */
  lemma {:induction false} NoLostWakeup(s0: State, ms: seq<Move>)
    requires Initial(s0) && Legal(s0, ms)
    ensures var s := Exec(s0, ms);
      && (forall t :: Accounted(s, t))
      && (forall k :: s.Status(k) % 2 == 0 ==> ProperChain(s, k))
      && (forall k, t :: Decode(s.Status(k)) > 0 ==> !OnChain(s, k, t))
  {
    var s := Exec(s0, ms);
    var g := RunKeepsInv(s0, ms);
    forall t ensures Accounted(s, t) { ThreadAccounted(s, g, t); }
    forall k | s.Status(k) % 2 == 0 ensures ProperChain(s, k) { assert SemChainOk(s, g, k); }
  }
}
