/** The exception to single reclamation is real: a client that claims its only thread
    once, by a detach, can have the segment freed twice. */
module LifecycleWindow {
  import opened Options
  import opened Lifecycle
  import opened LifecycleReclaim

  /** A state and the claims on record. */
  datatype Node = Node(s: State, c: map<Tid, Claim>)

  /** A run written out with the nodes it goes through. */
  datatype Run = Begin | Then(run: Run, mv: Move, node: Node)

  const N0 := Node(INITIAL, map[])

  function End(r: Run): Node { if r.Begin? then N0 else r.node }

  predicate Leads(a: Node, mv: Move, b: Node) {
    && Enabled(a.s, mv) && Step(a.s, mv) == b.s && Records(a.s, a.c, mv) == b.c
    && (ClaimedBy(a.s, mv).Some? ==> Of(a.c, ClaimedBy(a.s, mv).value) == Nobody)
  }

  predicate Good(r: Run) { r.Then? ==> Good(r.run) && Leads(End(r.run), r.mv, r.node) }

  lemma Extend(r: Run, a: Node, mv: Move, b: Node) returns (r': Run)
    requires Good(r) && End(r) == a && Leads(a, mv, b)
    ensures Good(r') && End(r') == b
  {
    r' := Then(r, mv, b);
  }

  function Moves(r: Run): seq<Move> { if r.Begin? then [] else Moves(r.run) + [r.mv] }

  lemma {:induction false} GoodRun(r: Run)
    requires Good(r)
    ensures Legal(INITIAL, Moves(r)) && ClaimedOnce(Moves(r))
    ensures Exec(INITIAL, Moves(r)) == End(r).s && Claims(Moves(r)) == End(r).c
  {
    if r.Then? {
      GoodRun(r.run);
      assert Moves(r)[..|Moves(r)|-1] == Moves(r.run);
    }
  }

  const MANAGE := Manage(0, true)
  const MANAGE_NONE := Manage(0, false)
  const MAIN_GOES := Go(0, Exit(Null))
  const CHILD_GOES := Go(1, Exit(Null))
  const DETACH := Go(0, Detach(1))

  /** The main thread creates thread 1: the request and the manager's work, ... */
  const A1 := INITIAL.(pc := map[0 := CreateSuspend], pipe := [Create(0, false)])
  const A2 := A1.(mgr := Serve)
  const A3 := A2.(mgr := MkClone(0, false), pipe := [])
  const A4 := A3.(mgr := MkLink(0, 1), proc := map[0 := Alive, 1 := Alive],
                  pc := map[0 := CreateSuspend, 1 := Running], desc := map[1 := Fresh(false)])
  const A5 := A4.(mgr := MkReply(0, Some(1)), ring := {0, 1})
  const ANSWERED := Fresh(false).(retval := Id(1), created := true)
  const A6 := A5.(mgr := MkWake(0), desc := map[0 := ANSWERED, 1 := Fresh(false)])
  const UNCLAIMED: map<Tid, Claim> := map[1 := Nobody]
  const N1 := Node(A1, map[])
  const N2 := Node(A2, map[])
  const N3 := Node(A3, map[])
  const N4 := Node(A4, UNCLAIMED)
  const N5 := Node(A5, UNCLAIMED)
  const N6 := Node(A6, UNCLAIMED)

  lemma CreatesStepsA()
    ensures Leads(N0, Go(0, Start(false)), N1) && Leads(N1, MANAGE, N2) && Leads(N2, MANAGE, N3)
  {
  }

  lemma CreatesStepsB()
    ensures Leads(N3, Manage(1, true), N4) && Leads(N4, MANAGE, N5)
  {
  }

  lemma CreatesStepsC()
    ensures Leads(N5, MANAGE, N6)
  {
  }

  lemma Creates() returns (r: Run)
    ensures Good(r) && End(r) == N6
  {
    CreatesStepsA(); CreatesStepsB(); CreatesStepsC();
    r := Begin;
    r := Extend(r, N0, Go(0, Start(false)), N1);
    r := Extend(r, N1, MANAGE, N2);
    r := Extend(r, N2, MANAGE, N3);
    r := Extend(r, N3, Manage(1, true), N4);
    r := Extend(r, N4, MANAGE, N5);
    r := Extend(r, N5, MANAGE, N6);
  }

  /** ... and the answer; thread 1 then runs to its end but for _exit, ... */
  function B(p0: Pc, p1: Pc, d: Desc, waking: set<Tid>): State {
    State(map[0 := p0, 1 := p1], map[0 := Alive, 1 := Alive], map[0 := ANSWERED, 1 := d],
          map[], {0, 1}, waking, [], Loop, false, false, false)
  }
  const NEW := Fresh(false)
  const HELD := Fresh(false).(spin := Some(Thread(1)))
  const OVER1 := HELD.(terminated := true)
  const OVER := Fresh(false).(terminated := true)
  const N7 := Node(B(CreateSuspend, Running, NEW, {0}), UNCLAIMED)
  const N8 := Node(B(CreateRead, Running, NEW, {}), UNCLAIMED)
  const N9 := Node(B(Running, Running, NEW, {}), UNCLAIMED)
  const N10 := Node(B(Running, ExitAcq(Null), NEW, {}), UNCLAIMED)
  const N11 := Node(B(Running, ExitBody(Null), HELD, {}), UNCLAIMED)
  const N12 := Node(B(Running, ExitRel(None), OVER1, {}), UNCLAIMED)
  const N13 := Node(B(Running, ExitWake(None), OVER, {}), UNCLAIMED)
  const N14 := Node(B(Running, ExitEnd, OVER, {}), UNCLAIMED)

  lemma TerminatesStepsA()
    ensures Leads(N6, MANAGE, N7) && Leads(N7, MAIN_GOES, N8)
  {
  }

  lemma TerminatesStepsB()
    ensures Leads(N8, MAIN_GOES, N9) && Leads(N9, CHILD_GOES, N10)
  {
  }

  lemma TerminatesStepsC()
    ensures Leads(N10, CHILD_GOES, N11) && Leads(N11, CHILD_GOES, N12)
  {
  }

  lemma TerminatesStepsD()
    ensures Leads(N12, CHILD_GOES, N13) && Leads(N13, CHILD_GOES, N14)
  {
  }

  lemma Terminates() returns (r: Run)
    ensures Good(r) && End(r) == N14
  {
    TerminatesStepsA(); TerminatesStepsB(); TerminatesStepsC(); TerminatesStepsD();
    r := Creates();
    r := Extend(r, N6, MANAGE, N7);
    r := Extend(r, N7, MAIN_GOES, N8);
    r := Extend(r, N8, MAIN_GOES, N9);
    r := Extend(r, N9, CHILD_GOES, N10);
    r := Extend(r, N10, CHILD_GOES, N11);
    r := Extend(r, N11, CHILD_GOES, N12);
    r := Extend(r, N12, CHILD_GOES, N13);
    r := Extend(r, N13, CHILD_GOES, N14);
  }

  /** ... the main thread detaches it inside the window, ... */
  const OVER0 := OVER.(spin := Some(Thread(0)))
  const LOST := OVER.(detached := true)
  const LOST0 := LOST.(spin := Some(Thread(0)))
  const CLAIMED: map<Tid, Claim> := map[1 := By(0, false)]
  const LATE: map<Tid, Claim> := map[1 := By(0, true)]
  const N15 := Node(B(DetachAcq(1), ExitEnd, OVER, {}), CLAIMED)
  const N16 := Node(B(DetachBody(1), ExitEnd, OVER0, {}), CLAIMED)
  const N17 := Node(B(DetachRel(1, true), ExitEnd, LOST0, {}), LATE)
  const N18 := Node(B(DetachSend(1), ExitEnd, LOST, {}), LATE)

  lemma DetachesStepsA()
    ensures Leads(N14, DETACH, N15)
  {
  }

  lemma DetachesStepsB()
    ensures Leads(N15, DETACH, N16)
  {
  }

  lemma DetachesStepsC()
    ensures Leads(N16, DETACH, N17)
  {
  }

  lemma DetachesStepsD()
    ensures Leads(N17, DETACH, N18)
  {
  }

  lemma Detaches() returns (r: Run)
    ensures Good(r) && End(r) == N18
  {
    DetachesStepsA(); DetachesStepsB(); DetachesStepsC(); DetachesStepsD();
    r := Terminates();
    r := Extend(r, N14, DETACH, N15);
    r := Extend(r, N15, DETACH, N16);
    r := Extend(r, N16, DETACH, N17);
    r := Extend(r, N17, DETACH, N18);
  }

  /** ... the manager reaps the process and frees the segment, because the thread is
      detached, ... */
  function E(p0: Pc, p: Proc, d: Desc, n: nat, ring: set<Tid>, pipe: seq<Request>, m: Mgr,
             signal: bool, flag: bool): State {
    State(map[0 := p0, 1 := Dead], map[0 := Alive, 1 := p], map[0 := ANSWERED, 1 := d],
          if n == 0 then map[] else map[1 := n], ring, {}, pipe, m, signal, flag, false)
  }
  const SENDING := DetachSend(1)
  const LOSTM := LOST.(spin := Some(Manager))
  const GONE := LOST.(exited := true)
  const GONEM := GONE.(spin := Some(Manager))
  const ASKED: map<Tid, Claim> := map[1 := Asked(true)]
  const SETTLED: map<Tid, Claim> := map[1 := Settled(true)]
  const N19 := Node(E(SENDING, Zombie, LOST, 0, {0, 1}, [], Loop, true, false), LATE)
  const N20 := Node(E(SENDING, Zombie, LOST, 0, {0, 1}, [], Loop, false, true), LATE)
  const N21 := Node(E(SENDING, Zombie, LOST, 0, {0, 1}, [], Reap, false, false), LATE)
  const N22 := Node(E(SENDING, Reaped, LOST, 0, {0, 1}, [], ReapLink(1), false, false), LATE)
  const N23 := Node(E(SENDING, Reaped, LOST, 0, {0}, [], ReapAcq(1), false, false), LATE)

  lemma ReapsStepsA()
    ensures Leads(N18, CHILD_GOES, N19) && Leads(N19, Deliver, N20) && Leads(N20, MANAGE, N21)
  {
  }

  lemma ReapsStepsB()
    ensures Leads(N21, Manage(1, true), N22) && Leads(N22, MANAGE, N23)
  {
  }

  lemma Reaps() returns (r: Run)
    ensures Good(r) && End(r) == N23
  {
    ReapsStepsA(); ReapsStepsB();
    r := Detaches();
    r := Extend(r, N18, CHILD_GOES, N19);
    r := Extend(r, N19, Deliver, N20);
    r := Extend(r, N20, MANAGE, N21);
    r := Extend(r, N21, Manage(1, true), N22);
    r := Extend(r, N22, MANAGE, N23);
  }

  /** The states from there on. */
  function F(p0: Pc, d: Desc, n: nat, pipe: seq<Request>, m: Mgr): State {
    E(p0, Reaped, d, n, {0}, pipe, m, false, false)
  }
  const N24 := Node(F(DetachSend(1), LOST, 0, [], ReapAcq(1)), LATE)
  const N25 := Node(F(SENDING, LOSTM, 0, [], ReapBody(1)), LATE)
  const N26 := Node(F(SENDING, GONEM, 0, [], ReapRel(1, true)), LATE)
  const N27 := Node(F(SENDING, GONE, 0, [], ReapFree(1)), LATE)
  const N28 := Node(F(SENDING, GONE, 1, [], ReapCheck), LATE)
  const N29 := Node(F(SENDING, GONE, 1, [], Reap), LATE)
  const N30 := Node(F(SENDING, GONE, 1, [], Serve), LATE)
  const N31 := Node(F(SENDING, GONE, 1, [], Loop), LATE)

  lemma FreesOnceStepsA()
    ensures Leads(N24, MANAGE, N25) && Leads(N25, MANAGE, N26)
  {
  }

  lemma FreesOnceStepsB()
    ensures Leads(N26, MANAGE, N27) && Leads(N27, MANAGE, N28)
  {
  }

  lemma FreesOnceStepsC()
    ensures Leads(N28, MANAGE, N29) && Leads(N29, MANAGE_NONE, N30) && Leads(N30, MANAGE_NONE, N31)
  {
  }

  lemma FreesOnce() returns (r: Run)
    ensures Good(r) && End(r) == N31
  {
    FreesOnceStepsA(); FreesOnceStepsB(); FreesOnceStepsC();
    r := Reaps();
    r := Extend(r, N24, MANAGE, N25);
    r := Extend(r, N25, MANAGE, N26);
    r := Extend(r, N26, MANAGE, N27);
    r := Extend(r, N27, MANAGE, N28);
    r := Extend(r, N28, MANAGE, N29);
    r := Extend(r, N29, MANAGE_NONE, N30);
    r := Extend(r, N30, MANAGE_NONE, N31);
  }

  /** ... and the request of the detach makes it free the segment again. */
  const N32 := Node(F(DetachSend(1), GONE, 1, [], Loop), LATE)
  const N33 := Node(F(Running, GONE, 1, [Free(1)], Loop), ASKED)
  const N34 := Node(F(Running, GONE, 1, [Free(1)], Serve), ASKED)
  const N35 := Node(F(Running, GONE, 1, [], FreeAcq(1)), ASKED)
  const N36 := Node(F(Running, GONEM, 1, [], FreeBody(1)), ASKED)
  const N37 := Node(F(Running, GONEM, 2, [], Loop), SETTLED)

  lemma FreesAgainStepsA()
    ensures Leads(N32, DETACH, N33)
  {
  }

  lemma FreesAgainStepsB()
    ensures Leads(N33, MANAGE, N34) && Leads(N34, MANAGE, N35)
  {
  }

  lemma FreesAgainStepsC()
    ensures Leads(N35, MANAGE, N36)
  {
  }

  lemma FreesAgainStepsD()
    ensures Leads(N36, MANAGE, N37)
  {
  }

  lemma FreesAgain() returns (r: Run)
    ensures Good(r) && End(r) == N37
  {
    FreesAgainStepsA(); FreesAgainStepsB(); FreesAgainStepsC(); FreesAgainStepsD();
    r := FreesOnce();
    r := Extend(r, N32, DETACH, N33);
    r := Extend(r, N33, MANAGE, N34);
    r := Extend(r, N34, MANAGE, N35);
    r := Extend(r, N35, MANAGE, N36);
    r := Extend(r, N36, MANAGE, N37);
  }

  lemma {:induction false} FreedTwice() returns (ms: seq<Move>)
    ensures Legal(INITIAL, ms) && ClaimedOnce(ms) && Exec(INITIAL, ms).Frees(1) == 2
  {
    var r := FreesAgain();
    GoodRun(r);
    ms := Moves(r);
  }
}
