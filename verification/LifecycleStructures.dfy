/** The set of live threads and the count of frees of Lifecycle.dfy, carried out on the
    structures the manager works on: the linked ring of LiveRing.dfy and the marks of
    StackSegments.dfy. */
module LifecycleStructures {
  import opened Options
  import opened Seqs
  import opened Lifecycle
  import opened LifecycleInvariant
  import opened LifecycleReclaim
  import R = LiveRing
  import A = StackSegments

  /** The members of the ring have these pids, in order. */
  ghost predicate Spells(ring: R.Ring, pids: seq<int>)
    reads ring, ring.members
  {
    ring.Valid() && |ring.members| == |pids| && forall i | 0 <= i < |pids| :: ring.members[i].pid == pids[i]
  }

  /** They are the live threads, each once, the main one first. */
  ghost predicate Lists(pids: seq<int>, live: set<Tid>) {
    && pids != [] && pids[0] == MAIN && NoRepeats(pids)
    && (forall p | p in pids :: p >= 0 && p in live) && (forall t: Tid | t in live :: t in pids)
  }

  lemma Listed(pids: seq<int>, live: set<Tid>, kid: Tid)
    requires Lists(pids, live) && kid !in live
    ensures Lists([pids[0], kid] + pids[1..], live + {kid})
  {
    var more := [pids[0], kid] + pids[1..];
    forall i | 2 <= i < |more| ensures more[i] == pids[i-1] && more[i] != kid && more[i] != pids[0] { }
    forall p | p in more ensures p >= 0 && p in live + {kid} { assert p == kid || p in pids; }
    forall t: Tid | t in live + {kid} ensures t in more {
      if t == kid { assert more[1] == t; }
      else { var i :| 0 <= i < |pids| && pids[i] == t; assert more[if i == 0 then 0 else i + 1] == t; }
    }
  }

  lemma Unlisted(pids: seq<int>, live: set<Tid>, k: nat, th: Tid)
    requires Lists(pids, live) && 0 < k < |pids| && pids[k] == th
    ensures Lists(pids[..k] + pids[k+1..], live - {th})
  {
    var less := pids[..k] + pids[k+1..];
    forall i | 0 <= i < |less| ensures less[i] == pids[if i < k then i else i + 1] && less[i] != th { }
    forall p | p in less ensures p >= 0 && p in live - {th} { assert p in pids; }
    forall t: Tid | t in live - {th} ensures t in less {
      var i :| 0 <= i < |pids| && pids[i] == t;
      assert less[if i < k then i else i - 1] == t;
    }
  }

  /** pthread_handle_create links the new thread, ... */
  method Link(ring: R.Ring, ghost pids: seq<int>, kid: Tid)
    requires Spells(ring, pids) && pids != []
    modifies ring, ring.members
    ensures Spells(ring, [pids[0], kid] + pids[1..])
    ensures forall x | x in ring.members :: x in old(ring.members) || fresh(x)
  {
    var th := new R.Thread(kid);
    ghost var was := ring.members;
    ring.Insert(th, kid);
    ghost var m, more := ring.members, [pids[0], kid] + pids[1..];
    forall i | 0 <= i < |more| ensures m[i].pid == more[i] { if i >= 2 { assert m[i] == was[i-1]; } }
  }

  /** ... and pthread_exited finds a dead one by its pid and unlinks it. */
  method Unlink(ring: R.Ring, ghost pids: seq<int>, th: Tid) returns (ghost k: nat)
    requires Spells(ring, pids) && NoRepeats(pids) && th in pids && pids != [] && pids[0] != th
    modifies ring, ring.members
    ensures 0 < k < |pids| && pids[k] == th && Spells(ring, pids[..k] + pids[k+1..])
    ensures forall x | x in ring.members :: x in old(ring.members)
  {
    ghost var was := ring.members;
    ghost var i :| 0 <= i < |pids| && pids[i] == th;
    assert was[i].pid == th;
    var found, at := ring.Remove(th);
    k := at;
    ghost var m, less := ring.members, pids[..k] + pids[k+1..];
    forall i | 0 <= i < |less| ensures m[i].pid == less[i] { assert m[i] == was[if i < k then i else i + 1]; }
  }

  /** What the manager's next step is about to do to the ring. */
  predicate Links(s: State, mv: Move) { mv.Manage? && s.mgr.MkLink? }
  predicate Unlinks(s: State, mv: Move) { mv.Manage? && s.mgr.ReapLink? }

  lemma RingSteps(s: State, mv: Move)
    requires Enabled(s, mv)
    ensures Step(s, mv).ring ==
      if Links(s, mv) then s.ring + {s.mgr.kid} else if Unlinks(s, mv) then s.ring - {s.mgr.th} else s.ring
  {
  }

  ghost predicate Ready(s: State) {
    && (s.mgr.MkLink? ==> s.mgr.kid !in s.ring)
    && (s.mgr.ReapLink? ==> s.mgr.th in s.ring && s.mgr.th != MAIN)
  }

  lemma RingReady(s: State)
    requires Inv(s)
    ensures Ready(s)
  {
    if s.mgr.MkLink? { assert RingOk(s, s.mgr.kid); }
    if s.mgr.ReapLink? { assert RingOk(s, s.mgr.th) && ProcOk(s, s.mgr.th); }
  }

  /** One step of the system, carried out on the linked ring. */
  method RingStep(ring: R.Ring, s: State, mv: Move, ghost pids: seq<int>) returns (ghost pids': seq<int>)
    requires Enabled(s, mv) && Ready(s) && Spells(ring, pids) && Lists(pids, s.ring)
    modifies ring, ring.members
    ensures Spells(ring, pids') && Lists(pids', Step(s, mv).ring)
    ensures forall x | x in ring.members :: x in old(ring.members) || fresh(x)
  {
    RingSteps(s, mv);
    pids' := pids;
    if Links(s, mv) {
      Link(ring, pids, s.mgr.kid);
      Listed(pids, s.ring, s.mgr.kid);
      pids' := [pids[0], s.mgr.kid] + pids[1..];
    } else if Unlinks(s, mv) {
      ghost var k := Unlink(ring, pids, s.mgr.th);
      Unlisted(pids, s.ring, k, s.mgr.th);
      pids' := pids[..k] + pids[k+1..];
    }
  }

  lemma {:induction false} RunStep(ms: seq<Move>)
    requires Legal(INITIAL, ms) && ms != []
    ensures var ms', mv := ms[..|ms|-1], ms[|ms|-1];
      && Legal(INITIAL, ms') && Enabled(Exec(INITIAL, ms'), mv)
      && Exec(INITIAL, ms) == Step(Exec(INITIAL, ms'), mv) && Ready(Exec(INITIAL, ms'))
  {
    RunKeepsInv(ms[..|ms|-1]);
    RingReady(Exec(INITIAL, ms[..|ms|-1]));
  }

  /** The manager at work on the linked ring: along every run, whatever the clients do,
      the ring holds exactly the live threads, each once, with all its links right. */
  method DriveRing(ms: seq<Move>) returns (ring: R.Ring, s: State, ghost pids: seq<int>)
    requires Legal(INITIAL, ms)
    ensures s == Exec(INITIAL, ms) && Spells(ring, pids) && Lists(pids, s.ring)
    ensures fresh(ring) && forall x | x in ring.members :: fresh(x)
    decreases |ms|
  {
    if ms == [] {
      var first := new R.Thread(MAIN);
      ring := new R.Ring(first);
      s, pids := INITIAL, [MAIN];
    } else {
      RunStep(ms);
      ring, s, pids := DriveRing(ms[..|ms|-1]);
      assert forall i | 0 <= i < |ring.members| :: ring.members[i] in ring.members;
      pids := RingStep(ring, s, ms[|ms|-1], pids);
      s := Step(s, ms[|ms|-1]);
    }
  }

  /** seg names the segment of every thread made so far; those of threads that have not
      been freed are different, and they are the owned ones. */
  ghost predicate Holds(seg: map<Tid, nat>, owned: set<nat>, s: State) {
    && (forall t :: t in seg <==> t != MAIN && s.Proc(t) != Absent)
    && (forall t, u | t in seg && u in seg && t != u && s.Frees(t) == 0 == s.Frees(u) :: seg[t] != seg[u])
    && (forall t | t in seg && s.Frees(t) == 0 :: seg[t] in owned)
    && (forall k | k in owned :: exists t :: t in seg && s.Frees(t) == 0 && seg[t] == k)
  }

  /** What a step does to segments: a clone that succeeds, or a pthread_free. */
  predicate Makes(s: State, mv: Move) { mv.Manage? && s.mgr.MkClone? && mv.ok }

  function FreesNow(s: State, mv: Move): Option<Tid> {
    if mv.Manage? && (s.mgr.ReapFree? || (s.mgr.FreeBody? && s.D(s.mgr.th).exited)) && s.mgr.th != MAIN
    then Some(s.mgr.th) else None
  }

  lemma SegmentSteps(s: State, mv: Move, t: Tid)
    requires Enabled(s, mv)
    ensures Step(s, mv).Proc(t) != Absent <==> s.Proc(t) != Absent || (Makes(s, mv) && t == mv.child)
    ensures Step(s, mv).Frees(t) == s.Frees(t) + if FreesNow(s, mv) == Some(t) then 1 else 0
  {
  }

  /** A new thread gets a segment nobody owns; a freed thread had one. */
  ghost predicate Supplied(s: State, mv: Move) {
    && (Makes(s, mv) ==> mv.child != MAIN && s.Proc(mv.child) == Absent && s.Frees(mv.child) == 0)
    && (FreesNow(s, mv).Some? ==> var th := FreesNow(s, mv).value; s.Proc(th) != Absent && s.Frees(th) == 0)
    && !(Makes(s, mv) && FreesNow(s, mv).Some?)
  }

  lemma {:induction false} RunSupplied(ms: seq<Move>)
    requires Legal(INITIAL, ms) && ClaimedOnce(ms) && InTime(ms) && ms != []
    ensures var ms', mv := ms[..|ms|-1], ms[|ms|-1];
      && Legal(INITIAL, ms') && ClaimedOnce(ms') && InTime(ms') && Enabled(Exec(INITIAL, ms'), mv)
      && Exec(INITIAL, ms) == Step(Exec(INITIAL, ms'), mv) && Supplied(Exec(INITIAL, ms'), mv)
  {
    var s, mv := Exec(INITIAL, ms[..|ms|-1]), ms[|ms|-1];
    RunKeepsInv(ms[..|ms|-1]);
    if FreesNow(s, mv).Some? {
      Reclamation(ms, s.mgr.th);
      SegmentSteps(s, mv, s.mgr.th);
    }
    if Makes(s, mv) { assert ProcOk(s, mv.child) && ProcOk(s, MAIN); }
  }

  lemma HoldsMore(seg: map<Tid, nat>, owned: set<nat>, s: State, mv: Move, k: nat)
    requires Holds(seg, owned, s) && Enabled(s, mv) && Supplied(s, mv) && Makes(s, mv) && k !in owned
    ensures Holds(seg[mv.child := k], owned + {k}, Step(s, mv))
  {
    var s', seg' := Step(s, mv), seg[mv.child := k];
    forall t ensures (s'.Proc(t) != Absent <==> s.Proc(t) != Absent || t == mv.child) && s'.Frees(t) == s.Frees(t) {
      SegmentSteps(s, mv, t);
    }
    forall j | j in owned + {k} ensures exists t :: t in seg' && s'.Frees(t) == 0 && seg'[t] == j {
      if j == k { assert seg'[mv.child] == j; }
      else { var t :| t in seg && s.Frees(t) == 0 && seg[t] == j; assert seg'[t] == j; }
    }
  }

  lemma HoldsLess(seg: map<Tid, nat>, owned: set<nat>, s: State, mv: Move, th: Tid)
    requires Holds(seg, owned, s) && Enabled(s, mv) && Supplied(s, mv) && FreesNow(s, mv) == Some(th)
    ensures th in seg && seg[th] in owned && Holds(seg, owned - {seg[th]}, Step(s, mv))
  {
    var s' := Step(s, mv);
    forall t ensures (s'.Proc(t) != Absent <==> s.Proc(t) != Absent)
             && s'.Frees(t) == s.Frees(t) + if t == th then 1 else 0 {
      SegmentSteps(s, mv, t);
    }
    forall j | j in owned - {seg[th]} ensures exists t :: t in seg && s'.Frees(t) == 0 && seg[t] == j {
      var t :| t in seg && s.Frees(t) == 0 && seg[t] == j;
      assert t != th;
    }
  }

  lemma HoldsStill(seg: map<Tid, nat>, owned: set<nat>, s: State, mv: Move)
    requires Holds(seg, owned, s) && Enabled(s, mv) && !Makes(s, mv) && FreesNow(s, mv) == None
    ensures Holds(seg, owned, Step(s, mv))
  {
    var s' := Step(s, mv);
    forall t ensures (s'.Proc(t) != Absent <==> s.Proc(t) != Absent) && s'.Frees(t) == s.Frees(t) {
      SegmentSteps(s, mv, t);
    }
    forall j | j in owned ensures exists t :: t in seg && s'.Frees(t) == 0 && seg[t] == j {
      var t :| t in seg && s.Frees(t) == 0 && seg[t] == j;
      assert s'.Frees(t) == 0;
    }
  }

  /** One step of the system, carried out on the marks. It fails only if no segment is to
      be had for a thread that the step makes. */
  method SegmentStep(alloc: A.Allocator, s: State, mv: Move, seg: map<Tid, nat>, grants: nat, mappable: set<nat>)
    returns (seg': map<Tid, nat>, ok: bool)
    requires alloc.Valid() && Holds(seg, alloc.owned, s) && Enabled(s, mv) && Supplied(s, mv)
    modifies alloc, alloc.marks
    ensures alloc.Valid() && (alloc.marks == old(alloc.marks) || fresh(alloc.marks))
    ensures ok ==> Holds(seg', alloc.owned, Step(s, mv))
    ensures !ok ==> Makes(s, mv)
  {
    seg', ok := seg, true;
    var freed := FreesNow(s, mv);
    if Makes(s, mv) {
      ghost var was := alloc.owned;
      var k, stop := alloc.Create(grants, mappable, true);
      if k.None? { return seg, false; }
      HoldsMore(seg, was, s, mv, k.value);
      seg' := seg[mv.child := k.value];
    } else if freed.Some? {
      HoldsLess(seg, alloc.owned, s, mv, freed.value);
      alloc.Free(seg[freed.value]);
    } else {
      HoldsStill(seg, alloc.owned, s, mv);
    }
  }

  /** The manager at work on the marks: along every run in which each thread is claimed
      once and no detach falls into the window, the owned segments are exactly those of
      the threads made and not freed, one each. It fails only if at some clone no segment
      is to be had. */
  method DriveSegments(ms: seq<Move>, grants: nat, mappable: set<nat>)
    returns (alloc: A.Allocator, s: State, seg: map<Tid, nat>, ok: bool)
    requires Legal(INITIAL, ms) && ClaimedOnce(ms) && InTime(ms)
    ensures alloc.Valid() && fresh(alloc) && fresh(alloc.marks)
    ensures ok ==> s == Exec(INITIAL, ms) && Holds(seg, alloc.owned, s)
    ensures !ok ==> exists n :: 0 <= n < |ms| && Makes(Exec(INITIAL, ms[..n]), ms[n])
    decreases |ms|
  {
    if ms == [] {
      alloc := new A.Allocator();
      s, seg, ok := INITIAL, map[], true;
    } else {
      RunSupplied(ms);
      alloc, s, seg, ok := DriveSegments(ms[..|ms|-1], grants, mappable);
      if ok {
        seg, ok := SegmentStep(alloc, s, ms[|ms|-1], seg, grants, mappable);
        s := Step(s, ms[|ms|-1]);
      } else {
        ghost var n :| 0 <= n < |ms| - 1 && Makes(Exec(INITIAL, ms[..|ms|-1][..n]), ms[..|ms|-1][n]);
        assert ms[..|ms|-1][..n] == ms[..n];
      }
    }
  }
}
