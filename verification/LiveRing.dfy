/** The circular, doubly linked list of live threads: insertion by create, removal
    by the reaper, the traversals that signal everybody, and the reset after a fork
    (manager.c, pthread.c). */
module LiveRing {
  import opened Seqs

  class Thread {
    var pid: int
    var nextLive: Thread?
    var prevLive: Thread?

    constructor (pid: int)
      ensures this.pid == pid && nextLive == null && prevLive == null
    { this.pid := pid; nextLive, prevLive := null, null; }
  }

  /** The i-th element of a ring, whose first follows its last. */
  function At(s: seq<Thread>, i: nat): Thread
    requires 0 < |s|
  { if i < |s| then s[i] else s[0] }

  /** The other members, starting behind the k-th. */
  function Behind(s: seq<Thread>, k: nat): seq<Thread>
    requires k < |s|
  { s[k+1..] + s[..k] }

  /** They are all the others, once each. */
  lemma BehindIsTheRest(s: seq<Thread>, k: nat)
    requires k < |s| && NoRepeats(s)
    ensures NoRepeats(Behind(s, k)) && s[k] !in Behind(s, k)
    ensures forall x :: x in Behind(s, k) <==> x in s && x != s[k]
  {
    var r := Behind(s, k);
    forall x | x in s && x != s[k] ensures x in r {
      var i :| 0 <= i < |s| && s[i] == x;
      if i < k { assert r[|s|-k-1+i] == x; } else { assert r[i-k-1] == x; }
    }
  }

  /** Neighbours in a ring without its k-th member: neighbours before, or the two
      beside the gap. */
  lemma Skipped(s: seq<Thread>, k: nat, i: nat)
    requires NoRepeats(s) && 0 < k < |s| && i < |s| - 1
    ensures var r, j := s[..k] + s[k+1..], if i < k then i else i + 1;
      && r[i] == s[j] && s[j] != s[k] && At(r, i + 1) != s[k]
      && (i == k - 1 ==> r[i] == s[k-1] && At(r, i + 1) == At(s, k + 1))
      && (i != k - 1 ==> r[i] != s[k-1] && At(r, i + 1) == At(s, j + 1) && At(r, i + 1) != At(s, k + 1))
  {
  }

  lemma Inserted(s: seq<Thread>, th: Thread, i: nat)
    requires s != [] && i <= |s|
    ensures var m := [s[0], th] + s[1..];
      && m[i] == (if i == 0 then s[0] else if i == 1 then th else s[i-1])
      && At(m, i + 1) == if i == 0 then th else At(s, i)
  {
  }

  lemma InsertedNoRepeats(s: seq<Thread>, th: Thread)
    requires NoRepeats(s) && s != [] && th !in s
    ensures NoRepeats([s[0], th] + s[1..])
  {
  }

  lemma SkippedNoRepeats(s: seq<Thread>, k: nat)
    requires NoRepeats(s) && k < |s|
    ensures NoRepeats(s[..k] + s[k+1..])
  {
  }

  class Ring {
    var main: Thread
    ghost var members: seq<Thread>

    ghost predicate Forward()
      reads this, members
    {
      && members != [] && members[0] == main && NoRepeats(members)
      && forall i | 0 <= i < |members| :: members[i].nextLive == At(members, i + 1)
    }

    ghost predicate Backward()
      reads this, members
    {
      members != [] && forall i | 0 <= i < |members| :: At(members, i + 1).prevLive == members[i]
    }

    /** What every operation keeps: the backward links are right, except perhaps the
        one of a thread that is alone. */
    ghost predicate Valid()
      reads this, members
    { Forward() && (|members| > 1 ==> Backward()) }

    constructor (first: Thread)
      modifies first
      ensures Valid() && Backward() && main == first && members == [first]
      ensures first.pid == old(first.pid)
    {
      main, members := first, [first];
      new;
      first.nextLive := first;
      first.prevLive := first;
    }

    /** pthread_handle_create links the new thread behind the main one. This leaves
        all links right, also those that a fork had left stale. */
    method Insert(th: Thread, pid: int)
      requires Valid() && th !in members
      modifies this`members, members, th
      ensures Valid() && Backward() && th.pid == pid
      ensures members == [main, th] + old(members)[1..]
      ensures forall x | x in old(members) :: x.pid == old(x.pid)
    {
      assert main.nextLive == At(members, 1);
      th.prevLive := main;
      th.nextLive := main.nextLive;
      main.nextLive.prevLive := th;
      main.nextLive := th;
      th.pid := pid;
      ghost var was := members;
      InsertedNoRepeats(was, th);
      members := [main, th] + was[1..];
      forall i | 0 <= i < |members|
        ensures members[i].nextLive == At(members, i + 1) && At(members, i + 1).prevLive == members[i]
      {
        Inserted(was, th, i);
      }
    }

    /** Takes the k-th thread, not the main one, out of the ring. */
    method Unlink(th: Thread, ghost k: nat)
      requires Valid() && 0 < k < |members| && th == members[k]
      modifies this`members, members
      ensures Valid() && Backward()
      ensures members == old(members)[..k] + old(members)[k+1..]
      ensures forall x | x in old(members) :: x.pid == old(x.pid)
    {
      ghost var was := members;
      assert th.nextLive == At(was, k + 1) && At(was, k).prevLive == was[k-1];
      th.nextLive.prevLive := th.prevLive;
      th.prevLive.nextLive := th.nextLive;
      members := was[..k] + was[k+1..];
      SkippedNoRepeats(was, k);
      forall i | 0 <= i < |members|
        ensures members[i].nextLive == At(members, i + 1) && At(members, i + 1).prevLive == members[i]
      {
        Skipped(was, k, i);
      }
    }

    /** The search of pthread_exited: the first thread with that pid, if there is one
        besides the main thread. */
    method Find(pid: int) returns (th: Thread?, ghost k: nat)
      requires Valid()
      ensures th == null <==> forall i | 0 < i < |members| :: members[i].pid != pid
      ensures th != null ==> 0 < k < |members| && th == members[k] && th.pid == pid
      ensures th != null ==> forall i | 0 < i < k :: members[i].pid != pid
    {
      th := main.nextLive;
      k := 1;
      assert th == At(members, 1);
      while th != main
        invariant 0 < k <= |members| && th == At(members, k)
        invariant forall i | 0 < i < k :: members[i].pid != pid
        decreases |members| - k
      {
        if th.pid == pid { return; }
        assert th.nextLive == At(members, k + 1);
        th := th.nextLive;
        k := k + 1;
      }
      th := null;
    }

    /** pthread_exited: that thread leaves the ring. */
    method Remove(pid: int) returns (th: Thread?, ghost k: nat)
      requires Valid()
      modifies this`members, members
      ensures Valid()
      ensures th == null <==> forall i | 0 < i < |old(members)| :: old(members[i].pid) != pid
      ensures th == null ==> members == old(members)
      ensures th != null ==> 0 < k < |old(members)| && th == old(members)[k] && old(th.pid) == pid
      ensures th != null ==> members == old(members)[..k] + old(members)[k+1..]
      ensures forall x | x in old(members) :: x.pid == old(x.pid)
    {
      th, k := Find(pid);
      if th != null { Unlink(th, k); }
    }

    /** pthread_kill_all_threads: everybody, with or without the main thread. */
    method KillAll(mainAlso: bool) returns (signalled: seq<Thread>)
      requires Valid()
      ensures signalled == members[1..] + if mainAlso then [main] else []
    {
      signalled := [];
      var th := main.nextLive;
      assert th == At(members, 1);
      while th != main
        invariant |signalled| < |members| && th == At(members, |signalled| + 1)
        invariant signalled == members[1..|signalled|+1]
        decreases |members| - |signalled|
      {
        assert th.nextLive == At(members, |signalled| + 2);
        signalled := signalled + [th];
        th := th.nextLive;
      }
      if mainAlso { signalled := signalled + [main]; }
    }

    /** The links of the members behind the k-th. */
    lemma BehindLinks(k: nat, j: nat)
      requires Valid() && k < |members| && j < |members|
      ensures var r := Behind(members, k);
        (if j == 0 then members[k] else r[j-1]).nextLive == if j < |r| then r[j] else members[k]
    {
      var i := if k + j < |members| then k + j else k + j - |members|;
      assert members[i].nextLive == At(members, i + 1);
    }

    /** pthread_handle_exit: everybody but the thread that called exit. */
    method SignalOthers(issuing: Thread, ghost k: nat) returns (signalled: seq<Thread>)
      requires Valid() && k < |members| && issuing == members[k]
      ensures signalled == Behind(members, k)
    {
      ghost var r := Behind(members, k);
      signalled := [];
      var th := issuing.nextLive;
      BehindIsTheRest(members, k);
      BehindLinks(k, 0);
      while th != issuing
        invariant |signalled| <= |r| && signalled == r[..|signalled|]
        invariant th == if |signalled| < |r| then r[|signalled|] else issuing
        decreases |r| - |signalled|
      {
        signalled := signalled + [th];
        BehindLinks(k, |signalled|);
        th := th.nextLive;
      }
    }

    /** The child of a fork keeps one thread. Its forward link is written twice and its
        backward link not at all; the ring is valid all the same. */
    method Reset(self: Thread, pid: int)
      modifies this, self
      ensures Valid() && main == self && members == [self]
      ensures self.prevLive == old(self.prevLive) && self.pid == pid
    {
      self.pid := pid;
      main := self;
      self.nextLive := self;
      self.nextLive := self;
      members := [self];
    }
  }
}
