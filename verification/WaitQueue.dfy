/** The pointer queue under the mutexes and condition variables (queue.h, and
    remove_from_queue and the dequeuing loop of condvar.c): threads linked through
    p_nextwaiting, refined to sequences. */
module WaitQueue {
  import opened Seqs

  class Thread {
    var nextWaiting: Thread?

    constructor ()
      ensures nextWaiting == null
    { nextWaiting := null; }
  }

  function Without(s: seq<Thread>, th: Thread): (r: seq<Thread>)
    ensures th !in r && |r| <= |s|
  {
    if s == [] then [] else if s[0] == th then Without(s[1..], th) else [s[0]] + Without(s[1..], th)
  }

  lemma {:induction false} WithoutAbsent(s: seq<Thread>, th: Thread)
    requires th !in s
    ensures Without(s, th) == s
  {
    if s != [] { WithoutAbsent(s[1..], th); assert s == [s[0]] + s[1..]; }
  }

  lemma {:induction false} WithoutAt(s: seq<Thread>, k: nat)
    requires NoRepeats(s) && k < |s|
    ensures Without(s, s[k]) == s[..k] + s[k+1..]
  {
    if k == 0 {
      WithoutAbsent(s[1..], s[0]);
    } else {
      WithoutAt(s[1..], k - 1);
      assert s[..k] + s[k+1..] == [s[0]] + (s[1..][..k-1] + s[1..][k..]);
    }
  }

  class Queue {
    var head: Thread?
    var tail: Thread?
    ghost var items: seq<Thread>

    /** The links spell out the items. */
    ghost predicate Chained()
      reads this, items
    {
      && (items == [] ==> head == null && tail == null)
      && (items != [] ==> head == items[0] && tail == items[|items|-1])
      && forall i | 0 <= i < |items| - 1 :: items[i].nextWaiting == items[i+1]
    }

    ghost predicate Valid()
      reads this, items
    {
      NoRepeats(items) && Chained() && (tail != null ==> tail.nextWaiting == null)
    }

    /** queue_init */
    constructor ()
      ensures Valid() && items == []
    { head, tail, items := null, null, []; }

    /** A structure copy of the queue, as broadcast takes one. */
    constructor Copy(q: Queue)
      requires q.Valid()
      ensures Valid() && items == q.items
    { head, tail, items := q.head, q.tail, q.items; }

    method Init()
      modifies this
      ensures Valid() && items == []
    { head, tail, items := null, null, []; }

    /** The queue grows by th at the end. Its links are right afterwards if and only
        if the link of th was clear, which the source only asserts. */
    method Enqueue(th: Thread)
      requires Valid() && th !in items
      modifies this, tail
      ensures items == old(items) + [th] && NoRepeats(items) && Chained()
      ensures th.nextWaiting == old(th.nextWaiting)
      ensures Valid() <==> old(th.nextWaiting) == null
    {
      if tail == null {
        head := th;
        tail := th;
      } else {
        tail.nextWaiting := th;
        tail := th;
      }
      items := items + [th];
    }

    method Dequeue() returns (th: Thread?)
      requires Valid()
      modifies this, head
      ensures Valid()
      ensures old(items) == [] ==> th == null && items == []
      ensures old(items) != [] ==> th == old(items)[0] && items == old(items)[1..] && th.nextWaiting == null
    {
      th := head;
      if th != null {
        head := th.nextWaiting;
        if head == null { tail := null; }
        th.nextWaiting := null;
        items := items[1..];
      }
    }

    /** What the link of an item is. */
    lemma NextItem(k: nat)
      requires Valid() && k < |items|
      ensures items[k].nextWaiting == if k + 1 < |items| then items[k+1] else null
    {
    }

    /** Links t, at position k, past its successor th. */
    method Bypass(t: Thread, th: Thread, ghost k: nat)
      requires Valid() && k + 1 < |items| && t == items[k] && th == items[k+1]
      modifies this, items
      ensures Valid() && items == old(items)[..k+1] + old(items)[k+2..]
      ensures th.nextWaiting == null
    {
      NextItem(k + 1);
      t.nextWaiting := th.nextWaiting;
      if th.nextWaiting == null { tail := t; }
      th.nextWaiting := null;
      items := items[..k+1] + items[k+2..];
    }

    /** Deletes th wherever it stands, or does nothing if it is absent. */
    method Remove(th: Thread)
      requires Valid()
      modifies this, items
      ensures Valid() && items == Without(old(items), th)
      ensures th in old(items) ==> th.nextWaiting == null
      ensures th !in old(items) ==> unchanged(this) && unchanged(old(items))
    {
      if head == null { return; }
      if head == th {
        WithoutAt(items, 0);
        var _ := Dequeue();
        return;
      }
      var t := head;
      ghost var k := 0;
      NextItem(0);
      while t.nextWaiting != null
        invariant 0 <= k < |items| && t == items[k] && th !in items[..k+1]
        invariant Valid() && unchanged(this) && unchanged(items)
        invariant t.nextWaiting == if k + 1 < |items| then items[k+1] else null
        decreases |items| - k
      {
        if t.nextWaiting == th {
          WithoutAt(items, k + 1);
          Bypass(t, th, k);
          return;
        }
        t := t.nextWaiting;
        k := k + 1;
        NextItem(k);
      }
      assert items[..k+1] == items;
      WithoutAbsent(items, th);
    }
  }

  lemma SplitApart(s: seq<Thread>, n: nat)
    requires NoRepeats(s) && n <= |s|
    ensures forall i | 0 <= i < n :: s[i] !in s[n..]
  {
  }

  /** Takes one thread after the other off a queue and restarts it. */
  method RestartAll(q: Queue) returns (woken: seq<Thread>)
    requires q.Valid()
    modifies q, q.items
    ensures woken == old(q.items)
    ensures forall i | 0 <= i < |woken| :: woken[i].nextWaiting == null
  {
    ghost var all := q.items;
    woken := [];
    var th := q.Dequeue();
    while th != null
      invariant |woken| <= |all| && woken == all[..|woken|]
      invariant th == null ==> |woken| == |all|
      invariant th != null ==> |woken| < |all| && th == all[|woken|]
      invariant q.Valid() && (th != null ==> q.items == all[|woken|+1..])
      invariant forall i | 0 <= i < |woken| :: all[i].nextWaiting == null
      invariant th != null ==> th.nextWaiting == null
      decreases |all| - |woken|, th != null
    {
      woken := woken + [th];
      ghost var n := |woken|;
      assert q.items == all[n..];
      SplitApart(all, n);
      th := q.Dequeue();
      assert n < |all| ==> q.items == all[n..][1..] == all[n+1..];
    }
  }

  /** Broadcast takes the whole queue and empties it: it restarts exactly the threads
      that were queued, in their order, and leaves their links clear. */
  method Broadcast(q: Queue) returns (woken: seq<Thread>)
    requires q.Valid()
    modifies q, q.items
    ensures q.Valid() && q.items == []
    ensures woken == old(q.items)
    ensures forall i | 0 <= i < |woken| :: woken[i].nextWaiting == null
  {
    var toSignal := new Queue.Copy(q);
    q.Init();
    woken := RestartAll(toSignal);
  }

  /** A call on the queue, on sequences; a mix of calls, what they take out and what
      they leave behind. */
  datatype Call = Enter(th: Thread) | Take | Leave(th: Thread)

  function Taken(s: seq<Thread>, calls: seq<Call>): seq<Thread>
    decreases |calls|
  {
    if calls == [] then []
    else match calls[0]
      case Enter(th) => Taken(s + [th], calls[1..])
      case Take => if s == [] then Taken(s, calls[1..]) else [s[0]] + Taken(s[1..], calls[1..])
      case Leave(th) => Taken(Without(s, th), calls[1..])
  }

  function Left(s: seq<Thread>, calls: seq<Call>): seq<Thread>
    decreases |calls|
  {
    if calls == [] then s
    else match calls[0]
      case Enter(th) => Left(s + [th], calls[1..])
      case Take => Left(if s == [] then s else s[1..], calls[1..])
      case Leave(th) => Left(Without(s, th), calls[1..])
  }

  function Entered(calls: seq<Call>): seq<Thread> {
    if calls == [] then [] else (if calls[0].Enter? then [calls[0].th] else []) + Entered(calls[1..])
  }

  predicate Subsequence(a: seq<Thread>, b: seq<Thread>) {
    if b == [] then a == []
    else (a != [] && a[0] == b[0] && Subsequence(a[1..], b[1..])) || Subsequence(a, b[1..])
  }

  lemma {:induction false} SubsequenceSelf(a: seq<Thread>)
    ensures Subsequence(a, a)
  {
    if a != [] { SubsequenceSelf(a[1..]); }
  }

  lemma {:induction false} SubsequenceTrans(a: seq<Thread>, b: seq<Thread>, c: seq<Thread>)
    requires Subsequence(a, b) && Subsequence(b, c)
    ensures Subsequence(a, c)
    decreases |c|
  {
    if c != [] {
      if b != [] && b[0] == c[0] && Subsequence(b[1..], c[1..]) {
        if a != [] && a[0] == b[0] && Subsequence(a[1..], b[1..]) { SubsequenceTrans(a[1..], b[1..], c[1..]); }
        else { SubsequenceTrans(a, b[1..], c[1..]); }
      } else {
        SubsequenceTrans(a, b, c[1..]);
      }
    }
  }

  lemma {:induction false} SubsequenceAppend(a: seq<Thread>, b: seq<Thread>, c: seq<Thread>)
    requires Subsequence(a, b)
    ensures Subsequence(a + c, b + c)
  {
    if b == [] {
      SubsequenceSelf(c);
      assert a + c == c && b + c == c;
    } else {
      assert (b + c)[1..] == b[1..] + c;
      if a != [] && a[0] == b[0] && Subsequence(a[1..], b[1..]) {
        SubsequenceAppend(a[1..], b[1..], c);
        assert (a + c)[1..] == a[1..] + c;
      } else {
        SubsequenceAppend(a, b[1..], c);
      }
    }
  }

  lemma {:induction false} WithoutSubsequence(s: seq<Thread>, th: Thread)
    ensures Subsequence(Without(s, th), s)
  {
    if s != [] {
      WithoutSubsequence(s[1..], th);
      if s[0] != th { assert Without(s, th)[1..] == Without(s[1..], th); }
    }
  }

  lemma SubsequenceCons(x: Thread, a: seq<Thread>, b: seq<Thread>)
    requires Subsequence(a, b)
    ensures Subsequence([x] + a, [x] + b)
  {
    assert ([x] + a)[1..] == a && ([x] + b)[1..] == b;
  }

  lemma LeaveSubsequence(r: seq<Thread>, s: seq<Thread>, th: Thread, e: seq<Thread>)
    requires Subsequence(r, Without(s, th) + e)
    ensures Subsequence(r, s + e)
  {
    WithoutSubsequence(s, th);
    SubsequenceAppend(Without(s, th), s, e);
    SubsequenceTrans(r, Without(s, th) + e, s + e);
  }

  /** Any mix of calls is first in, first out: what has been taken, followed by what is
      left, is in the order of entering; ... */
  lemma {:induction false} Fifo(s: seq<Thread>, calls: seq<Call>)
    ensures Subsequence(Taken(s, calls) + Left(s, calls), s + Entered(calls))
    decreases |calls|
  {
    var r, e := Taken(s, calls) + Left(s, calls), s + Entered(calls);
    if calls == [] {
      assert r == s && e == s;
      SubsequenceSelf(s);
    } else {
      var rest := calls[1..];
      match calls[0]
      case Enter(th) =>
        Fifo(s + [th], rest);
        assert e == s + [th] + Entered(rest);
      case Take =>
        if s == [] {
          Fifo(s, rest);
          assert e == s + Entered(rest);
        } else {
          Fifo(s[1..], rest);
          SubsequenceCons(s[0], Taken(s[1..], rest) + Left(s[1..], rest), s[1..] + Entered(rest));
          assert r == [s[0]] + (Taken(s[1..], rest) + Left(s[1..], rest)) && e == [s[0]] + (s[1..] + Entered(rest));
        }
      case Leave(th) =>
        Fifo(Without(s, th), rest);
        LeaveSubsequence(r, s, th, Entered(rest));
        assert e == s + Entered(rest);
    }
  }

  lemma {:induction false} WithoutKeeps(s: seq<Thread>, th: Thread, x: Thread)
    requires x != th
    ensures multiset(Without(s, th))[x] == multiset(s)[x]
  {
    if s != [] { WithoutKeeps(s[1..], th, x); assert s == [s[0]] + s[1..]; }
  }

  /** ... and a thread that is not removed is neither lost nor duplicated. */
  lemma {:induction false} NothingLost(s: seq<Thread>, calls: seq<Call>, x: Thread)
    requires Leave(x) !in calls
    ensures multiset(Taken(s, calls))[x] + multiset(Left(s, calls))[x] == multiset(s)[x] + multiset(Entered(calls))[x]
    decreases |calls|
  {
    if calls != [] {
      var rest := calls[1..];
      match calls[0]
      case Enter(th) => NothingLost(s + [th], rest, x);
      case Take =>
        if s == [] { NothingLost(s, rest, x); } else { NothingLost(s[1..], rest, x); assert s == [s[0]] + s[1..]; }
      case Leave(th) => NothingLost(Without(s, th), rest, x); WithoutKeeps(s, th, x);
    }
  }

  /** No thread enters that is on the queue already. */
  predicate Fits(s: seq<Thread>, calls: seq<Call>)
    decreases |calls|
  {
    calls == [] ||
    match calls[0]
    case Enter(th) => th !in s && Fits(s + [th], calls[1..])
    case Take => Fits(if s == [] then s else s[1..], calls[1..])
    case Leave(th) => Fits(Without(s, th), calls[1..])
  }

  /** The threads of the pool that are not on the queue have clear links. */
  ghost predicate Clear(pool: set<Thread>, q: Queue)
    reads pool, q
  {
    (forall x | x in q.items :: x in pool) && forall x | x in pool && x !in q.items :: x.nextWaiting == null
  }

  /** One call on the pointer queue. It leaves the links of the threads outside clear, so
      that a thread that was taken or removed may enter again. */
  method PerformOne(q: Queue, call: Call, ghost pool: set<Thread>) returns (taken: seq<Thread>)
    requires q.Valid() && Clear(pool, q) && (call.Enter? ==> call.th !in q.items && call.th in pool)
    modifies q, pool
    ensures q.Valid() && Clear(pool, q)
    ensures taken == Taken(old(q.items), [call]) && q.items == Left(old(q.items), [call])
  {
    ghost var was := q.items;
    taken := [];
    match call
    case Enter(th) =>
      q.Enqueue(th);
    case Take =>
      var th := q.Dequeue();
      if th != null {
        taken := [th];
        assert was == [was[0]] + was[1..];
      }
    case Leave(th) =>
      q.Remove(th);
      forall x ensures x in q.items <==> x in was && x != th { WithoutIn(was, th, x); }
  }

  lemma {:induction false} WithoutIn(s: seq<Thread>, th: Thread, x: Thread)
    ensures x in Without(s, th) <==> x in s && x != th
  {
    if s != [] { WithoutIn(s[1..], th, x); assert s == [s[0]] + s[1..]; }
  }

  lemma {:induction false} CallsAppend(s: seq<Thread>, a: seq<Call>, b: seq<Call>)
    ensures Taken(s, a + b) == Taken(s, a) + Taken(Left(s, a), b) && Left(s, a + b) == Left(Left(s, a), b)
    ensures Fits(s, a + b) <==> Fits(s, a) && Fits(Left(s, a), b)
    decreases |a|
  {
    if a == [] {
      assert a + b == b;
    } else {
      assert (a + b)[1..] == a[1..] + b;
      match a[0]
      case Enter(th) => CallsAppend(s + [th], a[1..], b);
      case Take => CallsAppend(if s == [] then s else s[1..], a[1..], b);
      case Leave(th) => CallsAppend(Without(s, th), a[1..], b);
    }
  }

  /** Any mix of calls on the pointer queue takes out and leaves behind what the sequence
      functions say; so it is first in, first out, and loses nobody. */
  method Perform(q: Queue, calls: seq<Call>, ghost pool: set<Thread>) returns (taken: seq<Thread>)
    requires q.Valid() && Clear(pool, q) && Fits(q.items, calls) && forall c | c in calls && c.Enter? :: c.th in pool
    modifies q, pool
    ensures q.Valid() && Clear(pool, q)
    ensures taken == Taken(old(q.items), calls) && q.items == Left(old(q.items), calls)
  {
    taken := [];
    ghost var was := q.items;
    var i := 0;
    while i < |calls|
      invariant i <= |calls| && q.Valid() && Clear(pool, q)
      invariant taken == Taken(was, calls[..i]) && q.items == Left(was, calls[..i])
    {
      assert calls == calls[..i] + calls[i..] && calls[..i+1] == calls[..i] + [calls[i]];
      CallsAppend(was, calls[..i], calls[i..]);
      CallsAppend(was, calls[..i], [calls[i]]);
      var more := PerformOne(q, calls[i], pool);
      taken := taken + more;
      i := i + 1;
    }
    assert calls[..i] == calls;
  }
}
