/** Two queues over one link. Every thread has a single p_nextwaiting, and two pieces of
    code let threads of two queues run through it at once: a cancelled
    pthread_cond_wait locks its mutex while it is still on the queue of the condition
    (condvar.c:61-72), and pthread_cond_broadcast goes on dequeuing its copy of the queue
    after it has let go of the spinlock (condvar.c:186-194). */
module SharedLink {
  import opened Seqs
  import opened WaitQueue

  /** A call on the first or on the second queue. */
  datatype PairCall = First(call: Call) | Second(call: Call)

  function On(c: PairCall, first: bool): seq<Call> { if c.First? == first then [c.call] else [] }

  /** A run: the calls in the order in which they are made. */
  datatype Run = Start | Then(run: Run, last: PairCall)

  function Firsts(r: Run): seq<Call> { if r.Start? then [] else Firsts(r.run) + On(r.last, true) }

  function Seconds(r: Run): seq<Call> { if r.Start? then [] else Seconds(r.run) + On(r.last, false) }

  /** Nobody is on both. */
  predicate Apart(p: seq<Thread>, q: seq<Thread>) { forall x | x in p :: x !in q }

  /** The clients: nobody enters a queue twice, and the first queue is entered by threads
      that are on neither. */
  predicate Allowed(p: seq<Thread>, q: seq<Thread>, c: PairCall) {
    c.call.Enter? ==> c.call.th !in q && (c.First? ==> c.call.th !in p)
  }

  /** When a call is harmless: nobody is on both queues when a thread enters either, and
      one that enters the second from the first is last there. */
  predicate Harmless(p: seq<Thread>, q: seq<Thread>, c: PairCall) {
    c.call.Enter? ==> Apart(p, q) && (c.call.th in p ==> c.call.th == p[|p|-1])
  }

  /** A thread that is on both queues is last on both. */
  ghost predicate LastOnBoth(p: seq<Thread>, q: seq<Thread>) {
    forall x | x in p && x in q :: x == p[|p|-1] && x == q[|q|-1]
  }

  /** Both queues are right and the threads outside have clear links. */
  ghost predicate Right(p: Queue, q: Queue, pool: set<Thread>)
    reads p, p.items, q, q.items, pool
  {
    && p != q && p.Valid() && q.Valid() && LastOnBoth(p.items, q.items)
    && (forall x | x in p.items :: x in pool) && (forall x | x in q.items :: x in pool)
    && (forall x | x in pool && x !in p.items && x !in q.items :: x.nextWaiting == null)
  }

  lemma {:induction false} WithoutLast(s: seq<Thread>, th: Thread)
    requires s != [] && s[|s|-1] != th
    ensures var r := Without(s, th); r != [] && r[|r|-1] == s[|s|-1]
  {
    if |s| > 1 { WithoutLast(s[1..], th); }
  }

  /** The threads of q other than its last are not on p. */
  lemma OnlyLast(p: seq<Thread>, q: seq<Thread>, i: nat)
    requires LastOnBoth(p, q) && NoRepeats(q) && i < |q| - 1
    ensures q[i] !in p
  {
  }

  /** What other links hold the queue q together. */
  twostate lemma StaysValid(q: Queue)
    requires old(q.Valid()) && unchanged(q)
    requires forall i | 0 <= i < |q.items| - 1 :: unchanged(q.items[i])
    requires q.items != [] ==> q.items[|q.items|-1].nextWaiting == null
    ensures q.Valid()
  {
  }

  /** Taking a thread off one queue leaves both right. */
  method TakeOff(p: Queue, q: Queue, ghost pool: set<Thread>) returns (taken: seq<Thread>)
    requires Right(p, q, pool)
    modifies p, p.items
    ensures Right(p, q, pool) && p.items == Left(old(p.items), [Take]) && taken == Taken(old(p.items), [Take])
  {
    ghost var was := p.items;
    forall i: nat | i < |q.items| - 1 ensures q.items[i] !in was { OnlyLast(was, q.items, i); }
    var th := p.Dequeue();
    taken := if th == null then [] else [th];
    assert was != [] ==> was == [was[0]] + was[1..];
    StaysValid(q);
  }

  method LeaveOne(p: Queue, q: Queue, th: Thread, ghost pool: set<Thread>)
    requires Right(p, q, pool)
    modifies p, p.items
    ensures Right(p, q, pool) && p.items == Left(old(p.items), [Leave(th)])
  {
    ghost var was := p.items;
    forall i: nat | i < |q.items| - 1 ensures q.items[i] !in was { OnlyLast(was, q.items, i); }
    p.Remove(th);
    forall x ensures x in p.items <==> x in was && x != th { WithoutIn(was, th, x); }
    if was != [] && was[|was|-1] != th {
      WithoutLast(was, th);
      assert p.tail == was[|was|-1] && p.tail.nextWaiting == null;
    }
    if q.items != [] {
      var y := q.items[|q.items|-1];
      assert y in was ==> y == was[|was|-1] && y.nextWaiting == null;
    }
    StaysValid(q);
  }

  /** Entering either queue: both are right after it if and only if it is harmless. */
  method EnterFirst(p: Queue, q: Queue, th: Thread, ghost pool: set<Thread>)
    requires Right(p, q, pool) && th !in p.items && th !in q.items && th in pool
    modifies p, p.items
    ensures p.items == old(p.items) + [th]
    ensures p.Valid() && q.Valid() <==> Apart(old(p.items), q.items)
    ensures Apart(old(p.items), q.items) ==> Right(p, q, pool)
  {
    ghost var was := p.items;
    assert p.tail != null ==> p.tail in was;
    p.Enqueue(th);
    if x :| x in was && x in q.items {
      assert p.items[|was|-1] == x && x.nextWaiting == th && q.tail == x;
    } else {
      assert Apart(was, q.items);
      StaysValid(q);
    }
  }

  method EnterSecond(p: Queue, q: Queue, th: Thread, ghost pool: set<Thread>)
    requires Right(p, q, pool) && th !in q.items && th in pool
    modifies q, q.items
    ensures q.items == old(q.items) + [th]
    ensures p.Valid() && q.Valid() <==> Harmless(p.items, old(q.items), Second(Enter(th)))
    ensures Harmless(p.items, old(q.items), Second(Enter(th))) ==> Right(p, q, pool)
  {
    ghost var was := q.items;
    assert q.tail != null ==> q.tail in was;
    if k: nat :| k < |p.items| && p.items[k] == th { p.NextItem(k); }
    q.Enqueue(th);
    if x :| x in p.items && x in was {
      assert q.items[|was|-1] == x && x.nextWaiting == th && p.tail == x;
    } else {
      assert Apart(p.items, was);
      StaysValid(p);
    }
  }

  /** One call: both queues are right after it if and only if it is harmless. */
  method Do(p: Queue, q: Queue, c: PairCall, ghost pool: set<Thread>) returns (taken: seq<Thread>)
    requires Right(p, q, pool) && Allowed(p.items, q.items, c) && (c.call.Enter? ==> c.call.th in pool)
    modifies p, q, pool
    ensures p.Valid() && q.Valid() <==> Harmless(old(p.items), old(q.items), c)
    ensures Harmless(old(p.items), old(q.items), c) ==> Right(p, q, pool)
    ensures p.items == Left(old(p.items), if c.First? then [c.call] else [])
    ensures q.items == Left(old(q.items), if c.Second? then [c.call] else [])
    ensures taken == Taken(if c.First? then old(p.items) else old(q.items), [c.call])
  {
    taken := [];
    match c
    case First(Enter(th)) => EnterFirst(p, q, th, pool);
    case First(Take) => taken := TakeOff(p, q, pool);
    case First(Leave(th)) => LeaveOne(p, q, th, pool);
    case Second(Enter(th)) => EnterSecond(p, q, th, pool);
    case Second(Take) => taken := TakeOff(q, p, pool);
    case Second(Leave(th)) => LeaveOne(q, p, th, pool);
  }

  /** What a run makes of the two queues, and what it takes off them. */
  datatype Pair = Pair(p: seq<Thread>, q: seq<Thread>, fromP: seq<Thread>, fromQ: seq<Thread>)

  function Made(p: seq<Thread>, q: seq<Thread>, r: Run): Pair {
    Pair(Left(p, Firsts(r)), Left(q, Seconds(r)), Taken(p, Firsts(r)), Taken(q, Seconds(r)))
  }

  /** All calls of a run are allowed, by threads of the pool, ... */
  ghost predicate AllAllowed(p: seq<Thread>, q: seq<Thread>, r: Run, pool: set<Thread>) {
    r.Then? ==>
      && AllAllowed(p, q, r.run, pool) && Allowed(Made(p, q, r.run).p, Made(p, q, r.run).q, r.last)
      && (r.last.call.Enter? ==> r.last.call.th in pool)
  }

  /** ... and harmless. */
  predicate Safe(p: seq<Thread>, q: seq<Thread>, r: Run) {
    r.Then? ==> Safe(p, q, r.run) && Harmless(Made(p, q, r.run).p, Made(p, q, r.run).q, r.last)
  }

  lemma LeftMore(s: seq<Thread>, cs: seq<Call>, more: seq<Call>)
    ensures Left(s, cs + more) == Left(Left(s, cs), more)
    ensures Taken(s, cs + more) == Taken(s, cs) + Taken(Left(s, cs), more)
  {
    CallsAppend(s, cs, more);
  }

  lemma {:induction false} MadeMore(p: seq<Thread>, q: seq<Thread>, r: Run)
    requires r.Then?
    ensures var m, c := Made(p, q, r.run), r.last;
      Made(p, q, r) ==
        Pair(Left(m.p, On(c, true)), Left(m.q, On(c, false)),
             m.fromP + Taken(m.p, On(c, true)), m.fromQ + Taken(m.q, On(c, false)))
  {
    LeftMore(p, Firsts(r.run), On(r.last, true));
    LeftMore(q, Seconds(r.run), On(r.last, false));
  }

  /** Any mix of calls on the two queues. While the calls before the last are harmless,
      both queues are right after the last if and only if that is harmless too, and each
      queue takes out and leaves behind what it would without the other. */
  method DoAll(p: Queue, q: Queue, r: Run, ghost pool: set<Thread>)
    returns (fromP: seq<Thread>, fromQ: seq<Thread>)
    requires Right(p, q, pool) && AllAllowed(p.items, q.items, r, pool)
    requires r.Then? ==> Safe(p.items, q.items, r.run)
    modifies p, q, pool
    ensures p.Valid() && q.Valid() <==> Safe(old(p.items), old(q.items), r)
    ensures Safe(old(p.items), old(q.items), r) ==> Right(p, q, pool)
    ensures Pair(p.items, q.items, fromP, fromQ) == Made(old(p.items), old(q.items), r)
    decreases r
  {
    match r
    case Start => fromP, fromQ := [], [];
    case Then(run, c) =>
      MadeMore(p.items, q.items, r);
      fromP, fromQ := DoAll(p, q, run, pool);
      var taken := Do(p, q, c, pool);
      if c.First? { fromP := fromP + taken; } else { fromQ := fromQ + taken; }
  }

  /** th is on both queues after every call of the run that follows its relock, ... */
  predicate Stays(cond: seq<Thread>, mutex: seq<Thread>, th: Thread, r: Run) {
    && th in Made(cond, mutex, r).p && th in Made(cond, mutex, r).q
    && (r.Then? ==> r == Relock(th) || Stays(cond, mutex, th, r.run))
  }

  function Relock(th: Thread): Run { Then(Start, Second(Enter(th))) }

  /** ... which begins with it. */
  predicate Relocks(th: Thread, r: Run) { r == Relock(th) || (r.Then? && Relocks(th, r.run)) }

  /** Somebody else enters a queue. */
  predicate Enters(th: Thread, r: Run) { r != Relock(th) && r.Then? && (r.last.call.Enter? || Enters(th, r.run)) }

  /** So a cancelled waiter that queues on the mutex leaves both queues right, for as long
      as it is on both, if and only if it is the last waiter of the condition and nobody
      enters either queue meanwhile. */
  lemma {:induction false} WhileOnBoth(cond: seq<Thread>, mutex: seq<Thread>, th: Thread, r: Run)
    requires Apart(cond, mutex) && th in cond && Relocks(th, r) && Stays(cond, mutex, th, r)
    ensures Safe(cond, mutex, r) <==> th == cond[|cond|-1] && !Enters(th, r)
  {
    if r == Relock(th) { assert Safe(cond, mutex, Start); } else { WhileOnBoth(cond, mutex, th, r.run); }
  }

  /** pthread_cond_wait, cancelled, locks the mutex while th is still on the condition's
      queue, and both queues run through the same link. If the mutex is held, the
      enqueue leaves the mutex's queue right, for the moment, if and only if th is the
      last waiter of the condition. */
  method RelockWhileQueued(cond: Queue, mutex: Queue, th: Thread, ghost k: nat)
    requires cond != mutex && cond.Valid() && mutex.Valid() && k < |cond.items| && th == cond.items[k]
    requires forall x | x in cond.items :: x !in mutex.items
    modifies mutex, mutex.tail
    ensures mutex.items == old(mutex.items) + [th] && mutex.Chained()
    ensures cond.Valid() && cond.items == old(cond.items)
    ensures mutex.Valid() <==> k == |cond.items| - 1
  {
    cond.NextItem(k);
    assert mutex.tail != null ==> mutex.tail in mutex.items;
    mutex.Enqueue(th);
  }

  /** A run that breaks: behind a, the only thread that asked for the mutex, the links of
      the mutex's queue go on to b, a waiter of the condition. */
  method StrangerBehind(a: Thread, b: Thread) returns (mutex: Queue, cond: Queue)
    requires a != b && a.nextWaiting == null && b.nextWaiting == null
    modifies a, b
    ensures mutex.items == [a] && cond.items == [a, b] && cond.Valid()
    ensures mutex.head == a && a.nextWaiting == b && !mutex.Valid()
  {
    cond := new Queue();
    mutex := new Queue();
    cond.Enqueue(a);
    cond.Enqueue(b);
    RelockWhileQueued(cond, mutex, a, 0);
    cond.NextItem(0);
  }

  /** Being last is not enough. Behind a, the last waiter, a locker b enters the mutex's
      queue, and the condition's queue leads on to it; ... */
  method LockerBehind(a: Thread, b: Thread) returns (mutex: Queue, cond: Queue)
    requires a != b && a.nextWaiting == null && b.nextWaiting == null
    modifies a, b
    ensures mutex.items == [a, b] && cond.items == [a] && mutex.Valid()
    ensures cond.tail == a && a.nextWaiting == b && !cond.Valid()
  {
    cond := new Queue();
    mutex := new Queue();
    cond.Enqueue(a);
    RelockWhileQueued(cond, mutex, a, 0);
    mutex.Enqueue(b);
    mutex.NextItem(0);
  }

  /** ... or a waiter b enters the condition's queue, and the mutex's leads on to it. */
  method WaiterBehind(a: Thread, b: Thread) returns (mutex: Queue, cond: Queue)
    requires a != b && a.nextWaiting == null && b.nextWaiting == null
    modifies a, b
    ensures mutex.items == [a] && cond.items == [a, b] && cond.Valid()
    ensures mutex.tail == a && a.nextWaiting == b && !mutex.Valid()
  {
    cond := new Queue();
    mutex := new Queue();
    cond.Enqueue(a);
    RelockWhileQueued(cond, mutex, a, 0);
    cond.Enqueue(b);
    cond.NextItem(0);
  }

  /** Nobody enters the second queue or leaves it but by being taken. */
  predicate OnlyTakes(r: Run) { r.Then? ==> OnlyTakes(r.run) && (r.last.Second? ==> r.last.call == Take) }

  lemma ApartKept(p: seq<Thread>, q: seq<Thread>, c: PairCall)
    requires Apart(p, q) && Allowed(p, q, c) && (c.Second? ==> c.call == Take)
    ensures Apart(Left(p, On(c, true)), Left(q, On(c, false)))
  {
    match c
    case First(Enter(th)) => assert Left(p, [c.call]) == p + [th];
    case First(Take) => assert Left(p, [c.call]) == if p == [] then p else p[1..];
    case First(Leave(th)) =>
      assert Left(p, [c.call]) == Without(p, th);
      forall x | x in Without(p, th) ensures x in p { WithoutIn(p, th, x); }
    case Second(_) => assert Left(q, [c.call]) == if q == [] then q else q[1..];
  }

  lemma {:induction false} TakesSafe(p: seq<Thread>, q: seq<Thread>, r: Run, pool: set<Thread>)
    requires Apart(p, q) && AllAllowed(p, q, r, pool) && OnlyTakes(r)
    ensures Safe(p, q, r) && Apart(Made(p, q, r).p, Made(p, q, r).q)
  {
    if r.Then? {
      TakesSafe(p, q, r.run, pool);
      MadeMore(p, q, r);
      ApartKept(Made(p, q, r.run).p, Made(p, q, r.run).q, r.last);
    }
  }

  function Min(a: nat, b: nat): nat { if a < b then a else b }

  lemma TakeNext(q: seq<Thread>, n: nat)
    requires n <= |q|
    ensures var k := Min(n + 1, |q|); Left(q[n..], [Take]) == q[k..] && q[..n] + Taken(q[n..], [Take]) == q[..k]
  {
    if n < |q| {
      assert q[n..][1..] == q[n+1..];
      assert q[..n] + [q[n]] == q[..n+1];
    }
  }

  lemma {:induction false} TakesInOrder(p: seq<Thread>, q: seq<Thread>, r: Run)
    requires OnlyTakes(r)
    ensures var m, n := Made(p, q, r), Min(|Seconds(r)|, |q|); m.fromQ == q[..n] && m.q == q[n..]
  {
    if r.Then? {
      TakesInOrder(p, q, r.run);
      MadeMore(p, q, r);
      if r.last.Second? { TakeNext(q, Min(|Seconds(r.run)|, |q|)); }
    }
  }

  method DequeueAmid(p: Queue, q: Queue, r: Run, ghost pool: set<Thread>) returns (woken: seq<Thread>)
    requires Right(p, q, pool) && Apart(p.items, q.items) && OnlyTakes(r) && AllAllowed(p.items, q.items, r, pool)
    modifies p, q, pool
    ensures p.Valid() && p.items == Left(old(p.items), Firsts(r))
    ensures woken == old(q.items)[..Min(|Seconds(r)|, |old(q.items)|)]
  {
    TakesSafe(p.items, q.items, r, pool);
    TakesInOrder(p.items, q.items, r);
    var _, taken := DoAll(p, q, r, pool);
    woken := taken;
  }

  /** Broadcast as it is: it empties the queue under the spinlock and dequeues its copy
      afterwards, while others enter, take and leave the queue, threads it has just woken
      included. It wakes exactly the threads that were queued when it took the copy, in
      their order, and the queue holds what the others made of it. */
  method BroadcastAmid(q: Queue, r: Run, ghost pool: set<Thread>) returns (woken: seq<Thread>)
    requires q.Valid() && Clear(pool, q) && OnlyTakes(r) && AllAllowed([], q.items, r, pool)
    modifies q, pool
    ensures q.Valid() && q.items == Left([], Firsts(r))
    ensures woken == old(q.items)[..Min(|Seconds(r)|, |old(q.items)|)]
  {
    var toSignal := new Queue.Copy(q);
    q.Init();
    woken := DequeueAmid(q, toSignal, r, pool);
  }
}
