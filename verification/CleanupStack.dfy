/** The cleanup list in place: buffers in the blocks of the caller, linked from the
    descriptor (cancel.c). Between requests, its operations are the statements of
    Cleanup.dfy. */
module CleanupStack {
  import opened Cleanup

  class Buffer {
    var routine: nat
    var canceltype: Type
    var prev: Buffer?
  }

  ghost function At(s: seq<Buffer>, i: nat): Buffer? { if i < |s| then s[i] else null }

  ghost function Routines(s: seq<Buffer>): (r: seq<nat>)
    reads s
    ensures |r| == |s|
  { if s == [] then [] else [s[0].routine] + Routines(s[1..]) }

  lemma RoutinesFrom(s: seq<Buffer>, k: nat)
    requires k < |s|
    ensures Routines(s[k..]) == [s[k].routine] + Routines(s[k+1..])
  {
    assert s[k..][1..] == s[k+1..];
  }

  /** The statements of pop_restore. */
  function Restored(execute: bool, s: Self): Self {
    Do(Check, Do(Restore, Do(Unlink, if execute then Do(RunTop, s) else s)))
  }

  class Thread {
    var cleanup: Buffer?
    var canceltype: Type
    var enabled: bool
    var canceled: bool
    var ran: seq<nat>
    var exited: bool
    ghost var stack: seq<Buffer>    // the linked buffers, innermost first

    ghost predicate Valid()
      reads this, stack
    {
      && (forall i, j | 0 <= i < j < |stack| :: stack[i] != stack[j])
      && cleanup == At(stack, 0)
      && forall i | 0 <= i < |stack| :: stack[i].prev == At(stack, i + 1)
    }

    /** The thread as Cleanup.dfy sees it, with the types saved in its blocks. */
    ghost function View(saved: seq<Type>): Self
      reads this, stack
    { Self(canceltype, enabled, canceled, Routines(stack), saved, ran, exited) }

    ghost function ViewIn(buffer: Buffer, saved: seq<Type>): Self
      reads this, stack, buffer
    { View([buffer.canceltype] + saved) }

    /** __pthread_perform_cleanup */
    method PerformCleanup()
      requires Valid()
      modifies this`ran
      ensures Valid() && ran == old(ran) + Routines(stack)
    {
      var c := cleanup;
      ghost var k := 0;
      while c != null
        invariant Valid() && 0 <= k <= |stack|
        invariant c == At(stack, k)
        invariant ran + Routines(stack[k..]) == old(ran) + Routines(stack)
        decreases |stack| - k
      {
        RoutinesFrom(stack, k);
        Associates(ran, [c.routine], Routines(stack[k+1..]));
        ran := ran + [c.routine];
        c := c.prev;
        k := k + 1;
      }
    }

    /** The beginning of pthread_exit. */
    method ExitThread(ghost saved: seq<Type>)
      requires Valid() && !exited
      modifies this`ran, this`canceled, this`exited
      ensures Valid() && View(saved) == Exit(old(View(saved)))
    {
      canceled := false;
      PerformCleanup();
      exited := true;
    }

    method CheckCancel(ghost saved: seq<Type>)
      requires Valid() && !exited
      modifies this`ran, this`canceled, this`exited
      ensures Valid() && View(saved) == Do(Check, old(View(saved)))
      ensures exited <==> old(canceled) && enabled && canceltype == Asynchronous
      ensures ran == old(ran) + if exited then Routines(stack) else []
    {
      if canceled && enabled && canceltype == Asynchronous { ExitThread(saved); }
    }

    method Push(buffer: Buffer, routine: nat, ghost saved: seq<Type>)
      requires Valid() && !exited && buffer !in stack
      modifies this`cleanup, this`stack, buffer
      ensures Valid() && stack == [buffer] + old(stack)
      ensures buffer.routine == routine && buffer.canceltype == old(buffer.canceltype)
      ensures View(saved) == Do(Link(routine), old(View(saved)))
    {
      buffer.routine := routine;
      buffer.prev := cleanup;
      cleanup := buffer;
      stack := [buffer] + stack;
      assert stack[1..] == old(stack);
    }

    method PushDefer(buffer: Buffer, routine: nat, ghost saved: seq<Type>)
      requires Valid() && !exited && buffer !in stack
      modifies this`cleanup, this`stack, this`canceltype, buffer
      ensures Valid() && stack == [buffer] + old(stack)
      ensures canceltype == Deferred && buffer.canceltype == old(canceltype) && buffer.routine == routine
      ensures ViewIn(buffer, saved) == Do(Link(routine), Do(Defer, Do(Save, old(View(saved)))))
    {
      buffer.routine := routine;
      buffer.canceltype := canceltype;
      buffer.prev := cleanup;
      canceltype := Deferred;
      cleanup := buffer;
      stack := [buffer] + stack;
      assert stack[1..] == old(stack);
    }

    method Pop(buffer: Buffer, execute: bool, ghost saved: seq<Type>)
      requires Valid() && !exited && stack != [] && buffer == stack[0]
      modifies this`cleanup, this`stack, this`ran
      ensures Valid() && stack == old(stack)[1..]
      ensures ran == old(ran) + if execute then [old(buffer.routine)] else []
      ensures View(saved) == Do(Unlink, if execute then Do(RunTop, old(View(saved))) else old(View(saved)))
    {
      if execute { ran := ran + [buffer.routine]; }
      cleanup := buffer.prev;
      stack := stack[1..];
    }

    method PopRestore(buffer: Buffer, execute: bool, ghost saved: seq<Type>)
      requires Valid() && !exited && stack != [] && buffer == stack[0]
      modifies this
      ensures Valid() && stack == old(stack)[1..]
      ensures canceltype == old(buffer.canceltype) && enabled == old(enabled)
      ensures exited <==> old(canceled) && enabled && canceltype == Asynchronous
      ensures ran == old(ran) + (if execute then [old(buffer.routine)] else [])
        + (if exited then Routines(stack) else [])
      ensures View(saved) == Restored(execute, old(ViewIn(buffer, saved)))
    {
      Pop(buffer, execute, [buffer.canceltype] + saved);
      canceltype := buffer.canceltype;
      CheckCancel(saved);
    }

    method SetCancelType(t: Type, ghost saved: seq<Type>) returns (oldtype: Type)
      requires Valid() && !exited
      modifies this`canceltype, this`ran, this`canceled, this`exited
      ensures Valid() && oldtype == old(canceltype) && canceltype == t
      ensures exited <==> old(canceled) && enabled && t == Asynchronous
      ensures ran == old(ran) + if exited then Routines(stack) else []
      ensures View(saved) == Do(Check, Do(StoreType(t), old(View(saved))))
    {
      oldtype := canceltype;
      canceltype := t;
      CheckCancel(saved);
    }

    method SetCancelState(e: bool, ghost saved: seq<Type>) returns (oldstate: bool)
      requires Valid() && !exited
      modifies this`enabled, this`ran, this`canceled, this`exited
      ensures Valid() && oldstate == old(enabled) && enabled == e
      ensures exited <==> old(canceled) && e && canceltype == Asynchronous
      ensures ran == old(ran) + if exited then Routines(stack) else []
      ensures View(saved) == Do(Check, Do(StoreState(e), old(View(saved))))
    {
      oldstate := enabled;
      enabled := e;
      CheckCancel(saved);
    }

    method TestCancel(ghost saved: seq<Type>)
      requires Valid() && !exited
      modifies this`ran, this`canceled, this`exited
      ensures Valid() && (exited <==> old(canceled) && enabled)
      ensures ran == old(ran) + if exited then Routines(stack) else []
      ensures View(saved) == Do(Test, old(View(saved)))
    {
      if canceled && enabled { ExitThread(saved); }
    }
  }
}
