/** Cleanup handlers and cancellation types (cancel.c, join.c, and the signal handler
    in pthread.c): the statements of one thread, with cancellation requests arriving
    between any two of them. */
module Cleanup {

  datatype Type = Deferred | Asynchronous

  /** The part of a descriptor that cancellation is about. Handlers are numbered; the
      innermost linked one comes first. saved are the block-local variables that keep
      a type: a buffer's canceltype, or the oldtype of pthread_setcanceltype. */
  datatype Self = Self(
    canceltype: Type, enabled: bool, canceled: bool,
    linked: seq<nat>, saved: seq<Type>, ran: seq<nat>, exited: bool)

  datatype Op =
    | Save | Defer | Link(h: nat) | RunTop | Unlink | Restore | Check
    | Test | StoreType(t: Type) | StoreState(e: bool)
    | Cancel    // a request arrives: its flag and its signal, which pthread_cancel stores and sends in turn

  /** pthread_exit: the flag is reset and __pthread_perform_cleanup runs the handlers. */
  function Exit(s: Self): Self { s.(canceled := false, ran := s.ran + s.linked, exited := true) }

  function Checked(s: Self): Self {
    if s.canceled && s.enabled && s.canceltype == Asynchronous then Exit(s) else s
  }

  /** One statement. After the exit nothing happens. */
  function Do(op: Op, s: Self): Self {
    if s.exited then s
    else match op
      case Save => s.(saved := [s.canceltype] + s.saved)
      case Defer => s.(canceltype := Deferred)
      case Link(h) => s.(linked := [h] + s.linked)
      case RunTop => if s.linked == [] then s else s.(ran := s.ran + [s.linked[0]])
      case Unlink => if s.linked == [] then s else s.(linked := s.linked[1..])
      case Restore => if s.saved == [] then s else s.(canceltype := s.saved[0], saved := s.saved[1..])
      case Check => Checked(s)
      case Test => if s.canceled && s.enabled then Exit(s) else s
      case StoreType(t) => s.(canceltype := t)
      case StoreState(e) => s.(enabled := e)
      case Cancel => Checked(s.(canceled := true))
  }

  /** The statement, perhaps with requests arriving before it; a second request adds
      nothing to the first. */
  predicate After(op: Op, s: Self, s': Self) { s' == Do(op, s) || s' == Do(op, Do(Cancel, s)) }

  lemma SecondRequestIsIdle(s: Self)
    ensures Do(Cancel, Do(Cancel, s)) == Do(Cancel, s)
  {
  }

  /** What a thread may do: brackets of handlers nest. */
  datatype Code =
    | Nothing
    | Both(a: Code, b: Code)
    | TestCancel
    | SetType(t: Type)
    | SetState(e: bool)
    | Push(h: nat, body: Code, execute: bool)
    | PushDefer(h: nat, body: Code, execute: bool)

  /** How a deferring bracket is written: with the library's push_defer, or with
      pthread_setcanceltype, which ends with a check, and push. */
  datatype Style = Library | Separate

  ghost predicate Opened(v: Style, h: nat, s: Self, s': Self) {
    match v
    case Library => exists a, b :: After(Save, s, a) && After(Defer, a, b) && After(Link(h), b, s')
    case Separate =>
      exists a, b, c :: After(Save, s, a) && After(Defer, a, b) && After(Check, b, c) && After(Link(h), c, s')
  }

  /** pop, with or without running the handler, which is still linked then. */
  ghost predicate Popped(e: bool, s: Self, s': Self) {
    if e then exists a :: After(RunTop, s, a) && After(Unlink, a, s') else After(Unlink, s, s')
  }

  /** The store and the check of the two set functions, and of pop_restore. */
  ghost predicate Stored(op: Op, s: Self, s': Self) { exists a :: After(op, s, a) && After(Check, a, s') }

  /** A bracket around a body that leads from a to b. */
  ghost predicate Closed(e: bool, restoring: bool, b: Self, s': Self) {
    if restoring then exists c :: Popped(e, b, c) && Stored(Restore, c, s') else Popped(e, b, s')
  }

  /** The runs of a piece of code. */
  ghost predicate Runs(v: Style, c: Code, s: Self, s': Self)
    decreases c
  {
    match c
    case Nothing => s' == s
    case Both(x, y) => exists m :: Runs(v, x, s, m) && Runs(v, y, m, s')
    case TestCancel => After(Test, s, s')
    case SetType(t) => Stored(StoreType(t), s, s')
    case SetState(e) => Stored(StoreState(e), s, s')
    case Push(h, body, e) => exists a, b :: After(Link(h), s, a) && Runs(v, body, a, b) && Closed(e, false, b, s')
    case PushDefer(h, body, e) => exists a, b :: Opened(v, h, s, a) && Runs(v, body, a, b) && Closed(e, true, b, s')
  }

  /** The check after setting the type to deferred decides nothing, ... */
  lemma CheckWhenDeferred(a: Self, b: Self, c: Self)
    requires After(Defer, a, b) && After(Check, b, c)
    ensures c == b || c == Do(Cancel, b)
  {
  }

  /** ... and requests before it count as requests behind it. */
  lemma RequestsMerge(op: Op, b: Self, c: Self, s': Self)
    requires After(op, c, s') && (c == b || c == Do(Cancel, b))
    ensures After(op, b, s')
  {
    SecondRequestIsIdle(b);
  }

  lemma CheckPasses(a: Self, b: Self)
    requires After(Defer, a, b)
    ensures After(Check, b, b)
  {
  }

  lemma OpensSeparate(h: nat, s: Self, s': Self)
    requires Opened(Library, h, s, s')
    ensures Opened(Separate, h, s, s')
  {
    var a, b :| After(Save, s, a) && After(Defer, a, b) && After(Link(h), b, s');
    CheckPasses(a, b);
  }

  lemma OpensLibrary(h: nat, s: Self, s': Self)
    requires Opened(Separate, h, s, s')
    ensures Opened(Library, h, s, s')
  {
    var a, b, c :| After(Save, s, a) && After(Defer, a, b) && After(Check, b, c) && After(Link(h), c, s');
    CheckWhenDeferred(a, b, c);
    RequestsMerge(Link(h), b, c, s');
  }

  lemma OpensAlike(h: nat, s: Self, s': Self)
    ensures Opened(Library, h, s, s') <==> Opened(Separate, h, s, s')
  {
    if Opened(Library, h, s, s') { OpensSeparate(h, s, s'); }
    else if Opened(Separate, h, s, s') { OpensLibrary(h, s, s'); }
  }

  /** The two ways to write deferring brackets have the same runs, for every nesting and
      wherever requests arrive: the same handlers in the same order, the same type and
      the same decision to exit. */
  lemma {:induction false} DeferringAlike(c: Code, s: Self, s': Self)
    ensures Runs(Library, c, s, s') <==> Runs(Separate, c, s, s')
    decreases c
  {
    match c
    case Both(x, y) =>
      forall m ensures Runs(Library, x, s, m) <==> Runs(Separate, x, s, m) { DeferringAlike(x, s, m); }
      forall m ensures Runs(Library, y, m, s') <==> Runs(Separate, y, m, s') { DeferringAlike(y, m, s'); }
    case Push(h, body, e) =>
      forall a, b ensures Runs(Library, body, a, b) <==> Runs(Separate, body, a, b) { DeferringAlike(body, a, b); }
    case PushDefer(h, body, e) =>
      forall a ensures Opened(Library, h, s, a) <==> Opened(Separate, h, s, a) { OpensAlike(h, s, a); }
      forall a, b ensures Runs(Library, body, a, b) <==> Runs(Separate, body, a, b) { DeferringAlike(body, a, b); }
    case _ =>
  }

  /** A run without exit takes each statement as it comes. */
  lemma Survives(op: Op, s: Self, s': Self)
    requires After(op, s, s') && !s'.exited
    ensures !s.exited && !Do(op, s).exited && s'.(canceled := false) == Do(op, s).(canceled := false)
  {
  }

  /** The handlers that code runs if it is not interrupted. */
  function Completed(c: Code): seq<nat> {
    match c
    case Both(a, b) => Completed(a) + Completed(b)
    case Push(h, body, e) => Completed(body) + if e then [h] else []
    case PushDefer(h, body, e) => Completed(body) + if e then [h] else []
    case _ => []
  }

  lemma PopSurvives(e: bool, s: Self, s': Self)
    requires Popped(e, s, s') && !s'.exited && s.linked != []
    ensures !s.exited && s'.linked == s.linked[1..] && s'.saved == s.saved
    ensures s'.ran == s.ran + if e then [s.linked[0]] else []
  {
    if e {
      var a :| After(RunTop, s, a) && After(Unlink, a, s');
      Survives(Unlink, a, s');
      Survives(RunTop, s, a);
    } else {
      Survives(Unlink, s, s');
    }
  }

  lemma StoreSurvives(op: Op, s: Self, s': Self)
    requires Stored(op, s, s') && !s'.exited
    ensures !s.exited && s'.(canceled := false) == Do(op, s).(canceled := false)
  {
    var a :| After(op, s, a) && After(Check, a, s');
    Survives(Check, a, s');
    Survives(op, s, a);
  }

  lemma OpenSurvives(v: Style, h: nat, s: Self, s': Self)
    requires Opened(v, h, s, s') && !s'.exited
    ensures !s.exited && s'.linked == [h] + s.linked && s'.saved == [s.canceltype] + s.saved && s'.ran == s.ran
    ensures s'.canceltype == Deferred
  {
    OpensAlike(h, s, s');
    var a, b :| After(Save, s, a) && After(Defer, a, b) && After(Link(h), b, s');
    Survives(Link(h), b, s');
    Survives(Defer, a, b);
    Survives(Save, s, a);
  }

  lemma CloseSurvives(e: bool, restoring: bool, b: Self, s': Self)
    requires Closed(e, restoring, b, s') && !s'.exited && b.linked != [] && (restoring ==> b.saved != [])
    ensures !b.exited && s'.linked == b.linked[1..] && s'.ran == b.ran + if e then [b.linked[0]] else []
    ensures s'.saved == if restoring then b.saved[1..] else b.saved
    ensures restoring ==> s'.canceltype == b.saved[0]
  {
    if restoring {
      var c :| Popped(e, b, c) && Stored(Restore, c, s');
      StoreSurvives(Restore, c, s');
      PopSurvives(e, b, c);
    } else {
      PopSurvives(e, b, s');
    }
  }

  /** A run that does not exit leaves the handlers and the saved types as they were,
      has run exactly the handlers that were to be executed, inner before outer, and
      after a deferring bracket the type is what it was before it. */
  lemma {:induction false} Completes(v: Style, c: Code, s: Self, s': Self)
    requires Runs(v, c, s, s') && !s'.exited
    ensures !s.exited && s'.linked == s.linked && s'.saved == s.saved && s'.ran == s.ran + Completed(c)
    ensures c.PushDefer? ==> s'.canceltype == s.canceltype
    decreases c
  {
    match c
    case Nothing =>
    case Both(x, y) =>
      var m :| Runs(v, x, s, m) && Runs(v, y, m, s');
      Completes(v, y, m, s');
      Completes(v, x, s, m);
    case TestCancel => Survives(Test, s, s');
    case SetType(t) => StoreSurvives(StoreType(t), s, s');
    case SetState(e) => StoreSurvives(StoreState(e), s, s');
    case Push(h, body, e) =>
      var a, b :| After(Link(h), s, a) && Runs(v, body, a, b) && Closed(e, false, b, s');
      PushCompletes(v, c, s, a, b, s');
    case PushDefer(h, body, e) =>
      var a, b :| Opened(v, h, s, a) && Runs(v, body, a, b) && Closed(e, true, b, s');
      PushCompletes(v, c, s, a, b, s');
  }

  lemma {:induction false} PushCompletes(v: Style, c: Code, s: Self, a: Self, b: Self, s': Self)
    requires c.Push? || c.PushDefer?
    requires if c.Push? then After(Link(c.h), s, a) else Opened(v, c.h, s, a)
    requires Runs(v, c.body, a, b) && Closed(c.execute, c.PushDefer?, b, s') && !s'.exited
    ensures !s.exited && s'.linked == s.linked && s'.saved == s.saved && s'.ran == s.ran + Completed(c)
    ensures c.PushDefer? ==> s'.canceltype == s.canceltype
    decreases c, 0
  {
    if b.exited { CloseExits(c.execute, c.PushDefer?, b, s'); }
    Completes(v, c.body, a, b);
    if c.Push? { Survives(Link(c.h), s, a); } else { OpenSurvives(v, c.h, s, a); }
    CloseSurvives(c.execute, c.PushDefer?, b, s');
  }

  /** Once exited, always exited. */
  lemma CloseExits(e: bool, restoring: bool, b: Self, s': Self)
    requires Closed(e, restoring, b, s') && b.exited
    ensures s' == b
  {
  }

  /** No request is overlooked: a cancellation point that is passed leaves none pending
      while enabled, and neither does a set function or the end of a deferring bracket
      while the type is asynchronous again. */
  lemma RequestsActedUpon(v: Style, c: Code, s: Self, s': Self)
    requires Runs(v, c, s, s') && !s'.exited
    ensures c.TestCancel? ==> !(s'.canceled && s'.enabled)
    ensures c.SetType? || c.SetState? || c.PushDefer? ==> !(s'.canceled && s'.enabled && s'.canceltype == Asynchronous)
  {
    match c
    case SetType(t) => ChecksRequests(StoreType(t), s, s');
    case SetState(e) => ChecksRequests(StoreState(e), s, s');
    case PushDefer(h, body, e) =>
      var a, b :| Opened(v, h, s, a) && Runs(v, body, a, b) && Closed(e, true, b, s');
      var p :| Popped(e, b, p) && Stored(Restore, p, s');
      ChecksRequests(Restore, p, s');
    case _ =>
  }

  /** A statement of a set function that is passed, ... */
  lemma PassesOver(op: Op, s: Self, s': Self)
    requires After(op, s, s') && !s'.exited && (op.Check? || op.Test? || op.StoreType? || op.StoreState?)
    ensures !s.exited && (s.canceled ==> s'.canceled)
    ensures s' == s.(canceled := s'.canceled, canceltype := if op.StoreType? then op.t else s.canceltype,
                     enabled := if op.StoreState? then op.e else s.enabled)
  {
  }

  /** ... and one at which the thread ends. */
  lemma EndsAt(op: Op, s: Self, s': Self)
    requires After(op, s, s') && !s.exited && (op.Check? || op.Test? || op.StoreType? || op.StoreState?)
    ensures s.canceled && s.enabled && (op.Test? || (op.Check? && s.canceltype == Asynchronous)) ==> s'.exited
    ensures s'.exited ==> s'.ran == s.ran + s.linked && s.enabled && (op.Test? || s.canceltype == Asynchronous)
  {
  }

  /** What a set function or a cancellation point has done when it returns. The set
      functions have stored what they were given. Nothing else has changed but that a
      request may have arrived, and no request has been dropped. */
  lemma SetReturns(v: Style, c: Code, s: Self, s': Self)
    requires Runs(v, c, s, s') && !s'.exited && (c.SetType? || c.SetState? || c.TestCancel?)
    ensures s.canceled ==> s'.canceled
    ensures s' == s.(canceled := s'.canceled, canceltype := if c.SetType? then c.t else s.canceltype,
                     enabled := if c.SetState? then c.e else s.enabled)
  {
    if c.TestCancel? {
      PassesOver(Test, s, s');
    } else {
      var op := if c.SetType? then StoreType(c.t) else StoreState(c.e);
      var a :| After(op, s, a) && After(Check, a, s');
      PassesOver(Check, a, s');
      PassesOver(op, s, a);
    }
  }

  /** A request that is pending when one of them is called ends the thread if the
      settings it leaves allow that, with all its handlers run, innermost first. And the
      thread does not end if neither the settings before nor those after allow it. */
  lemma SetExits(v: Style, c: Code, s: Self, s': Self)
    requires Runs(v, c, s, s') && !s.exited && (c.SetType? || c.SetState? || c.TestCancel?)
    ensures var ty, en := if c.SetType? then c.t else s.canceltype, if c.SetState? then c.e else s.enabled;
      && (s.canceled && en && (c.TestCancel? || ty == Asynchronous) ==> s'.exited)
      && (s'.exited ==> (en && (c.TestCancel? || ty == Asynchronous)) || (s.enabled && s.canceltype == Asynchronous))
    ensures s'.exited ==> s'.ran == s.ran + s.linked
  {
    if c.TestCancel? {
      EndsAt(Test, s, s');
    } else {
      var op := if c.SetType? then StoreType(c.t) else StoreState(c.e);
      var a :| After(op, s, a) && After(Check, a, s');
      EndsAt(op, s, a);
      if !a.exited {
        PassesOver(op, s, a);
        EndsAt(Check, a, s');
      }
    }
  }

  lemma ChecksRequests(op: Op, s: Self, s': Self)
    requires Stored(op, s, s') && !s'.exited
    ensures !(s'.canceled && s'.enabled && s'.canceltype == Asynchronous)
  {
    var a :| After(op, s, a) && After(Check, a, s');
  }

  lemma StepInterrupted(op: Op, s: Self, s': Self)
    requires After(op, s, s') && s'.exited && !s.exited
    ensures s'.ran == s.ran + s.linked
  {
  }

  lemma PopInterrupted(e: bool, s: Self, s': Self)
    requires Popped(e, s, s') && s'.exited && !s.exited && s.linked != []
    ensures s'.ran == s.ran + s.linked || (e && s'.ran == s.ran + [s.linked[0]] + s.linked)
  {
    if e {
      var a :| After(RunTop, s, a) && After(Unlink, a, s');
      if a.exited { StepInterrupted(RunTop, s, a); } else { Survives(RunTop, s, a); StepInterrupted(Unlink, a, s'); }
    } else {
      StepInterrupted(Unlink, s, s');
    }
  }

  lemma StoreInterrupted(op: Op, s: Self, s': Self)
    requires Stored(op, s, s') && s'.exited && !s.exited && (op.StoreType? || op.StoreState? || op.Restore?)
    ensures s'.ran == s.ran + s.linked
  {
    var a :| After(op, s, a) && After(Check, a, s');
    if a.exited { StepInterrupted(op, s, a); } else { Survives(op, s, a); StepInterrupted(Check, a, s'); }
  }

  lemma OpenInterrupted(v: Style, h: nat, s: Self, s': Self)
    requires Opened(v, h, s, s') && s'.exited && !s.exited
    ensures s'.ran == s.ran + s.linked
  {
    OpensAlike(h, s, s');
    var a, b :| After(Save, s, a) && After(Defer, a, b) && After(Link(h), b, s');
    if a.exited { StepInterrupted(Save, s, a); }
    else if b.exited { Survives(Save, s, a); StepInterrupted(Defer, a, b); }
    else { Survives(Save, s, a); Survives(Defer, a, b); StepInterrupted(Link(h), b, s'); }
  }

  /** The handlers that code has run or left linked when it is interrupted, in the
      order in which they run: those already executed, then the open brackets from
      the inside. A handler that pop is executing is still linked and runs again. */
  ghost predicate Cut(c: Code, x: seq<nat>)
    decreases c
  {
    match c
    case Both(a, b) => Cut(a, x) || exists y :: Cut(b, y) && x == Completed(a) + y
    case Push(h, body, e) => x == [] || (exists y :: Cut(body, y) && x == y + [h]) || CutAtEnd(c, x)
    case PushDefer(h, body, e) => x == [] || (exists y :: Cut(body, y) && x == y + [h]) || CutAtEnd(c, x)
    case _ => x == []
  }

  predicate CutAtEnd(c: Code, x: seq<nat>)
    requires c.Push? || c.PushDefer?
  {
    || x == Completed(c.body) + [c.h]
    || (c.execute && x == Completed(c.body) + [c.h, c.h])
    || (c.PushDefer? && x == Completed(c))
  }

  lemma Shift(a: seq<nat>, b: seq<nat>, c: seq<nat>, d: seq<nat>)
    ensures a + b + (c + d) == a + (b + c) + d
  {
  }

  lemma EndsTwice(ran: seq<nat>, done: seq<nat>, h: nat, linked: seq<nat>)
    ensures ran + done + [h] + ([h] + linked) == ran + (done + [h, h]) + linked
  {
  }

  lemma Associates(a: seq<nat>, b: seq<nat>, c: seq<nat>)
    ensures a + b + c == a + (b + c)
  {
  }

  lemma PopCut(c: Code, s: Self, b: Self, p: Self) returns (x: seq<nat>)
    requires (c.Push? || c.PushDefer?) && Popped(c.execute, b, p) && p.exited && !b.exited
    requires b.linked == [c.h] + s.linked && b.ran == s.ran + Completed(c.body)
    ensures x == Completed(c.body) + [c.h] || (c.execute && x == Completed(c.body) + [c.h, c.h])
    ensures p.ran == s.ran + x + s.linked
  {
    var done := Completed(c.body);
    PopInterrupted(c.execute, b, p);
    Shift(s.ran, done, [c.h], s.linked);
    EndsTwice(s.ran, done, c.h, s.linked);
    x := if p.ran == b.ran + b.linked then done + [c.h] else done + [c.h, c.h];
  }

  lemma RestoreCut(c: Code, s: Self, b: Self, p: Self, s': Self)
    requires c.PushDefer? && Popped(c.execute, b, p) && !p.exited && Stored(Restore, p, s') && s'.exited
    requires b.linked == [c.h] + s.linked && b.ran == s.ran + Completed(c.body)
    ensures s'.ran == s.ran + Completed(c) + s.linked
  {
    var done, last := Completed(c.body), if c.execute then [c.h] else [];
    PopSurvives(c.execute, b, p);
    assert p.linked == s.linked && p.ran == s.ran + done + last;
    StoreInterrupted(Restore, p, s');
    Associates(s.ran, done, last);
  }

  lemma CloseInterrupted(c: Code, s: Self, b: Self, s': Self) returns (x: seq<nat>)
    requires (c.Push? || c.PushDefer?) && Closed(c.execute, c.PushDefer?, b, s') && s'.exited && !b.exited
    requires b.linked == [c.h] + s.linked && b.ran == s.ran + Completed(c.body)
    ensures CutAtEnd(c, x) && s'.ran == s.ran + x + s.linked
  {
    if c.Push? {
      x := PopCut(c, s, b, s');
    } else {
      var p :| Popped(c.execute, b, p) && Stored(Restore, p, s');
      if p.exited {
        x := PopCut(c, s, b, p);
        StoreExits(Restore, p, s');
      } else {
        x := Completed(c);
        RestoreCut(c, s, b, p, s');
      }
    }
  }

  lemma StoreExits(op: Op, s: Self, s': Self)
    requires Stored(op, s, s') && s.exited
    ensures s' == s
  {
  }

  lemma OpenExits(v: Style, h: nat, s: Self, s': Self)
    requires Opened(v, h, s, s') && s.exited
    ensures s' == s
  {
  }

  /** After the exit nothing more happens. */
  lemma {:induction false} ExitedStays(v: Style, c: Code, s: Self, s': Self)
    requires Runs(v, c, s, s') && s.exited
    ensures s' == s
    decreases c
  {
    match c
    case Both(x, y) =>
      var m :| Runs(v, x, s, m) && Runs(v, y, m, s');
      ExitedStays(v, x, s, m);
      ExitedStays(v, y, m, s');
    case Push(h, body, e) =>
      var a, b :| After(Link(h), s, a) && Runs(v, body, a, b) && Closed(e, false, b, s');
      ExitedStays(v, body, a, b);
      CloseExits(e, false, b, s');
    case PushDefer(h, body, e) =>
      var a, b :| Opened(v, h, s, a) && Runs(v, body, a, b) && Closed(e, true, b, s');
      OpenExits(v, h, s, a);
      ExitedStays(v, body, a, b);
      CloseExits(e, true, b, s');
    case _ =>
  }

  /** An interrupted run has run what was executed so far, then all open brackets from
      the inside, then the handlers that were linked before. */
  lemma {:induction false} Interrupted(v: Style, c: Code, s: Self, s': Self) returns (x: seq<nat>)
    requires Runs(v, c, s, s') && s'.exited && !s.exited
    ensures Cut(c, x) && s'.ran == s.ran + x + s.linked
    decreases c
  {
    x := [];
    match c
    case Nothing =>
    case Both(a, b) =>
      var m :| Runs(v, a, s, m) && Runs(v, b, m, s');
      if m.exited {
        x := Interrupted(v, a, s, m);
        ExitedStays(v, b, m, s');
      } else {
        Completes(v, a, s, m);
        var y := Interrupted(v, b, m, s');
        x := Completed(a) + y;
        assert s.ran + Completed(a) + y == s.ran + x;
      }
    case TestCancel => StepInterrupted(Test, s, s');
    case SetType(t) => StoreInterrupted(StoreType(t), s, s');
    case SetState(e) => StoreInterrupted(StoreState(e), s, s');
    case Push(h, body, e) =>
      var a, b :| After(Link(h), s, a) && Runs(v, body, a, b) && Closed(e, false, b, s');
      if a.exited { StepInterrupted(Link(h), s, a); } else { Survives(Link(h), s, a); }
      x := BracketInterrupted(v, c, s, a, b, s');
    case PushDefer(h, body, e) =>
      var a, b :| Opened(v, h, s, a) && Runs(v, body, a, b) && Closed(e, true, b, s');
      if a.exited { OpenInterrupted(v, h, s, a); } else { OpenSurvives(v, h, s, a); }
      x := BracketInterrupted(v, c, s, a, b, s');
  }

  lemma {:induction false} BracketInterrupted(v: Style, c: Code, s: Self, a: Self, b: Self, s': Self)
    returns (x: seq<nat>)
    requires (c.Push? || c.PushDefer?) && Runs(v, c.body, a, b) && Closed(c.execute, c.PushDefer?, b, s') && s'.exited
    requires if a.exited then a.ran == s.ran + s.linked else a.linked == [c.h] + s.linked && a.ran == s.ran
    ensures Cut(c, x) && s'.ran == s.ran + x + s.linked
    decreases c, 0
  {
    if a.exited {
      ExitedStays(v, c.body, a, b);
      CloseExits(c.execute, c.PushDefer?, b, s');
      x := [];
    } else if b.exited {
      var y := Interrupted(v, c.body, a, b);
      CloseExits(c.execute, c.PushDefer?, b, s');
      x := y + [c.h];
      Shift(s.ran, y, [c.h], s.linked);
    } else {
      Completes(v, c.body, a, b);
      x := CloseInterrupted(c, s, b, s');
    }
  }

  /** A handler that pop executes runs a second time, because a request is acted upon
      before it is unlinked, if and only if cancellation is enabled and asynchronous
      at that time. */
  lemma RunsTwice(s: Self)
    requires s.linked != [] && !s.exited
    ensures (exists s' :: Popped(true, s, s') && s'.exited && s'.ran == s.ran + [s.linked[0]] + s.linked)
       <==> s.enabled && s.canceltype == Asynchronous
  {
    if s.enabled && s.canceltype == Asynchronous {
      var a := Do(RunTop, s);
      assert After(RunTop, s, a) && After(Unlink, a, Do(Unlink, Do(Cancel, a)));
      assert Popped(true, s, Do(Unlink, Do(Cancel, a)));
    } else {
      forall s' | Popped(true, s, s') ensures !s'.exited { PopUndisturbed(true, s, s'); }
    }
  }

  lemma PopUndisturbed(e: bool, s: Self, s': Self)
    requires Popped(e, s, s') && !s.exited && !(s.enabled && s.canceltype == Asynchronous)
    ensures !s'.exited
  {
  }

  /** No pthread_setcanceltype outside inner brackets, which restore the type. */
  predicate KeepsType(c: Code) {
    match c
    case Both(a, b) => KeepsType(a) && KeepsType(b)
    case SetType(_) => false
    case Push(_, body, _) => KeepsType(body)
    case _ => true
  }

  lemma {:induction false} TypeKept(v: Style, c: Code, s: Self, s': Self)
    requires Runs(v, c, s, s') && KeepsType(c) && !s'.exited
    ensures s'.canceltype == s.canceltype
    decreases c
  {
    Completes(v, c, s, s');
    match c
    case Nothing =>
    case Both(x, y) =>
      var m :| Runs(v, x, s, m) && Runs(v, y, m, s');
      Completes(v, y, m, s');
      TypeKept(v, x, s, m);
      TypeKept(v, y, m, s');
    case TestCancel => Survives(Test, s, s');
    case SetState(e) => StoreSurvives(StoreState(e), s, s');
    case Push(h, body, e) =>
      var a, b :| After(Link(h), s, a) && Runs(v, body, a, b) && Closed(e, false, b, s');
      if b.exited { CloseExits(e, false, b, s'); }
      Completes(v, body, a, b);
      Survives(Link(h), s, a);
      TypeKept(v, body, a, b);
      PopKeepsType(e, b, s');
    case PushDefer(h, body, e) =>
  }

  lemma PopKeepsType(e: bool, s: Self, s': Self)
    requires Popped(e, s, s') && !s'.exited
    ensures s'.canceltype == s.canceltype
  {
  }

  /** In a deferring bracket whose body leaves the type alone, that cannot happen: the
      handler runs once when it is popped, wherever requests arrive. */
  lemma {:induction false} DeferredRunsOnce(v: Style, h: nat, body: Code, e: bool, s: Self, a: Self, b: Self, p: Self)
    requires Opened(v, h, s, a) && Runs(v, body, a, b) && !b.exited && KeepsType(body) && Popped(e, b, p)
    ensures !p.exited && p.linked == s.linked && p.ran == s.ran + Completed(body) + if e then [h] else []
  {
    Completes(v, body, a, b);
    OpenSurvives(v, h, s, a);
    TypeKept(v, body, a, b);
    PopUndisturbed(e, b, p);
    PopSurvives(e, b, p);
  }
}
