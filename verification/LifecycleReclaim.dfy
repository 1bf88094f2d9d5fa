/** Reclamation: when the stack segment of a thread is freed, and how often.

    A pthread_t may be handed to pthread_join or pthread_detach once; the model
    records who has claimed each thread. Under that client rule a segment is freed
    at most once, after the process was reaped, and nobody looks at the descriptor
    again, unless the thread was detached between its termination and the mark
    p_exited. That window is the exact exception. */
module LifecycleReclaim {
  import opened Options
  import opened Lifecycle
  import opened LifecycleInvariant

  /** What has become of the claim on a thread: late tells that it was a detach that
      fell into the window. */
  datatype Claim = Nobody | By(t: Tid, late: bool) | Asked(late: bool) | Settled(late: bool)

  function Of(c: map<Tid, Claim>, th: Tid): Claim { if th in c then c[th] else Nobody }

  predicate Late(c: map<Tid, Claim>, th: Tid) { Of(c, th) != Nobody && Of(c, th).late }

  /** The thread that a move claims. */
  function ClaimedBy(s: State, mv: Move): Option<Tid> {
    if mv.Go? && s.Pc(mv.t) == Running && ((mv.call.Join? && mv.call.th != mv.t) || mv.call.Detach?)
    then Some(mv.call.th) else None
  }

  /** A detach that finds its target terminated and not yet marked as exited. */
  predicate InWindow(s: State, mv: Move) {
    mv.Go? && s.Pc(mv.t).DetachBody? && s.D(s.Pc(mv.t).th).terminated && !s.D(s.Pc(mv.t).th).exited
  }

  function GoRecords(s: State, c: map<Tid, Claim>, t: Tid, call: Call): map<Tid, Claim> {
    match s.Pc(t)
    case Running => if ClaimedBy(s, Go(t, call)).Some? then c[call.th := By(t, false)] else c
    case DetachBody(th) => if InWindow(s, Go(t, call)) then c[th := By(t, true)] else c
    case DetachRel(th, send) => if send then c else c[th := Settled(false)]
    case DetachSend(th) => c[th := Asked(Late(c, th))]
    case JoinFail(th) => c[th := Settled(false)]
    case JoinSend(th, _) => c[th := Asked(false)]
    case _ => c
  }

  function MgrRecords(s: State, c: map<Tid, Claim>, child: Tid, ok: bool): map<Tid, Claim> {
    if s.mgr.MkClone? && ok then c[child := if s.mgr.det then Settled(false) else Nobody]
    else if s.mgr.FreeBody? then c[s.mgr.th := Settled(Late(c, s.mgr.th))]
    else c
  }

  /** The record of claims after a move. */
  function Records(s: State, c: map<Tid, Claim>, mv: Move): map<Tid, Claim> {
    match mv
    case Go(t, call) => GoRecords(s, c, t, call)
    case Manage(child, ok) => MgrRecords(s, c, child, ok)
    case Deliver => c
  }

  ghost function Claims(ms: seq<Move>): map<Tid, Claim> {
    if ms == [] then map[] else Records(Exec(INITIAL, ms[..|ms|-1]), Claims(ms[..|ms|-1]), ms[|ms|-1])
  }

  /** The client rule: only threads created joinable are joined or detached, and each
      of them once. */
  ghost predicate ClaimedOnce(ms: seq<Move>) {
    ms == [] ||
    (var ms', mv := ms[..|ms|-1], ms[|ms|-1];
     var th := ClaimedBy(Exec(INITIAL, ms'), mv);
     ClaimedOnce(ms') && (th.Some? ==> Of(Claims(ms'), th.value) == Nobody))
  }

  /** No detach falls into the window. */
  ghost predicate InTime(ms: seq<Move>) {
    ms == [] || (InTime(ms[..|ms|-1]) && !InWindow(Exec(INITIAL, ms[..|ms|-1]), ms[|ms|-1]))
  }

  /** Requests to free th that wait in the pipe, ... */
  function Count(pipe: seq<Request>, th: Tid): nat {
    if pipe == [] then 0 else (if pipe[0] == Free(th) then 1 else 0) + Count(pipe[1..], th)
  }

  lemma {:induction false} CountAppend(pipe: seq<Request>, r: Request, th: Tid)
    ensures Count(pipe + [r], th) == Count(pipe, th) + if r == Free(th) then 1 else 0
  {
    if pipe == [] {
      assert pipe + [r] == [r];
    } else {
      CountAppend(pipe[1..], r, th);
      assert (pipe + [r])[1..] == pipe[1..] + [r];
    }
  }

  /** ... or are being served. */
  function Served(m: Mgr, th: Tid): nat { if m == FreeAcq(th) || m == FreeBody(th) then 1 else 0 }

  /** The manager has marked th as exited and is still deciding whether to free it. */
  predicate Deciding(m: Mgr, th: Tid) { (m.ReapRel? || m.ReapFree?) && m.th == th }

  predicate Passed(s: State, th: Tid) { s.D(th).exited && !Deciding(s.mgr, th) }

  predicate Marked(p: Pc) { p.DetachRel? || p.DetachSend? }

  predicate Opening(p: Pc) { p.JoinAcq? || p.JoinBody? || p.DetachAcq? || p.DetachBody? }

  /** The claimant of th is inside its call. */
  predicate ByOk(s: State, t: Tid, late: bool, th: Tid) {
    var p, d := s.Pc(t), s.D(th);
    && Ref(p) == Some(th)
    && !p.JoinFail?
    && (Opening(p) ==> d.joining == None)
    && (if p == DetachRel(th, false) then d.detached && !d.terminated && !late
        else if Marked(p) then d.detached && d.terminated && (late || d.exited)
        else !d.detached && !late)
  }

  predicate Fits(s: State, k: Claim, th: Tid) {
    var d := s.D(th);
    match k
    case Nobody => !d.detached && d.joining == None
    case By(t, late) => ByOk(s, t, late, th)
    case Asked(late) => d.terminated && (late ==> d.detached) && (!late && d.detached ==> d.exited)
    case Settled(late) => d.detached || (d.exited && !late)
  }

  /** The claims as the books have them, ... */
  ghost predicate ClaimOk(s: State, c: map<Tid, Claim>, th: Tid) {
    var k := Of(c, th);
    && Fits(s, k, th)
    && Count(s.pipe, th) + Served(s.mgr, th) == (if k.Asked? then 1 else 0)
    && (s.Proc(th) == Absent ==> k == Nobody)
  }

  /** ... the callers that hold them, ... */
  ghost predicate HolderOk(s: State, c: map<Tid, Claim>, t: Tid) {
    var r := Ref(s.Pc(t));
    r.Some? ==> Of(c, r.value).By? && Of(c, r.value).t == t
  }

  /** ... and the exact number of frees. */
  predicate FreesFit(n: nat, k: Claim, passed: bool) {
    match k
    case Nobody => n == 0
    case Settled(late) => if !passed then n == 0 else n == 1 || (late && n == 2)
    case _ => n == if k.late && passed then 1 else 0
  }

  ghost predicate FreesOk(s: State, c: map<Tid, Claim>, th: Tid) {
    var k := Of(c, th);
    && FreesFit(s.Frees(th), k, Passed(s, th))
    && (Deciding(s.mgr, th) ==> (s.D(th).detached <==> k.Settled? || (k.By? && k.late) || (k.Asked? && k.late)))
    && (s.mgr.ReapRel? && s.mgr.th == th ==> s.mgr.det == s.D(th).detached)
    && (s.mgr.ReapFree? && s.mgr.th == th ==> s.D(th).detached)
    && (s.mgr == FreeRel(th) ==> !s.D(th).exited)
  }

  ghost predicate Books(s: State, c: map<Tid, Claim>) {
    && (forall t :: HolderOk(s, c, t))
    && (forall th :: ClaimOk(s, c, th))
    && (forall th :: FreesOk(s, c, th))
  }

  ghost predicate Ready(s: State, c: map<Tid, Claim>, mv: Move) {
    && Inv(s) && Books(s, c) && Enabled(s, mv)
    && (ClaimedBy(s, mv).Some? ==> Of(c, ClaimedBy(s, mv).value) == Nobody)
  }

  lemma GoHolders(s: State, c: map<Tid, Claim>, u: Tid, call: Call, t: Tid)
    requires Enabled(s, Go(u, call)) && HolderOk(s, c, t) && HolderOk(s, c, u)
    requires ClaimedBy(s, Go(u, call)).Some? ==> Of(c, call.th) == Nobody
    ensures HolderOk(Step(s, Go(u, call)), GoRecords(s, c, u, call), t)
  {
  }

  /** What a thread may do to a descriptor. */
  lemma StoredAt(s: State, w: Option<Write>, th: Tid)
    ensures s.(desc := Stored(s, w)).D(th) == if w.Some? && w.value.x == th then w.value.d else s.D(th)
  {
  }

  lemma GoDesc(s: State, u: Tid, call: Call, th: Tid)
    requires Enabled(s, Go(u, call))
    ensures var d, d' := s.D(th), Step(s, Go(u, call)).D(th);
      && d'.exited == d.exited
      && d'.terminated == (d.terminated || (u == th && s.Pc(u).ExitBody?))
      && d'.detached == (d.detached || (s.Pc(u) == DetachBody(th) && d.joining == None))
      && (s.Pc(u) != JoinBody(th) ==> d'.joining == d.joining)
  {
    StoredAt(s, Writes(s, u), th);
  }

  lemma GoCounts(s: State, c: map<Tid, Claim>, u: Tid, call: Call, th: Tid)
    requires Enabled(s, Go(u, call)) && HolderOk(s, c, u) && ClaimOk(s, c, th)
    requires ClaimedBy(s, Go(u, call)).Some? ==> Of(c, call.th) == Nobody
    ensures var s', k := Step(s, Go(u, call)), Of(GoRecords(s, c, u, call), th);
      Count(s'.pipe, th) + Served(s'.mgr, th) == (if k.Asked? then 1 else 0)
  {
    if s.Pc(u) == Running && call.Start? { CountAppend(s.pipe, Create(u, call.detached), th); }
    CountAppend(s.pipe, MainExit, th);
    if Ref(s.Pc(u)).Some? { CountAppend(s.pipe, Free(Ref(s.Pc(u)).value), th); }
  }

  /** A step of a thread with no business with th: at most th itself terminates. */
  lemma OtherFits(s: State, c: map<Tid, Claim>, u: Tid, call: Call, th: Tid)
    requires Enabled(s, Go(u, call)) && Fits(s, Of(c, th), th)
    requires Ref(s.Pc(u)) != Some(th) && ClaimedBy(s, Go(u, call)) != Some(th)
    requires SpinOk(s, u) && (Of(c, th).By? ==> SpinOk(s, Of(c, th).t))
    ensures Fits(Step(s, Go(u, call)), Of(c, th), th)
  {
    GoDesc(s, u, call, th);
  }

  lemma OtherRecords(s: State, c: map<Tid, Claim>, u: Tid, call: Call, th: Tid)
    requires Ref(s.Pc(u)) != Some(th) && ClaimedBy(s, Go(u, call)) != Some(th)
    ensures Of(GoRecords(s, c, u, call), th) == Of(c, th)
  {
  }

  predicate Detaching(p: Pc) { p.DetachAcq? || p.DetachBody? || p.DetachRel? || p.DetachSend? }

  /** A step of the claimant. */
  lemma DetacherFits(s: State, c: map<Tid, Claim>, u: Tid, call: Call, th: Tid)
    requires Enabled(s, Go(u, call)) && Of(c, th).By? && Of(c, th).t == u && Fits(s, Of(c, th), th)
    requires ProcOk(s, th) && Detaching(s.Pc(u))
    ensures Fits(Step(s, Go(u, call)), Of(GoRecords(s, c, u, call), th), th)
  {
    GoDesc(s, u, call, th);
  }

  lemma JoinerFits(s: State, c: map<Tid, Claim>, u: Tid, call: Call, th: Tid)
    requires Enabled(s, Go(u, call)) && Of(c, th).By? && Of(c, th).t == u && Fits(s, Of(c, th), th)
    requires JoinerOk(s, u) && !Detaching(s.Pc(u))
    ensures Fits(Step(s, Go(u, call)), Of(GoRecords(s, c, u, call), th), th)
  {
    GoDesc(s, u, call, th);
  }

  lemma NewClaimFits(s: State, c: map<Tid, Claim>, u: Tid, call: Call, th: Tid)
    requires Ready(s, c, Go(u, call)) && ClaimedBy(s, Go(u, call)) == Some(th)
    ensures Fits(Step(s, Go(u, call)), Of(GoRecords(s, c, u, call), th), th)
  {
    assert HolderOk(s, c, u) && ClaimOk(s, c, th) && ProcOk(s, th) && SpinOk(s, u) && JoinerOk(s, u);
  }

  lemma GoFits(s: State, c: map<Tid, Claim>, u: Tid, call: Call, th: Tid)
    requires Ready(s, c, Go(u, call))
    ensures Fits(Step(s, Go(u, call)), Of(GoRecords(s, c, u, call), th), th)
  {
    assert HolderOk(s, c, u) && ClaimOk(s, c, th) && ProcOk(s, th) && SpinOk(s, u) && JoinerOk(s, u);
    if ClaimedBy(s, Go(u, call)) == Some(th) {
      NewClaimFits(s, c, u, call, th);
    } else if Ref(s.Pc(u)) == Some(th) {
      if Detaching(s.Pc(u)) { DetacherFits(s, c, u, call, th); } else { JoinerFits(s, c, u, call, th); }
    } else {
      assert Of(c, th).By? ==> SpinOk(s, Of(c, th).t);
      OtherFits(s, c, u, call, th);
      OtherRecords(s, c, u, call, th);
    }
  }

  lemma OwnFrees(s: State, c: map<Tid, Claim>, u: Tid, call: Call, th: Tid)
    requires Enabled(s, Go(u, call)) && Of(c, th).By? && Of(c, th).t == u && Fits(s, Of(c, th), th) && FreesOk(s, c, th)
    requires SpinOk(s, u) && SpinOk(s, th) && ProcOk(s, th)
    ensures FreesOk(Step(s, Go(u, call)), GoRecords(s, c, u, call), th)
  {
    GoDesc(s, u, call, th);
  }

  lemma GoFrees(s: State, c: map<Tid, Claim>, u: Tid, call: Call, th: Tid)
    requires Ready(s, c, Go(u, call))
    ensures FreesOk(Step(s, Go(u, call)), GoRecords(s, c, u, call), th)
  {
    assert HolderOk(s, c, u) && ClaimOk(s, c, th) && FreesOk(s, c, th) && ProcOk(s, th) && SpinOk(s, u)
      && SpinOk(s, th);
    if Ref(s.Pc(u)) == Some(th) {
      OwnFrees(s, c, u, call, th);
    } else {
      GoDesc(s, u, call, th);
      if ClaimedBy(s, Go(u, call)) != Some(th) { OtherRecords(s, c, u, call, th); }
    }
  }

  lemma MgrHolders(s: State, c: map<Tid, Claim>, child: Tid, ok: bool, t: Tid)
    requires Enabled(s, Manage(child, ok)) && HolderOk(s, c, t) && ProcOk(s, t) && ProcOk(s, child)
    requires s.mgr.FreeBody? ==> ClaimOk(s, c, s.mgr.th)
    ensures HolderOk(Step(s, Manage(child, ok)), MgrRecords(s, c, child, ok), t)
  {
  }

  lemma MgrCounts(s: State, c: map<Tid, Claim>, child: Tid, ok: bool, th: Tid)
    requires Enabled(s, Manage(child, ok)) && ClaimOk(s, c, th)
    ensures var s', k := Step(s, Manage(child, ok)), Of(MgrRecords(s, c, child, ok), th);
      Count(s'.pipe, th) + Served(s'.mgr, th) == (if k.Asked? then 1 else 0)
  {
  }

  /** What the manager may do to a descriptor. */
  lemma MgrDesc(s: State, child: Tid, ok: bool, th: Tid)
    requires Enabled(s, Manage(child, ok)) && !(s.mgr.MkClone? && ok && child == th)
    ensures var d, d' := s.D(th), Step(s, Manage(child, ok)).D(th);
      && d'.exited == (d.exited || s.mgr == ReapBody(th))
      && d'.terminated == d.terminated && d'.joining == d.joining
      && d'.detached == (d.detached || (s.mgr == FreeBody(th) && !d.exited))
  {
    StoredAt(s, MgrWrites(s, child, ok), th);
  }

  lemma MgrFits(s: State, c: map<Tid, Claim>, child: Tid, ok: bool, th: Tid)
    requires Enabled(s, Manage(child, ok)) && ClaimOk(s, c, th)
    requires Of(c, th).By? ==> ProcOk(s, Of(c, th).t)
    ensures Fits(Step(s, Manage(child, ok)), Of(MgrRecords(s, c, child, ok), th), th)
  {
    if !(s.mgr.MkClone? && ok && child == th) { MgrDesc(s, child, ok, th); }
  }

  /** The manager works on th, ... */
  lemma ReapFrees(s: State, c: map<Tid, Claim>, child: Tid, ok: bool, th: Tid)
    requires Enabled(s, Manage(child, ok)) && ClaimOk(s, c, th) && FreesOk(s, c, th) && ProcOk(s, th) && SpinOk(s, th)
    requires MgrOk(s) && (Of(c, th).By? ==> SpinOk(s, Of(c, th).t)) && (Deciding(s.mgr, th) || s.mgr == ReapBody(th))
    ensures FreesOk(Step(s, Manage(child, ok)), MgrRecords(s, c, child, ok), th)
  {
    if s.mgr == ReapBody(th) { MarkFrees(s, c, child, ok, th); } else { MgrDesc(s, child, ok, th); }
  }

  lemma MarkFrees(s: State, c: map<Tid, Claim>, child: Tid, ok: bool, th: Tid)
    requires ClaimOk(s, c, th) && FreesOk(s, c, th) && ProcOk(s, th) && SpinOk(s, th)
    requires (Of(c, th).By? ==> SpinOk(s, Of(c, th).t)) && s.mgr == ReapBody(th)
    ensures FreesOk(Step(s, Manage(child, ok)), MgrRecords(s, c, child, ok), th)
  {
    MgrDesc(s, child, ok, th);
  }

  lemma ServedFrees(s: State, c: map<Tid, Claim>, child: Tid, ok: bool, th: Tid)
    requires ClaimOk(s, c, th) && FreesOk(s, c, th) && ProcOk(s, th) && s.mgr == FreeBody(th)
    ensures FreesOk(Step(s, Manage(child, ok)), MgrRecords(s, c, child, ok), th)
  {
    MgrDesc(s, child, ok, th);
  }

  /** ... or on something else. */
  lemma UnservedMgr(s: State, child: Tid, ok: bool, th: Tid)
    requires Enabled(s, Manage(child, ok))
    requires !(Deciding(s.mgr, th) || s.mgr == ReapBody(th) || s.mgr == FreeBody(th))
    ensures var s' := Step(s, Manage(child, ok));
      s'.Frees(th) == s.Frees(th) && !Deciding(s'.mgr, th) && s'.mgr != FreeRel(th)
  {
  }

  lemma UnservedFrees(s: State, c: map<Tid, Claim>, child: Tid, ok: bool, th: Tid)
    requires Enabled(s, Manage(child, ok)) && FreesOk(s, c, th) && (s.Proc(th) == Absent ==> th !in s.frees)
    requires !(Deciding(s.mgr, th) || s.mgr == ReapBody(th) || s.mgr == FreeBody(th))
    ensures FreesOk(Step(s, Manage(child, ok)), MgrRecords(s, c, child, ok), th)
  {
    UnservedMgr(s, child, ok, th);
    if s.mgr.MkClone? && ok && child == th {
      assert Step(s, Manage(child, ok)).D(th) == Fresh(s.mgr.det);
    } else {
      MgrDesc(s, child, ok, th);
    }
  }

  lemma GoPresent(s: State, c: map<Tid, Claim>, u: Tid, call: Call, th: Tid)
    requires Ready(s, c, Go(u, call))
    ensures Step(s, Go(u, call)).Proc(th) == Absent ==> Of(GoRecords(s, c, u, call), th) == Nobody
  {
    assert ClaimOk(s, c, th) && ProcOk(s, u);
  }

  lemma MgrClaims(s: State, c: map<Tid, Claim>, child: Tid, ok: bool, th: Tid)
    requires Ready(s, c, Manage(child, ok))
    ensures ClaimOk(Step(s, Manage(child, ok)), MgrRecords(s, c, child, ok), th)
  {
    assert ClaimOk(s, c, th) && ProcOk(s, th);
    assert Of(c, th).By? ==> ProcOk(s, Of(c, th).t);
    MgrFits(s, c, child, ok, th);
    MgrCounts(s, c, child, ok, th);
    assert MgrOk(s);
  }

  lemma GoKeepsBooks(s: State, c: map<Tid, Claim>, u: Tid, call: Call)
    requires Ready(s, c, Go(u, call))
    ensures Books(Step(s, Go(u, call)), GoRecords(s, c, u, call))
  {
    var s', c' := Step(s, Go(u, call)), GoRecords(s, c, u, call);
    forall t ensures HolderOk(s', c', t) {
      assert HolderOk(s, c, t) && HolderOk(s, c, u);
      GoHolders(s, c, u, call, t);
    }
    forall th ensures ClaimOk(s', c', th) {
      GoFits(s, c, u, call, th);
      assert ClaimOk(s, c, th) && HolderOk(s, c, u);
      GoCounts(s, c, u, call, th);
      GoPresent(s, c, u, call, th);
    }
    forall th ensures FreesOk(s', c', th) { GoFrees(s, c, u, call, th); }
  }

  lemma MgrKeepsBooks(s: State, c: map<Tid, Claim>, child: Tid, ok: bool)
    requires Ready(s, c, Manage(child, ok))
    ensures Books(Step(s, Manage(child, ok)), MgrRecords(s, c, child, ok))
  {
    var s', c' := Step(s, Manage(child, ok)), MgrRecords(s, c, child, ok);
    forall t ensures HolderOk(s', c', t) {
      assert HolderOk(s, c, t) && ProcOk(s, t) && ProcOk(s, child);
      if s.mgr.FreeBody? { assert ClaimOk(s, c, s.mgr.th); }
      MgrHolders(s, c, child, ok, t);
    }
    forall th ensures ClaimOk(s', c', th) { MgrClaims(s, c, child, ok, th); }
    forall th ensures FreesOk(s', c', th) {
      assert ClaimOk(s, c, th) && FreesOk(s, c, th) && ProcOk(s, th) && SpinOk(s, th);
      if s.mgr == FreeBody(th) {
        ServedFrees(s, c, child, ok, th);
      } else if Deciding(s.mgr, th) || s.mgr == ReapBody(th) {
        assert Of(c, th).By? ==> SpinOk(s, Of(c, th).t);
        ReapFrees(s, c, child, ok, th);
      } else {
        UnservedFrees(s, c, child, ok, th);
      }
    }
  }

  lemma StepKeepsBooks(s: State, c: map<Tid, Claim>, mv: Move)
    requires Ready(s, c, mv)
    ensures Books(Step(s, mv), Records(s, c, mv))
  {
    match mv
    case Go(u, call) => GoKeepsBooks(s, c, u, call);
    case Manage(child, ok) => MgrKeepsBooks(s, c, child, ok);
    case Deliver =>
      forall t ensures HolderOk(Step(s, mv), c, t) { assert HolderOk(s, c, t); }
      forall th ensures ClaimOk(Step(s, mv), c, th) { assert ClaimOk(s, c, th); }
      forall th ensures FreesOk(Step(s, mv), c, th) { assert FreesOk(s, c, th); }
  }

  lemma {:induction false} RunKeepsBooks(ms: seq<Move>)
    requires Legal(INITIAL, ms) && ClaimedOnce(ms)
    ensures Inv(Exec(INITIAL, ms)) && Books(Exec(INITIAL, ms), Claims(ms))
    decreases |ms|
  {
    RunKeepsInv(ms);
    if ms == [] {
      forall th ensures ClaimOk(INITIAL, map[], th) && FreesOk(INITIAL, map[], th) && HolderOk(INITIAL, map[], th) { }
    } else {
      var ms' := ms[..|ms|-1];
      RunKeepsBooks(ms');
      StepKeepsBooks(Exec(INITIAL, ms'), Claims(ms'), ms[|ms|-1]);
    }
  }

  lemma NoneLate(ms: seq<Move>, th: Tid)
    requires InTime(ms)
    ensures !Late(Claims(ms), th)
    decreases |ms|
  {
    if ms != [] {
      var ms' := ms[..|ms|-1];
      NoneLate(ms', th);
      LateOnlyInWindow(Exec(INITIAL, ms'), Claims(ms'), ms[|ms|-1], th);
    }
  }

  lemma LateOnlyInWindow(s: State, c: map<Tid, Claim>, mv: Move, th: Tid)
    requires !Late(c, th) && !InWindow(s, mv)
    ensures !Late(Records(s, c, mv), th)
  {
  }

  /** The threads whose descriptors a move reads, writes or signals. */
  function GoTouches(s: State, t: Tid): set<Tid> {
    {t} + (if Ref(s.Pc(t)).Some? then {Ref(s.Pc(t)).value} else {})
        + (if s.Pc(t).ExitWake? && s.Pc(t).j.Some? then {s.Pc(t).j.value} else {})
  }

  function MgrTouches(s: State, child: Tid, ok: bool): set<Tid> {
    match s.mgr
    case Loop => {}
    case Serve => s.ring
    case Reap => s.ring
    case ReapLink(th) => s.ring + {th}
    case ReapAcq(th) => {th}
    case ReapBody(th) => {th}
    case ReapRel(th, _) => {th}
    case ReapFree(th) => {th}
    case ReapCheck => s.ring
    case MkClone(t, _) => if ok then {t, child} else {t}
    case MkLink(t, kid) => s.ring + {t, kid}
    case MkReply(t, _) => {t}
    case MkWake(t) => {t}
    case FreeAcq(th) => {th}
    case FreeBody(th) => {th}
    case FreeRel(th) => {th}
    case Gone => {}
  }

  function Touches(s: State, mv: Move): set<Tid> {
    match mv
    case Go(t, _) => GoTouches(s, t)
    case Manage(child, ok) => MgrTouches(s, child, ok)
    case Deliver => {}
  }

  /** That is all it touches: it leaves any other descriptor, its count of frees and its
      pending restart alone, ... */
  lemma TouchesNoMore(s: State, mv: Move, x: Tid)
    requires Enabled(s, mv) && x !in Touches(s, mv)
    ensures var s' := Step(s, mv);
      s'.D(x) == s.D(x) && s'.Frees(x) == s.Frees(x) && (x in s'.pending <==> x in s.pending)
  {
  }

  /** ... and it would do and report the same whatever that descriptor contained. */
  lemma DependsOnNoMore(s: State, mv: Move, x: Tid, d: Desc)
    requires Enabled(s, mv) && x !in Touches(s, mv)
    ensures Enabled(s.Set(x, d), mv) && EventOf(s.Set(x, d), mv) == EventOf(s, mv)
    ensures Step(s.Set(x, d), mv) == Step(s, mv).Set(x, d)
  {
    match mv
    case Go(t, call) => ThreadDependsOnNoMore(s, t, call, x, d);
    case Manage(child, ok) => ManagerDependsOnNoMore(s, child, ok, x, d);
    case Deliver =>
  }

  lemma ThreadDependsOnNoMore(s: State, t: Tid, call: Call, x: Tid, d: Desc)
    requires Enabled(s, Go(t, call)) && x !in GoTouches(s, t)
    ensures Enabled(s.Set(x, d), Go(t, call)) && EventOf(s.Set(x, d), Go(t, call)) == EventOf(s, Go(t, call))
    ensures Step(s.Set(x, d), Go(t, call)) == Step(s, Go(t, call)).Set(x, d)
  {
    SameThreadStep(s, s.Set(x, d), t, call, x);
    StoresCommute(s, Writes(s, t), x, d);
  }

  lemma ManagerDependsOnNoMore(s: State, child: Tid, ok: bool, x: Tid, d: Desc)
    requires Enabled(s, Manage(child, ok)) && x !in MgrTouches(s, child, ok)
    ensures Enabled(s.Set(x, d), Manage(child, ok))
    ensures EventOf(s.Set(x, d), Manage(child, ok)) == EventOf(s, Manage(child, ok))
    ensures Step(s.Set(x, d), Manage(child, ok)) == Step(s, Manage(child, ok)).Set(x, d)
  {
    SameManagerStep(s, s.Set(x, d), child, ok, x);
    SameManagerEffects(s, s.Set(x, d), child, ok, x);
    StoresCommute(s, MgrWrites(s, child, ok), x, d);
  }

  lemma StoresCommute(s: State, w: Option<Write>, x: Tid, d: Desc)
    requires w.Some? ==> w.value.x != x
    ensures Stored(s.Set(x, d), w) == Stored(s, w)[x := d]
  {
  }

  lemma SameThreadStep(s: State, s2: State, t: Tid, call: Call, x: Tid)
    requires Enabled(s, Go(t, call)) && x !in GoTouches(s, t)
    requires s2 == s.(desc := s2.desc) && forall y: Tid | y != x :: s2.D(y) == s.D(y)
    ensures Enabled(s2, Go(t, call)) && EventOf(s2, Go(t, call)) == EventOf(s, Go(t, call))
    ensures Writes(s, t).Some? ==> Writes(s, t).value.x != x
    ensures Target(s2, t, call) == Target(s, t, call) && Writes(s2, t) == Writes(s, t)
    ensures Signals(s2, t) == Signals(s, t) && Requests(s2, t, call) == Requests(s, t, call)
  {
  }

  lemma SameManagerStep(s: State, s2: State, child: Tid, ok: bool, x: Tid)
    requires Enabled(s, Manage(child, ok)) && x !in MgrTouches(s, child, ok)
    requires s2 == s.(desc := s2.desc) && forall y: Tid | y != x :: s2.D(y) == s.D(y)
    ensures Enabled(s2, Manage(child, ok)) && EventOf(s2, Manage(child, ok)) == EventOf(s, Manage(child, ok))
    ensures MgrWrites(s, child, ok).Some? ==> MgrWrites(s, child, ok).value.x != x
    ensures MgrTarget(s2, child, ok) == MgrTarget(s, child, ok) && MgrWrites(s2, child, ok) == MgrWrites(s, child, ok)
  {
  }

  lemma SameManagerEffects(s: State, s2: State, child: Tid, ok: bool, x: Tid)
    requires x !in MgrTouches(s, child, ok)
    requires s2 == s.(desc := s2.desc) && forall y: Tid | y != x :: s2.D(y) == s.D(y)
    ensures MgrSignals(s2, ok) == MgrSignals(s, ok) && MgrRing(s2) == MgrRing(s) && MgrFrees(s2) == MgrFrees(s)
  {
  }

  lemma GoSpares(s: State, c: map<Tid, Claim>, u: Tid, call: Call, th: Tid)
    requires Inv(s) && Books(s, c) && Enabled(s, Go(u, call)) && !Late(c, th) && s.Frees(th) >= 1
    ensures th !in GoTouches(s, u)
  {
    assert ProcOk(s, th) && ProcOk(s, u) && HolderOk(s, c, u) && FreesOk(s, c, th) && TargetOk(s, u);
  }

  lemma MgrSpares(s: State, c: map<Tid, Claim>, child: Tid, ok: bool, th: Tid)
    requires Inv(s) && Books(s, c) && Enabled(s, Manage(child, ok)) && !Late(c, th) && s.Frees(th) >= 1
    ensures th !in MgrTouches(s, child, ok)
  {
    assert ProcOk(s, th) && ClaimOk(s, c, th) && FreesOk(s, c, th) && RingOk(s, th) && CreatorOk(s, th);
  }

  /** Reclamation. When every thread is claimed once and no detach falls into the
      window, a segment is freed at most once, after its process was reaped, and from
      then on no step of any thread or of the manager touches that descriptor. */
  lemma {:induction false} Reclamation(ms: seq<Move>, th: Tid)
    requires Legal(INITIAL, ms) && ClaimedOnce(ms) && InTime(ms)
    ensures var s := Exec(INITIAL, ms);
      && s.Frees(th) <= 1
      && (s.Frees(th) == 1 ==> s.Proc(th) == Reaped && s.D(th).exited)
      && (s.Frees(th) == 1 ==> forall mv | Enabled(s, mv) :: th !in Touches(s, mv))
  {
    var s, c := Exec(INITIAL, ms), Claims(ms);
    RunKeepsBooks(ms);
    NoneLate(ms, th);
    assert FreesOk(s, c, th) && ProcOk(s, th);
    if s.Frees(th) == 1 {
      forall mv | Enabled(s, mv) ensures th !in Touches(s, mv) {
        if mv.Go? { GoSpares(s, c, mv.t, mv.call, th); }
        if mv.Manage? { MgrSpares(s, c, mv.child, mv.ok, th); }
      }
    }
  }

  /** Nothing leaks: once the process of a claimed thread is reaped, the call about it
      is over and the manager is idle with no request for it, its segment is free. */
  lemma {:induction false} NothingLeaks(ms: seq<Move>, th: Tid)
    requires Legal(INITIAL, ms) && ClaimedOnce(ms) && Of(Claims(ms), th) != Nobody
    requires var s := Exec(INITIAL, ms);
      s.Proc(th) == Reaped && s.mgr == Loop && Free(th) !in s.pipe && forall t :: Ref(s.Pc(t)) != Some(th)
    ensures Exec(INITIAL, ms).Frees(th) >= 1
  {
    var s, c := Exec(INITIAL, ms), Claims(ms);
    RunKeepsBooks(ms);
    assert ClaimOk(s, c, th) && FreesOk(s, c, th) && ProcOk(s, th);
    CountZero(s.pipe, th);
  }

  lemma {:induction false} CountZero(pipe: seq<Request>, th: Tid)
    ensures Count(pipe, th) == 0 <==> Free(th) !in pipe
  {
    if pipe != [] { CountZero(pipe[1..], th); assert pipe == [pipe[0]] + pipe[1..]; }
  }

  /** Exactly when a segment is freed a second time: the manager serves, after the
      mark p_exited, the request of a detach that had come before that mark. */
  lemma {:induction false} SecondFree(ms: seq<Move>, mv: Move, th: Tid)
    requires Legal(INITIAL, ms) && ClaimedOnce(ms) && Enabled(Exec(INITIAL, ms), mv)
    ensures var s := Exec(INITIAL, ms);
      && s.Frees(th) <= 2 && (s.Frees(th) == 2 ==> Late(Claims(ms), th))
      && (s.Frees(th) >= 1 && Step(s, mv).Frees(th) > s.Frees(th) <==>
            mv.Manage? && s.mgr == FreeBody(th) && s.D(th).exited && Late(Claims(ms), th))
  {
    var s, c := Exec(INITIAL, ms), Claims(ms);
    RunKeepsBooks(ms);
    assert ClaimOk(s, c, th) && FreesOk(s, c, th) && ProcOk(s, th);
    FreesGrow(s, mv, th);
    SecondFreeAt(s, c, th);
  }

  lemma FreesGrow(s: State, mv: Move, th: Tid)
    requires Enabled(s, mv)
    ensures Step(s, mv).Frees(th) > s.Frees(th) <==>
      th != MAIN && mv.Manage? && (s.mgr == ReapFree(th) || (s.mgr == FreeBody(th) && s.D(th).exited))
  {
  }

  lemma SecondFreeAt(s: State, c: map<Tid, Claim>, th: Tid)
    requires ClaimOk(s, c, th) && FreesOk(s, c, th) && ProcOk(s, th)
    ensures s.Frees(th) <= 2 && (s.Frees(th) == 2 ==> Late(c, th))
    ensures s.Frees(th) >= 1 ==> th != MAIN && s.mgr != ReapFree(th)
    ensures s.mgr == FreeBody(th) && s.D(th).exited && th != MAIN ==> (s.Frees(th) >= 1 <==> Late(c, th))
    ensures s.D(th).exited ==> th != MAIN
  {
  }
}
