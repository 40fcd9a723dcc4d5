/**
  What every run of the approve and execute requests keeps.

  The invariant speaks about one plan or one request at a time, so that a step of one request
  on one plan needs a proof only there (lemma FocusKeeps).  It holds of the code as written and
  of the handler that returns after a failed BeginExecution.  What it says of the calls and the
  audit rows of a plan holds until a request goes on with this plan after failing to begin it.
*/
module ExecInvariant {
  import opened Basics
  import opened ExecStore
  import opened ExecProtocol

  ghost predicate InLoop(pc: Pc) {
    pc.Loop? || pc.Act? || pc.Record? || pc.Undo? || pc.Mark? || pc.Finish?
  }

  ghost predicate HasSnapshot(pc: Pc) {
    pc.TakeWindow? || pc.CountStarts? || pc.TryBegin? || pc.BeginMissed?
  }

  // ---- the audit table and the calls of one plan -----------------------------------------

  /** One audit row per action, numbered 1..n. */
  ghost predicate Seeded(rows: seq<AuditRow>, actions: seq<Action>) {
    && |rows| == |actions|
    && forall i :: 0 <= i < |rows| ==> rows[i].seqNo == i + 1 && rows[i].action == actions[i]
  }

  /** r ran actions 0, 1, ... in order: c of them succeeded, then, if `failed`, one failed. */
  ghost predicate RunsInOrder(t: Trail, r: ReqId, c: nat, failed: bool) {
    && |t.runs| == (if failed then c + 1 else c)
    && forall i :: 0 <= i < |t.runs| ==>
         t.runs[i].req == r && t.runs[i].index == i && (t.runs[i].out.ok <==> i < c)
  }

  /** With a driver, the same executor was called once more before each run, to capture the pre-state. */
  ghost predicate CapturesInOrder(cfg: Config, t: Trail, r: ReqId, n: nat) {
    && |t.captures| == (if cfg.hasDriver then n else 0)
    && forall i :: 0 <= i < |t.captures| ==> t.captures[i] == Capture(r, i)
  }

  /** The rollbacks of actions c-1, c-2, ..., n of them so far. */
  ghost predicate UndosInReverse(t: Trail, r: ReqId, c: nat, n: nat) {
    && |t.undos| == n <= c
    && forall k :: 0 <= k < n ==> t.undos[k].req == r && t.undos[k].index == c - 1 - k
  }

  ghost predicate Undone(t: Trail, c: nat, i: nat) {
    i < c && c - 1 - i < |t.undos| && t.undos[c - 1 - i].ok
  }

  ghost predicate AllUndone(t: Trail, c: nat) {
    forall i :: 0 <= i < c ==> Undone(t, c, i)
  }

  ghost predicate RowOf(row: AuditRow, status: RowStatus, out: Outcome) {
    row.status == status && row.postState == NonEmpty(out.post) && row.error == NonEmpty(out.err)
  }

  /** Row i as the record of the runs: c completed, then a failed one, then pending ones. */
  ghost predicate RowRecords(row: AuditRow, i: nat, t: Trail, c: nat, failed: bool, marked: bool)
    requires |t.runs| >= (if failed then c + 1 else c)
  {
    if i < c then RowOf(row, if marked && Undone(t, c, i) then RolledBackRow else SuccessRow, t.runs[i].out)
    else if i == c && failed then RowOf(row, FailedRow, t.runs[i].out)
    else row.status == PendingRow
  }

  /** The rows are the record of the runs, but for those of which a write was lost. */
  ghost predicate RowsRecord(rows: seq<AuditRow>, t: Trail, c: nat, failed: bool, marked: bool, lost: seq<nat>)
    requires |t.runs| >= (if failed then c + 1 else c)
  {
    forall i :: 0 <= i < |rows| && i + 1 !in lost ==> RowRecords(rows[i], i, t, c, failed, marked)
  }

  /** Everything is recorded and undone; only FinishExecution is left, with this status. */
  ghost predicate Settled(cfg: Config, actions: seq<Action>, rows: seq<AuditRow>, t: Trail, lost: Losses,
                    r: ReqId, c: nat, final: Status) {
    if final == Completed then
      && c == |actions|
      && CapturesInOrder(cfg, t, r, c) && RunsInOrder(t, r, c, false) && t.undos == []
      && RowsRecord(rows, t, c, false, false, lost.rows)
    else
      && (final == Failed || final == RolledBack)
      && c < |actions|
      && CapturesInOrder(cfg, t, r, c + 1) && RunsInOrder(t, r, c, true)
      && UndosInReverse(t, r, c, if cfg.canUndo then c else 0)
      && RowsRecord(rows, t, c, true, cfg.hasMarker, lost.rows)
      && (final == RolledBack <==> cfg.canUndo && c > 0 && AllUndone(t, c) && !lost.mark)
  }

  /** rolled and errs are what the rollback loop has seen so far. */
  ghost predicate RollbackLocals(t: Trail, c: nat, next: nat, rolled: seq<nat>, errs: nat) {
    && (forall x :: x in rolled ==> next < x <= c)
    && (forall i :: next <= i < c ==> (Undone(t, c, i) <==> i + 1 in rolled))
    && (errs == 0 <==> forall i :: next <= i < c ==> Undone(t, c, i))
  }

  /** The state of a plan that has been begun, given where its starter stands. */
  ghost predicate OwnerOk(cfg: Config, plan: Plan, rows: seq<AuditRow>, t: Trail, lost: Losses, r: ReqId, pc: Pc) {
    match pc
    case Loop(p) =>
      && plan.status == Running && p.completed <= |plan.actions|
      && |p.pres| == p.completed
      && CapturesInOrder(cfg, t, r, p.completed) && RunsInOrder(t, r, p.completed, false) && t.undos == []
      && RowsRecord(rows, t, p.completed, false, false, lost.rows) && !lost.mark
    case Act(p) =>
      && plan.status == Running && p.completed < |plan.actions|
      && |p.pres| == p.completed + 1
      && CapturesInOrder(cfg, t, r, p.completed + 1) && RunsInOrder(t, r, p.completed, false) && t.undos == []
      && RowsRecord(rows, t, p.completed, false, false, lost.rows) && !lost.mark
    case Record(p, out) =>
      && plan.status == Running && p.completed < |plan.actions|
      && |p.pres| == p.completed + 1
      && CapturesInOrder(cfg, t, r, p.completed + 1)
      && RunsInOrder(t, r, if out.ok then p.completed + 1 else p.completed, !out.ok)
      && t.undos == [] && t.runs[p.completed].out == out
      && RowsRecord(rows, t, p.completed, false, false, lost.rows) && !lost.mark
    case Undo(p, next, rolled, errs) =>
      && plan.status == Running && 0 < p.completed < |plan.actions| && next <= p.completed && cfg.canUndo
      && |p.pres| == p.completed + 1
      && CapturesInOrder(cfg, t, r, p.completed + 1) && RunsInOrder(t, r, p.completed, true)
      && UndosInReverse(t, r, p.completed, p.completed - next)
      && RollbackLocals(t, p.completed, next, rolled, errs)
      && RowsRecord(rows, t, p.completed, true, false, lost.rows) && !lost.mark
    case Mark(p, rolled, errs) =>
      && plan.status == Running && 0 < p.completed < |plan.actions| && cfg.canUndo
      && CapturesInOrder(cfg, t, r, p.completed + 1) && RunsInOrder(t, r, p.completed, true)
      && UndosInReverse(t, r, p.completed, p.completed)
      && RollbackLocals(t, p.completed, 0, rolled, errs)
      && RowsRecord(rows, t, p.completed, true, false, lost.rows) && !lost.mark
    case Finish(p, final, _) =>
      plan.status == Running && Settled(cfg, plan.actions, rows, t, lost, r, p.completed, final)
    case Done(Finished(final, completed, _)) =>
      && plan.status == final && plan.actionsCompleted == completed
      && Settled(cfg, plan.actions, rows, t, lost, r, completed, final)
    case Done(Refused(_)) =>
      && plan.status == Running
      && exists c: nat, final :: Settled(cfg, plan.actions, rows, t, lost, r, c, final)
    case _ => false
  }

  // ---- the invariant ---------------------------------------------------------------------

  /** Everything that is stored or remembered under one plan id. */
  datatype Cell = Cell(
    plan: Option<Plan>, rows: Option<seq<AuditRow>>, starter: Option<ReqId>, winner: Option<ReqId>,
    trail: Option<Trail>, lost: Losses, strayed: bool)

  ghost function At<V>(m: map<nat, V>, k: nat): (r: Option<V>) {
    if k in m then Some(m[k]) else None
  }

  ghost function CellOf(s: Sys, id: PlanId): (r: Cell) {
    Cell(At(s.db.plans, id), At(s.db.audit, id), At(s.starter, id), At(s.winner, id), At(s.trail, id), LostOf(s, id),
         id in s.strayed)
  }

  ghost function OrNil<T>(o: Option<seq<T>>): (r: seq<T>) {
    if o.Some? then o.value else []
  }

  ghost function OrNoTrail(o: Option<Trail>): (r: Trail) {
    if o.Some? then o.value else NO_TRAIL
  }

  /** What holds of the cell under id; `owner` is the request that began the plan. */
  ghost predicate CellOk(cfg: Config, id: PlanId, c: Cell, owner: Option<Req>, now: Time, lastId: PlanId) {
    if c.plan.None? then
      c == Cell(None, None, None, None, None, NO_LOSSES, false)
    else
      && 0 < id <= lastId
      && LifeOk(c.plan.value, c, now)
      && (c.starter.Some? ==> owner.Some? && owner.value.id == id && owner.value.began)
      && (!c.strayed ==> OwnCell(cfg, c.plan.value, c, owner))
  }

  ghost predicate LifeOk(p: Plan, c: Cell, now: Time) {
    && (p.startedAt.Some? <==> c.starter.Some?)
    && (p.status != Planned <==> c.winner.Some?)
    && (p.status == Planned || p.status == Approved ==> p.startedAt.None?)
    && p.status != Rejected
    && (p.startedAt.Some? ==> p.startedAt.value <= now && c.rows.Some? && Seeded(c.rows.value, p.actions))
    && (p.startedAt.None? ==> c.rows.None?)
  }

  ghost predicate OwnCell(cfg: Config, p: Plan, c: Cell, owner: Option<Req>) {
    if c.starter.Some? then
      owner.Some? && OwnerOk(cfg, p, OrNil(c.rows), OrNoTrail(c.trail), c.lost, c.starter.value, owner.value.pc)
    else
      (p.status == Planned || p.status == Approved) && c.trail.None? && c.lost == NO_LOSSES
  }

  /** What holds of request r; `c` is the cell of its plan. */
  ghost predicate ReqFacts(cfg: Config, r: ReqId, q: Req, c: Cell, now: Time) {
    && (q.began <==> c.starter == Some(r))
    && (HasSnapshot(q.pc) || InLoop(q.pc) ==> c.plan.Some? && c.plan.value.status != Planned)
    && (HasSnapshot(q.pc) ==>
          !q.began && q.pc.plan.account == c.plan.value.account && q.pc.plan.actions == c.plan.value.actions)
    && (q.pc.CountStarts? || q.pc.TryBegin? ==> q.pc.since <= now - HOUR)
    && (q.pc.ReadPlan? ==> !q.began)
    && (InLoop(q.pc) ==> q.pc.p.actions == c.plan.value.actions && q.pc.p.completed <= |q.pc.p.actions|)
    && (q.pc.Act? || q.pc.Record? ==> q.pc.p.completed < |q.pc.p.actions|)
    && (q.pc.Finish? ==> HasStarted(q.pc.final) && q.pc.final != Running)
    && (q.sent.Some? ==> c.strayed && !q.began && (InLoop(q.pc) || q.pc.Done?))
    && (InLoop(q.pc) && q.sent.None? ==> q.began)
    && (q.pc.ReadPlan? || HasSnapshot(q.pc) ==> q.sent.None?)
  }

  ghost function OwnerReq(s: Sys, id: PlanId): (r: Option<Req>) {
    if id in s.starter then At(s.reqs, s.starter[id]) else None
  }

  ghost predicate PlanOk(cfg: Config, s: Sys, id: PlanId) {
    CellOk(cfg, id, CellOf(s, id), OwnerReq(s, id), s.now, s.db.lastId)
  }

  ghost predicate ReqOk(cfg: Config, s: Sys, r: ReqId) {
    r in s.reqs ==> ReqFacts(cfg, r, s.reqs[r], CellOf(s, s.reqs[r].id), s.now)
  }

  /** An approve request has won exactly when it is its plan's winner. */
  ghost predicate ApprovalOk(s: Sys, a: ReqId) {
    a in s.approvals ==>
      (s.approvals[a].pc == Answered(Won) <==> At(s.winner, s.approvals[a].id) == Some(a))
  }

  /** A plan's winner is an approve request for that plan. */
  ghost predicate WinnerOk(s: Sys, id: PlanId) {
    id in s.winner ==> s.winner[id] in s.approvals && s.approvals[s.winner[id]].id == id
  }

  ghost predicate Inv(cfg: Config, s: Sys) {
    && (forall id: PlanId {:trigger PlanOk(cfg, s, id)} :: PlanOk(cfg, s, id))
    && (forall r: ReqId {:trigger ReqOk(cfg, s, r)} :: ReqOk(cfg, s, r))
    && (forall a: ReqId {:trigger ApprovalOk(s, a)} :: ApprovalOk(s, a))
    && (forall id: PlanId {:trigger WinnerOk(s, id)} :: WinnerOk(s, id))
  }

  // ---- a step touches one request and the cell of its plan -------------------------------

  /** How a step of request r may change its plan's cell. */
  ghost predicate Evolves(c: Cell, c2: Cell, r: ReqId) {
    && c2.winner == c.winner
    && (c2.starter == c.starter || (c.starter.None? && c2.starter == Some(r)))
    && (c.strayed ==> c2.strayed)
    && (c.plan.Some? <==> c2.plan.Some?)
    && (c.plan.Some? ==>
          && c2.plan.value.account == c.plan.value.account
          && c2.plan.value.actions == c.plan.value.actions
          && (c2.plan.value.status == Planned <==> c.plan.value.status == Planned))
  }

  /** s2 differs from s only in request r and in the cell of its plan. */
  ghost predicate Focus(s: Sys, s2: Sys, r: ReqId) {
    && r in s.reqs && r in s2.reqs && s2.reqs[r].id == s.reqs[r].id
    && s2.now == s.now && s2.approvals == s.approvals && s2.winner == s.winner && s2.db.lastId == s.db.lastId
    && s2.reqs == s.reqs[r := s2.reqs[r]]
    && (forall i: PlanId {:trigger CellOf(s2, i)} :: i != s.reqs[r].id ==> CellOf(s2, i) == CellOf(s, i))
    && Evolves(CellOf(s, s.reqs[r].id), CellOf(s2, s.reqs[r].id), r)
  }

  lemma FocusKeeps(cfg: Config, s: Sys, s2: Sys, r: ReqId)
    requires Inv(cfg, s) && Focus(s, s2, r)
    requires ReqOk(cfg, s2, r)
    requires PlanOk(cfg, s2, s.reqs[r].id)
    ensures Inv(cfg, s2)
  {
    forall i: PlanId ensures PlanOk(cfg, s2, i) {
      if i != s.reqs[r].id { OtherPlan(cfg, s, s2, r, i); }
    }
    forall q: ReqId ensures ReqOk(cfg, s2, q) {
      if q != r { OtherReq(cfg, s, s2, r, q); }
    }
    forall a: ReqId ensures ApprovalOk(s2, a) { assert ApprovalOk(s, a); }
    forall i: PlanId ensures WinnerOk(s2, i) { assert WinnerOk(s, i); }
  }

  lemma OtherPlan(cfg: Config, s: Sys, s2: Sys, r: ReqId, i: PlanId)
    requires PlanOk(cfg, s, i) && Focus(s, s2, r) && i != s.reqs[r].id
    ensures PlanOk(cfg, s2, i)
  {
    assert CellOf(s2, i) == CellOf(s, i);
    assert At(s2.starter, i) == At(s.starter, i);
    assert OwnerReq(s2, i) == OwnerReq(s, i);
  }

  lemma OtherReq(cfg: Config, s: Sys, s2: Sys, r: ReqId, q: ReqId)
    requires ReqOk(cfg, s, q) && Focus(s, s2, r) && q != r
    ensures ReqOk(cfg, s2, q)
  {
    if q in s.reqs {
      var c, c2 := CellOf(s, s.reqs[q].id), CellOf(s2, s.reqs[q].id);
      assert s2.reqs[q] == s.reqs[q];
      assert Evolves(c, c2, r);
    }
  }

  // ---- steps that change the request alone -----------------------------------------------

  lemma GotoKeeps(cfg: Config, s: Sys, r: ReqId, pc: Pc)
    requires Inv(cfg, s) && r in s.reqs
    requires ReqFacts(cfg, r, s.reqs[r].(pc := pc), CellOf(s, s.reqs[r].id), s.now)
    requires s.reqs[r].began && s.reqs[r].id !in s.strayed ==>
      (var c := CellOf(s, s.reqs[r].id);
       c.plan.Some? ==> OwnerOk(cfg, c.plan.value, OrNil(c.rows), OrNoTrail(c.trail), c.lost, r, pc))
    ensures Inv(cfg, Goto(s, r, pc))
  {
    var s2 := Goto(s, r, pc);
    assert ReqOk(cfg, s, r) && PlanOk(cfg, s, s.reqs[r].id);
    GotoFocus(s, r, pc);
    GotoPlan(cfg, s, r, pc);
    FocusKeeps(cfg, s, s2, r);
  }

  lemma GotoFocus(s: Sys, r: ReqId, pc: Pc)
    requires r in s.reqs
    ensures Focus(s, Goto(s, r, pc), r) && CellOf(Goto(s, r, pc), s.reqs[r].id) == CellOf(s, s.reqs[r].id)
  {
  }

  lemma GotoPlan(cfg: Config, s: Sys, r: ReqId, pc: Pc)
    requires r in s.reqs && PlanOk(cfg, s, s.reqs[r].id)
    requires s.reqs[r].began <==> At(s.starter, s.reqs[r].id) == Some(r)
    requires s.reqs[r].began && s.reqs[r].id !in s.strayed ==>
      (var c := CellOf(s, s.reqs[r].id);
       c.plan.Some? ==> OwnerOk(cfg, c.plan.value, OrNil(c.rows), OrNoTrail(c.trail), c.lost, r, pc))
    ensures PlanOk(cfg, Goto(s, r, pc), s.reqs[r].id)
  {
    var s2, id := Goto(s, r, pc), s.reqs[r].id;
    assert CellOf(s2, id) == CellOf(s, id);
    if At(s.starter, id) == Some(r) {
      assert OwnerReq(s2, id) == Some(s2.reqs[r]);
    } else {
      assert OwnerReq(s2, id) == OwnerReq(s, id);
    }
  }

  /** Of a request that has not begun its plan, the plan asks nothing. */
  lemma UnbegunKeeps(cfg: Config, s: Sys, r: ReqId, pc: Pc)
    requires Inv(cfg, s) && r in s.reqs && !s.reqs[r].began
    requires ReqFacts(cfg, r, s.reqs[r].(pc := pc), CellOf(s, s.reqs[r].id), s.now)
    ensures Inv(cfg, Goto(s, r, pc))
  {
    GotoKeeps(cfg, s, r, pc);
  }

  /** An answer before the plan is begun. */
  lemma RefuseKeeps(cfg: Config, s: Sys, r: ReqId, code: nat)
    requires Inv(cfg, s) && r in s.reqs && (s.reqs[r].pc.ReadPlan? || HasSnapshot(s.reqs[r].pc))
    ensures Inv(cfg, Refuse(s, r, code))
  {
    assert ReqOk(cfg, s, r);
    UnbegunKeeps(cfg, s, r, Done(Refused(code)));
  }

  lemma ReadPlanKeeps(cfg: Config, s: Sys, r: ReqId, env: Env)
    requires Inv(cfg, s) && r in s.reqs && s.reqs[r].pc.ReadPlan?
    ensures Inv(cfg, DoReadPlan(s, r, env))
  {
    var id := s.reqs[r].id;
    if env.fault { RefuseKeeps(cfg, s, r, 500); }
    else if id !in s.db.plans { RefuseKeeps(cfg, s, r, 404); }
    else if !CanTransition(s.db.plans[id].status, Running) { RefuseKeeps(cfg, s, r, 409); }
    else {
      assert ReqOk(cfg, s, r) && PlanOk(cfg, s, id);
      UnbegunKeeps(cfg, s, r, TakeWindow(s.db.plans[id]));
    }
  }

  lemma WindowKeeps(cfg: Config, s: Sys, r: ReqId, env: Env)
    requires Inv(cfg, s) && r in s.reqs && s.reqs[r].pc.TakeWindow?
    ensures Inv(cfg, DoExecute(cfg, s, r, env))
  {
    assert ReqOk(cfg, s, r);
    UnbegunKeeps(cfg, s, r, CountStarts(s.reqs[r].pc.plan, s.now - HOUR));
  }

  lemma CountStartsKeeps(cfg: Config, s: Sys, r: ReqId, env: Env)
    requires Inv(cfg, s) && r in s.reqs && s.reqs[r].pc.CountStarts?
    ensures Inv(cfg, DoCount(cfg, s, r, env))
  {
    var pc := s.reqs[r].pc;
    if env.fault { RefuseKeeps(cfg, s, r, 500); }
    else if |StartedSince(s.db, pc.plan.account, pc.since)| >= cfg.limit { RefuseKeeps(cfg, s, r, 429); }
    else {
      assert ReqOk(cfg, s, r);
      UnbegunKeeps(cfg, s, r, TryBegin(pc.plan, pc.since));
    }
  }

  // ---- BeginExecution --------------------------------------------------------------------

  lemma SeedRowsSeeded(actions: seq<Action>)
    ensures Seeded(SeedRows(actions), actions)
    ensures RowsRecord(SeedRows(actions), NO_TRAIL, 0, false, false, [])
  {
  }

  lemma BeginKeeps(cfg: Config, s: Sys, r: ReqId, env: Env)
    requires Inv(cfg, s) && r in s.reqs && s.reqs[r].pc.TryBegin?
    ensures Inv(cfg, DoBegin(cfg, s, r, env))
  {
    var id, plan := s.reqs[r].id, s.reqs[r].pc.plan;
    var s2 := DoBegin(cfg, s, r, env);
    assert ReqOk(cfg, s, r) && PlanOk(cfg, s, id);
    if BeginGuard(s, id, env) {
      BegunKeeps(cfg, s, r, env);
    } else if env.fault {
      BeginErrorKeeps(cfg, s, r, 500);
    } else {
      GotoKeeps(cfg, s, r, s2.reqs[r].pc);
    }
  }

  /** After a failed begin: answered, or, as written, gone on with. */
  lemma BeginErrorKeeps(cfg: Config, s: Sys, r: ReqId, code: nat)
    requires Inv(cfg, s) && r in s.reqs && (s.reqs[r].pc.TryBegin? || s.reqs[r].pc.BeginMissed?)
    ensures Inv(cfg, AfterBeginError(cfg, s, r, s.reqs[r].pc.plan, code))
  {
    assert ReqOk(cfg, s, r);
    if cfg.earlyExit {
      GotoKeeps(cfg, s, r, Done(Refused(code)));
    } else {
      FallThroughKeeps(cfg, s, r, code);
    }
  }

  lemma FallThroughKeeps(cfg: Config, s: Sys, r: ReqId, code: nat)
    requires Inv(cfg, s) && r in s.reqs && (s.reqs[r].pc.TryBegin? || s.reqs[r].pc.BeginMissed?)
    ensures Inv(cfg, FallThrough(s, r, s.reqs[r].pc.plan, code))
  {
    var id := s.reqs[r].id;
    var s2 := FallThrough(s, r, s.reqs[r].pc.plan, code);
    assert ReqOk(cfg, s, r) && PlanOk(cfg, s, id);
    assert CellOf(s2, id) == CellOf(s, id).(strayed := true);
    assert PlanOk(cfg, s2, id);
    FocusKeeps(cfg, s, s2, r);
  }

  lemma BeginMissedKeeps(cfg: Config, s: Sys, r: ReqId, env: Env)
    requires Inv(cfg, s) && r in s.reqs && s.reqs[r].pc.BeginMissed?
    ensures Inv(cfg, DoBeginMissed(cfg, s, r, env))
  {
    var missing := ClassifyMiss(s.db, s.reqs[r].id) == NotFound;
    BeginErrorKeeps(cfg, s, r, if env.fault then 500 else if missing then 404 else 409);
  }

  lemma BegunCell(s: Sys, r: ReqId, env: Env, cfg: Config)
    requires r in s.reqs && s.reqs[r].pc.TryBegin? && BeginGuard(s, s.reqs[r].id, env) && s.reqs[r].id !in s.db.audit
    ensures var id, plan, s2 := s.reqs[r].id, s.reqs[r].pc.plan, DoBegin(cfg, s, r, env);
      && CellOf(s2, id) == CellOf(s, id).(
           plan := Some(s.db.plans[id].(status := Running, startedAt := Some(s.now), actionsTotal := |plan.actions|)),
           rows := Some(SeedRows(plan.actions)), starter := Some(r))
      && OwnerReq(s2, id) == Some(s2.reqs[r]) && s2.reqs[r].pc == Loop(Progress(plan.actions, 0, []))
          && s2.reqs[r].began
  {
    assert [] + SeedRows(s.reqs[r].pc.plan.actions) == SeedRows(s.reqs[r].pc.plan.actions);
  }

  lemma BegunPlan(cfg: Config, s: Sys, r: ReqId, env: Env)
    requires r in s.reqs && s.reqs[r].pc.TryBegin? && BeginGuard(s, s.reqs[r].id, env)
    requires ReqOk(cfg, s, r) && PlanOk(cfg, s, s.reqs[r].id)
    ensures PlanOk(cfg, DoBegin(cfg, s, r, env), s.reqs[r].id)
    ensures s.reqs[r].id !in s.db.audit && s.reqs[r].id !in s.starter
  {
    var id, plan := s.reqs[r].id, s.reqs[r].pc.plan;
    var s2 := DoBegin(cfg, s, r, env);
    SeedRowsSeeded(plan.actions);
    assert CellOf(s, id).rows.None?;
    BegunCell(s, r, env, cfg);
    assert LifeOk(CellOf(s2, id).plan.value, CellOf(s2, id), s.now);
  }

  lemma BegunKeeps(cfg: Config, s: Sys, r: ReqId, env: Env)
    requires Inv(cfg, s) && r in s.reqs && s.reqs[r].pc.TryBegin? && BeginGuard(s, s.reqs[r].id, env)
    ensures Inv(cfg, DoBegin(cfg, s, r, env))
  {
    assert ReqOk(cfg, s, r) && PlanOk(cfg, s, s.reqs[r].id);
    BegunPlan(cfg, s, r, env);
    BegunCell(s, r, env, cfg);
    FocusKeeps(cfg, s, DoBegin(cfg, s, r, env), r);
  }

  // ---- the steps of the action loop, on one plan -----------------------------------------

  /** A request inside the loop and the cell of its plan. */
  ghost predicate Good(cfg: Config, r: ReqId, q: Req, c: Cell, now: Time) {
    && c.plan.Some? && LifeOk(c.plan.value, c, now)
    && ReqFacts(cfg, r, q, c, now)
    && (!c.strayed ==> OwnerOk(cfg, c.plan.value, OrNil(c.rows), OrNoTrail(c.trail), c.lost, r, q.pc))
  }

  lemma GoodAt(cfg: Config, s: Sys, r: ReqId)
    requires Inv(cfg, s) && r in s.reqs && InLoop(s.reqs[r].pc)
    ensures Good(cfg, r, s.reqs[r], CellOf(s, s.reqs[r].id), s.now)
  {
    assert ReqOk(cfg, s, r) && PlanOk(cfg, s, s.reqs[r].id);
  }

  /** A step inside the loop keeps the invariant when it leaves its request and plan good. */
  lemma InLoopKeeps(cfg: Config, s: Sys, s2: Sys, r: ReqId)
    requires Inv(cfg, s) && Focus(s, s2, r) && InLoop(s.reqs[r].pc)
    requires s2.reqs[r].began == s.reqs[r].began && s2.starter == s.starter
    requires Good(cfg, r, s2.reqs[r], CellOf(s2, s.reqs[r].id), s.now)
    ensures Inv(cfg, s2)
  {
    var id := s.reqs[r].id;
    assert ReqOk(cfg, s, r) && PlanOk(cfg, s, id);
    assert At(s2.starter, id) == At(s.starter, id);
    assert PlanOk(cfg, s2, id);
    FocusKeeps(cfg, s, s2, r);
  }

  // The kinds of writes in the loop: each keeps the invariant when the cell it makes is good.

  lemma TrailWrite(cfg: Config, s: Sys, r: ReqId, t2: Trail, pc: Pc)
    requires Inv(cfg, s) && r in s.reqs && InLoop(s.reqs[r].pc)
    requires Good(cfg, r, s.reqs[r].(pc := pc), CellOf(s, s.reqs[r].id).(trail := Some(t2)), s.now)
    ensures Inv(cfg, Goto(s.(trail := s.trail[s.reqs[r].id := t2]), r, pc))
  {
    var id := s.reqs[r].id;
    var s2 := Goto(s.(trail := s.trail[id := t2]), r, pc);
    assert CellOf(s2, id) == CellOf(s, id).(trail := Some(t2));
    InLoopKeeps(cfg, s, s2, r);
  }

  lemma LossAdded(lost: seq<Loss>, loss: Loss, id: PlanId)
    ensures LossesOf(lost + [loss], id) == AddLoss(LossesOf(lost, id), loss, id)
  {
    assert (lost + [loss])[..|lost|] == lost;
  }

  lemma LostWrite(cfg: Config, s: Sys, r: ReqId, loss: Loss, pc: Pc)
    requires Inv(cfg, s) && r in s.reqs && InLoop(s.reqs[r].pc) && loss.id == s.reqs[r].id
    requires var c := CellOf(s, loss.id);
      Good(cfg, r, s.reqs[r].(pc := pc), c.(lost := AddLoss(c.lost, loss, loss.id)), s.now)
    ensures Inv(cfg, Goto(s.(lost := s.lost + [loss]), r, pc))
  {
    var s2 := Goto(s.(lost := s.lost + [loss]), r, pc);
    forall i ensures LostOf(s2, i) == AddLoss(LostOf(s, i), loss, i) { LossAdded(s.lost, loss, i); }
    assert CellOf(s2, loss.id) == CellOf(s, loss.id).(lost := AddLoss(LostOf(s, loss.id), loss, loss.id));
    InLoopKeeps(cfg, s, s2, r);
  }

  lemma RowsWrite(cfg: Config, s: Sys, r: ReqId, rows2: seq<AuditRow>, pc: Pc)
    requires Inv(cfg, s) && r in s.reqs && InLoop(s.reqs[r].pc)
    requires var c := CellOf(s, s.reqs[r].id);
      Good(cfg, r, s.reqs[r].(pc := pc), if c.rows.Some? then c.(rows := Some(rows2)) else c, s.now)
    ensures Inv(cfg, Goto(s.(db := WithRows(s.db, s.reqs[r].id, rows2)), r, pc))
  {
    var id := s.reqs[r].id;
    var s2 := Goto(s.(db := WithRows(s.db, id, rows2)), r, pc);
    var c := CellOf(s, id);
    assert CellOf(s2, id) == (if c.rows.Some? then c.(rows := Some(rows2)) else c);
    InLoopKeeps(cfg, s, s2, r);
  }

  lemma NoWrite(cfg: Config, s: Sys, r: ReqId, pc: Pc)
    requires Inv(cfg, s) && r in s.reqs && InLoop(s.reqs[r].pc)
    requires Good(cfg, r, s.reqs[r].(pc := pc), CellOf(s, s.reqs[r].id), s.now)
    ensures Inv(cfg, Goto(s, r, pc))
  {
    var id := s.reqs[r].id;
    var s2 := Goto(s, r, pc);
    assert CellOf(s2, id) == CellOf(s, id);
    InLoopKeeps(cfg, s, s2, r);
  }

  // The top of the loop.

  lemma LoopOwner(cfg: Config, plan: Plan, rows: seq<AuditRow>, t: Trail, lost: Losses, r: ReqId, p: Progress,
                  pre: Json)
    requires OwnerOk(cfg, plan, rows, t, lost, r, Loop(p)) && p.actions == plan.actions
    ensures p.completed >= |p.actions| ==> OwnerOk(cfg, plan, rows, t, lost, r, AfterLoop(cfg, p, false))
    ensures p.completed < |p.actions| && cfg.hasDriver ==>
      OwnerOk(cfg, plan, rows, t.(captures := t.captures + [Capture(r, p.completed)]), lost, r,
              Act(p.(pres := p.pres + [Some(pre)])))
    ensures p.completed < |p.actions| && !cfg.hasDriver ==>
      OwnerOk(cfg, plan, rows, t, lost, r, Act(p.(pres := p.pres + [None])))
  {
  }

  lemma LoopCell(cfg: Config, r: ReqId, q: Req, c: Cell, now: Time, pre: Json)
    requires q.pc.Loop? && Good(cfg, r, q, c, now)
    ensures var p, t := q.pc.p, OrNoTrail(c.trail);
      if p.completed >= |p.actions| then Good(cfg, r, q.(pc := AfterLoop(cfg, p, false)), c, now)
      else if cfg.hasDriver then
        Good(cfg, r, q.(pc := Act(p.(pres := p.pres + [Some(pre)]))),
             c.(trail := Some(t.(captures := t.captures + [Capture(r, p.completed)]))), now)
      else Good(cfg, r, q.(pc := Act(p.(pres := p.pres + [None]))), c, now)
  {
    if !c.strayed {
      LoopOwner(cfg, c.plan.value, OrNil(c.rows), OrNoTrail(c.trail), c.lost, r, q.pc.p, pre);
    }
  }

  lemma LoopKeeps(cfg: Config, s: Sys, r: ReqId, env: Env)
    requires Inv(cfg, s) && r in s.reqs && s.reqs[r].pc.Loop?
    ensures Inv(cfg, DoLoop(cfg, s, r, env))
  {
    var q := s.reqs[r];
    var t := TrailOf(s, q.id);
    GoodAt(cfg, s, r);
    LoopCell(cfg, r, q, CellOf(s, q.id), s.now, env.out.post);
    if q.pc.p.completed < |q.pc.p.actions| && cfg.hasDriver {
      TrailWrite(cfg, s, r, t.(captures := t.captures + [Capture(r, q.pc.p.completed)]),
          DoLoop(cfg, s, r, env).reqs[r].pc);
    } else {
      NoWrite(cfg, s, r, DoLoop(cfg, s, r, env).reqs[r].pc);
    }
  }

  // Running an action.

  lemma ActOwner(cfg: Config, plan: Plan, rows: seq<AuditRow>, t: Trail, lost: Losses, r: ReqId, p: Progress,
                 out: Outcome)
    requires OwnerOk(cfg, plan, rows, t, lost, r, Act(p)) && p.actions == plan.actions
    ensures OwnerOk(cfg, plan, rows, t.(runs := t.runs + [RunCall(r, p.completed, out)]), lost, r, Record(p, out))
  {
  }

  lemma ActCell(cfg: Config, r: ReqId, q: Req, c: Cell, now: Time, out: Outcome)
    requires q.pc.Act? && Good(cfg, r, q, c, now)
    ensures var p, t := q.pc.p, OrNoTrail(c.trail);
      Good(cfg, r, q.(pc := Record(p, out)),
           c.(trail := Some(t.(runs := t.runs + [RunCall(r, p.completed, out)]))), now)
  {
    if !c.strayed {
      ActOwner(cfg, c.plan.value, OrNil(c.rows), OrNoTrail(c.trail), c.lost, r, q.pc.p, out);
    }
  }

  lemma ActKeeps(cfg: Config, s: Sys, r: ReqId, env: Env)
    requires Inv(cfg, s) && r in s.reqs && s.reqs[r].pc.Act?
    ensures Inv(cfg, DoAct(cfg, s, r, env))
  {
    var q := s.reqs[r];
    var t := TrailOf(s, q.id);
    var out := if cfg.hasDriver then env.out else STUB_OUTCOME;
    GoodAt(cfg, s, r);
    ActCell(cfg, r, q, CellOf(s, q.id), s.now, out);
    TrailWrite(cfg, s, r, t.(runs := t.runs + [RunCall(r, q.pc.p.completed, out)]), Record(q.pc.p, out));
  }

  // Recording the result of action c.

  lemma RecordOwner(cfg: Config, plan: Plan, rows: seq<AuditRow>, t: Trail, lost: Losses, r: ReqId, p: Progress,
                    out: Outcome, now: Time)
    requires OwnerOk(cfg, plan, rows, t, lost, r, Record(p, out)) && p.actions == plan.actions
        && Seeded(rows, p.actions)
    ensures HasRow(rows, p.completed + 1)
    ensures OwnerOk(cfg, plan, RecordRows(rows, p.completed + 1, out, now), t, lost, r, AfterRecord(cfg, p, out, true))
  {
    assert rows[p.completed].seqNo == p.completed + 1;
    var rows2 := RecordRows(rows, p.completed + 1, out, now);
    assert RowsRecord(rows2, t, if out.ok then p.completed + 1 else p.completed, !out.ok, false, lost.rows);
    assert !out.ok ==> RowsRecord(rows2, t, p.completed, true, cfg.hasMarker, lost.rows);
  }

  lemma RecordLostOwner(cfg: Config, plan: Plan, rows: seq<AuditRow>, t: Trail, lost: Losses, r: ReqId, p: Progress,
                        out: Outcome)
    requires OwnerOk(cfg, plan, rows, t, lost, r, Record(p, out)) && p.actions == plan.actions
    ensures OwnerOk(cfg, plan, rows, t, lost.(rows := lost.rows + [p.completed + 1]), r, AfterRecord(cfg, p, out, true))
  {
    var lost2 := lost.(rows := lost.rows + [p.completed + 1]);
    assert RowsRecord(rows, t, if out.ok then p.completed + 1 else p.completed, !out.ok, false, lost2.rows);
    assert !out.ok ==> RowsRecord(rows, t, p.completed, true, cfg.hasMarker, lost2.rows);
  }

  lemma SeedsStay(rows: seq<AuditRow>, actions: seq<Action>, n: nat, out: Outcome, seqs: seq<nat>, now: Time)
    requires Seeded(rows, actions)
    ensures Seeded(RecordRows(rows, n, out, now), actions) && Seeded(MarkRows(rows, seqs, now), actions)
  {
  }

  lemma RecordLostCell(cfg: Config, r: ReqId, q: Req, c: Cell, now: Time)
    requires q.pc.Record? && Good(cfg, r, q, c, now)
    ensures Good(cfg, r, q.(pc := AfterRecord(cfg, q.pc.p, q.pc.out, true)),
                 c.(lost := c.lost.(rows := c.lost.rows + [q.pc.p.completed + 1])), now)
  {
    if !c.strayed {
      RecordLostOwner(cfg, c.plan.value, OrNil(c.rows), OrNoTrail(c.trail), c.lost, r, q.pc.p, q.pc.out);
    }
  }

  lemma RecordCell(cfg: Config, r: ReqId, q: Req, c: Cell, now: Time)
    requires q.pc.Record? && Good(cfg, r, q, c, now) && HasRow(OrNil(c.rows), q.pc.p.completed + 1)
    ensures Good(cfg, r, q.(pc := AfterRecord(cfg, q.pc.p, q.pc.out, true)),
                 c.(rows := Some(RecordRows(OrNil(c.rows), q.pc.p.completed + 1, q.pc.out, now))), now)
  {
    SeedsStay(c.rows.value, q.pc.p.actions, q.pc.p.completed + 1, q.pc.out, [], now);
    if !c.strayed {
      RecordOwner(cfg, c.plan.value, OrNil(c.rows), OrNoTrail(c.trail), c.lost, r, q.pc.p, q.pc.out, now);
    }
  }

  /** Only a plan that was gone on with unbegun can lack the row to record in. */
  lemma RecordMissingCell(cfg: Config, r: ReqId, q: Req, c: Cell, now: Time)
    requires q.pc.Record? && Good(cfg, r, q, c, now) && !HasRow(OrNil(c.rows), q.pc.p.completed + 1)
    ensures c.strayed
    ensures Good(cfg, r, q.(pc := AfterRecord(cfg, q.pc.p, q.pc.out, false)), c, now)
  {
    if !c.strayed {
      RecordOwner(cfg, c.plan.value, OrNil(c.rows), OrNoTrail(c.trail), c.lost, r, q.pc.p, q.pc.out, now);
      assert false;
    }
  }

  lemma RecordLost(cfg: Config, s: Sys, r: ReqId)
    requires Inv(cfg, s) && r in s.reqs && s.reqs[r].pc.Record?
    ensures var q := s.reqs[r];
      Inv(cfg, Goto(s.(lost := s.lost + [RowLost(q.id, q.pc.p.completed + 1)]), r,
          AfterRecord(cfg, q.pc.p, q.pc.out, true)))
  {
    var q := s.reqs[r];
    GoodAt(cfg, s, r);
    RecordLostCell(cfg, r, q, CellOf(s, q.id), s.now);
    LostWrite(cfg, s, r, RowLost(q.id, q.pc.p.completed + 1), AfterRecord(cfg, q.pc.p, q.pc.out, true));
  }

  lemma RecordFound(cfg: Config, s: Sys, r: ReqId)
    requires Inv(cfg, s) && r in s.reqs && s.reqs[r].pc.Record?
    requires HasRow(Rows(s.db, s.reqs[r].id), s.reqs[r].pc.p.completed + 1)
    ensures var q := s.reqs[r];
      var rows2 := RecordRows(Rows(s.db, q.id), q.pc.p.completed + 1, q.pc.out, s.now);
      Inv(cfg, Goto(s.(db := WithRows(s.db, q.id, rows2)), r, AfterRecord(cfg, q.pc.p, q.pc.out, true)))
  {
    var q := s.reqs[r];
    GoodAt(cfg, s, r);
    RecordCell(cfg, r, q, CellOf(s, q.id), s.now);
    RowsWrite(cfg, s, r, RecordRows(Rows(s.db, q.id), q.pc.p.completed + 1, q.pc.out, s.now),
              AfterRecord(cfg, q.pc.p, q.pc.out, true));
  }

  lemma RecordMissing(cfg: Config, s: Sys, r: ReqId)
    requires Inv(cfg, s) && r in s.reqs && s.reqs[r].pc.Record?
    requires !HasRow(Rows(s.db, s.reqs[r].id), s.reqs[r].pc.p.completed + 1)
    ensures s.reqs[r].id in s.strayed
    ensures var q := s.reqs[r]; Inv(cfg, Goto(s, r, AfterRecord(cfg, q.pc.p, q.pc.out, false)))
  {
    var q := s.reqs[r];
    GoodAt(cfg, s, r);
    RecordMissingCell(cfg, r, q, CellOf(s, q.id), s.now);
    NoWrite(cfg, s, r, AfterRecord(cfg, q.pc.p, q.pc.out, false));
  }

  lemma RecordKeeps(cfg: Config, s: Sys, r: ReqId, env: Env)
    requires Inv(cfg, s) && r in s.reqs && s.reqs[r].pc.Record?
    ensures Inv(cfg, DoRecord(cfg, s, r, env))
  {
    if env.fault {
      RecordLost(cfg, s, r);
    } else if HasRow(Rows(s.db, s.reqs[r].id), s.reqs[r].pc.p.completed + 1) {
      RecordFound(cfg, s, r);
    } else {
      RecordMissing(cfg, s, r);
    }
  }

  // ---- rollback and finish ---------------------------------------------------------------

  lemma UndoneOwner(cfg: Config, plan: Plan, rows: seq<AuditRow>, t: Trail, lost: Losses, r: ReqId, pc: Pc)
    requires pc.Undo? && pc.next == 0 && OwnerOk(cfg, plan, rows, t, lost, r, pc)
    ensures OwnerOk(cfg, plan, rows, t, lost, r,
                    if pc.rolled == [] then AfterUndo(pc.p, [], pc.errs) else Mark(pc.p, pc.rolled, pc.errs))
  {
    var c := pc.p.completed;
    if pc.rolled == [] {
      assert forall i :: 0 <= i < c ==> !Undone(t, c, i);
      assert !Undone(t, c, 0);
    }
  }

  lemma UndoOwner(cfg: Config, plan: Plan, rows: seq<AuditRow>, t: Trail, lost: Losses, r: ReqId, pc: Pc, ok: bool)
    requires pc.Undo? && pc.next > 0 && OwnerOk(cfg, plan, rows, t, lost, r, pc)
    ensures OwnerOk(cfg, plan, rows, t.(undos := t.undos + [UndoCall(r, pc.next - 1, ok)]), lost, r,
        AfterUndoCall(pc, ok))
  {
    UndoLocals(t, pc.p.completed, pc.next, pc.rolled, pc.errs, r, ok);
  }

  lemma UndoLocals(t: Trail, c: nat, next: nat, rolled: seq<nat>, errs: nat, r: ReqId, ok: bool)
    requires 0 < next <= c && |t.undos| == c - next && RollbackLocals(t, c, next, rolled, errs)
    ensures RollbackLocals(t.(undos := t.undos + [UndoCall(r, next - 1, ok)]), c, next - 1,
                           if ok then rolled + [next] else rolled, if ok then errs else errs + 1)
  {
    var t2 := t.(undos := t.undos + [UndoCall(r, next - 1, ok)]);
    assert forall i :: next <= i < c ==> (Undone(t2, c, i) <==> Undone(t, c, i));
    assert Undone(t2, c, next - 1) <==> ok;
  }

  lemma UndoneCell(cfg: Config, r: ReqId, q: Req, c: Cell, now: Time)
    requires q.pc.Undo? && q.pc.next == 0 && Good(cfg, r, q, c, now)
    ensures var pc := q.pc;
      Good(cfg, r, q.(pc := if pc.rolled == [] then AfterUndo(pc.p, [], pc.errs)
          else Mark(pc.p, pc.rolled, pc.errs)), c, now)
  {
    if !c.strayed {
      UndoneOwner(cfg, c.plan.value, OrNil(c.rows), OrNoTrail(c.trail), c.lost, r, q.pc);
    }
  }

  lemma UndoCell(cfg: Config, r: ReqId, q: Req, c: Cell, now: Time, ok: bool)
    requires q.pc.Undo? && q.pc.next > 0 && Good(cfg, r, q, c, now)
    ensures var pc, t := q.pc, OrNoTrail(c.trail);
      Good(cfg, r, q.(pc := AfterUndoCall(pc, ok)),
           c.(trail := Some(t.(undos := t.undos + [UndoCall(r, pc.next - 1, ok)]))), now)
  {
    if !c.strayed {
      UndoOwner(cfg, c.plan.value, OrNil(c.rows), OrNoTrail(c.trail), c.lost, r, q.pc, ok);
    }
  }

  lemma UndoneKeeps(cfg: Config, s: Sys, r: ReqId, env: Env)
    requires Inv(cfg, s) && r in s.reqs && s.reqs[r].pc.Undo? && s.reqs[r].pc.next == 0
    ensures Inv(cfg, DoUndo(s, r, env))
  {
    var q := s.reqs[r];
    GoodAt(cfg, s, r);
    UndoneCell(cfg, r, q, CellOf(s, q.id), s.now);
    NoWrite(cfg, s, r, DoUndo(s, r, env).reqs[r].pc);
  }

  lemma UndoCallKeeps(cfg: Config, s: Sys, r: ReqId, env: Env)
    requires Inv(cfg, s) && r in s.reqs && s.reqs[r].pc.Undo? && s.reqs[r].pc.next > 0
    ensures Inv(cfg, DoUndo(s, r, env))
  {
    var q := s.reqs[r];
    var t := TrailOf(s, q.id);
    GoodAt(cfg, s, r);
    UndoCell(cfg, r, q, CellOf(s, q.id), s.now, env.out.ok);
    TrailWrite(cfg, s, r, t.(undos := t.undos + [UndoCall(r, q.pc.next - 1, env.out.ok)]),
        AfterUndoCall(q.pc, env.out.ok));
  }

  lemma UndoKeeps(cfg: Config, s: Sys, r: ReqId, env: Env)
    requires Inv(cfg, s) && r in s.reqs && s.reqs[r].pc.Undo?
    ensures Inv(cfg, DoUndo(s, r, env))
  {
    if s.reqs[r].pc.next == 0 { UndoneKeeps(cfg, s, r, env); } else { UndoCallKeeps(cfg, s, r, env); }
  }

  lemma MarkOwner(cfg: Config, plan: Plan, rows: seq<AuditRow>, t: Trail, lost: Losses, r: ReqId, pc: Pc, now: Time)
    requires pc.Mark? && OwnerOk(cfg, plan, rows, t, lost, r, pc) && Seeded(rows, plan.actions)
    ensures !cfg.hasMarker ==> OwnerOk(cfg, plan, rows, t, lost, r, AfterUndo(pc.p, pc.rolled, pc.errs))
    ensures cfg.hasMarker ==>
      OwnerOk(cfg, plan, MarkRows(rows, pc.rolled, now), t, lost, r, AfterUndo(pc.p, pc.rolled, pc.errs))
  {
    var c := pc.p.completed;
    assert RowsRecord(MarkRows(rows, pc.rolled, now), t, c, true, true, lost.rows);
    assert pc.errs == 0 <==> AllUndone(t, c);
  }

  lemma MarkLostOwner(cfg: Config, plan: Plan, rows: seq<AuditRow>, t: Trail, lost: Losses, r: ReqId, pc: Pc)
    requires pc.Mark? && OwnerOk(cfg, plan, rows, t, lost, r, pc) && cfg.hasMarker
    ensures OwnerOk(cfg, plan, rows, t, Losses(lost.rows + pc.rolled, true), r, AfterUndo(pc.p, pc.rolled, pc.errs + 1))
  {
    var c, lost2 := pc.p.completed, Losses(lost.rows + pc.rolled, true);
    forall i | 0 <= i < |rows| && i + 1 !in lost2.rows ensures RowRecords(rows[i], i, t, c, true, true) {
      assert RowRecords(rows[i], i, t, c, true, false);
      if i < c { assert Undone(t, c, i) <==> i + 1 in pc.rolled; }
    }
  }

  lemma MarkCell(cfg: Config, r: ReqId, q: Req, c: Cell, now: Time)
    requires q.pc.Mark? && Good(cfg, r, q, c, now)
    ensures var pc := q.pc;
      && (!cfg.hasMarker ==> Good(cfg, r, q.(pc := AfterUndo(pc.p, pc.rolled, pc.errs)), c, now))
      && (cfg.hasMarker ==>
            Good(cfg, r, q.(pc := AfterUndo(pc.p, pc.rolled, pc.errs)),
                 if c.rows.Some? then c.(rows := Some(MarkRows(c.rows.value, pc.rolled, now))) else c, now))
  {
    if c.rows.Some? { SeedsStay(c.rows.value, q.pc.p.actions, 0, STUB_OUTCOME, q.pc.rolled, now); }
    if !c.strayed {
      MarkOwner(cfg, c.plan.value, OrNil(c.rows), OrNoTrail(c.trail), c.lost, r, q.pc, now);
    }
  }

  lemma MarkLostCell(cfg: Config, r: ReqId, q: Req, c: Cell, now: Time)
    requires q.pc.Mark? && Good(cfg, r, q, c, now) && cfg.hasMarker
    ensures Good(cfg, r, q.(pc := AfterUndo(q.pc.p, q.pc.rolled, q.pc.errs + 1)),
                 c.(lost := Losses(c.lost.rows + q.pc.rolled, true)), now)
  {
    if !c.strayed {
      MarkLostOwner(cfg, c.plan.value, OrNil(c.rows), OrNoTrail(c.trail), c.lost, r, q.pc);
    }
  }

  lemma MarkKeeps(cfg: Config, s: Sys, r: ReqId, env: Env)
    requires Inv(cfg, s) && r in s.reqs && s.reqs[r].pc.Mark?
    ensures Inv(cfg, DoMark(cfg, s, r, env))
  {
    var q := s.reqs[r];
    var pc2 := DoMark(cfg, s, r, env).reqs[r].pc;
    GoodAt(cfg, s, r);
    if cfg.hasMarker && env.fault {
      MarkLostCell(cfg, r, q, CellOf(s, q.id), s.now);
      LostWrite(cfg, s, r, MarkLost(q.id, q.pc.rolled), pc2);
      return;
    }
    MarkCell(cfg, r, q, CellOf(s, q.id), s.now);
    if !cfg.hasMarker {
      NoWrite(cfg, s, r, pc2);
    } else {
      RowsWrite(cfg, s, r, MarkRows(Rows(s.db, q.id), q.pc.rolled, s.now), pc2);
    }
  }

  lemma FinishCell(cfg: Config, r: ReqId, q: Req, c: Cell, now: Time)
    requires q.pc.Finish? && Good(cfg, r, q, c, now)
    ensures var pc := q.pc;
      && Good(cfg, r, q.(pc := Done(Refused(500))), c, now)
      && Good(cfg, r, q.(pc := Done(Finished(pc.final, pc.p.completed, |pc.rolled|))),
              c.(plan := Some(c.plan.value.(status := pc.final, actionsCompleted := pc.p.completed,
                  completedAt := Some(now)))),
              now)
  {
  }

  lemma FinishKeeps(cfg: Config, s: Sys, r: ReqId, env: Env)
    requires Inv(cfg, s) && r in s.reqs && s.reqs[r].pc.Finish?
    ensures Inv(cfg, DoFinish(s, r, env))
  {
    var q := s.reqs[r];
    var s2 := DoFinish(s, r, env);
    GoodAt(cfg, s, r);
    FinishCell(cfg, r, q, CellOf(s, q.id), s.now);
    if env.fault {
      NoWrite(cfg, s, r, Done(Refused(500)));
    } else {
      FinishFocus(s, r);
      InLoopKeeps(cfg, s, s2, r);
    }
  }

  lemma FinishFocus(s: Sys, r: ReqId)
    requires r in s.reqs && s.reqs[r].pc.Finish? && s.reqs[r].id in s.db.plans
    requires HasStarted(s.reqs[r].pc.final) && s.db.plans[s.reqs[r].id].status != Planned
    ensures var q, s2 := s.reqs[r], DoFinish(s, r, Env(false, STUB_OUTCOME));
      && Focus(s, s2, r)
      && CellOf(s2, q.id) == CellOf(s, q.id).(plan := Some(s.db.plans[q.id].(
           status := q.pc.final, actionsCompleted := q.pc.p.completed, completedAt := Some(s.now))))
  {
  }

  // ---- the other labels ------------------------------------------------------------------

  lemma TickKeeps(cfg: Config, s: Sys, d: nat)
    requires Inv(cfg, s)
    ensures Inv(cfg, Next(cfg, s, Tick(d)))
  {
    var s2 := Next(cfg, s, Tick(d));
    forall id: PlanId ensures PlanOk(cfg, s2, id) {
      assert PlanOk(cfg, s, id);
      assert CellOf(s2, id) == CellOf(s, id) && OwnerReq(s2, id) == OwnerReq(s, id);
    }
    forall r: ReqId ensures ReqOk(cfg, s2, r) {
      assert ReqOk(cfg, s, r);
      if r in s.reqs { assert CellOf(s2, s.reqs[r].id) == CellOf(s, s.reqs[r].id); }
    }
    forall a: ReqId ensures ApprovalOk(s2, a) { assert ApprovalOk(s, a); }
    forall id: PlanId ensures WinnerOk(s2, id) { assert WinnerOk(s, id); }
  }

  lemma CreateKeeps(cfg: Config, s: Sys, account: string, actions: seq<Action>, author: string)
    requires Inv(cfg, s)
    ensures Inv(cfg, Next(cfg, s, Create(account, actions, author)))
  {
    var s2 := Next(cfg, s, Create(account, actions, author));
    var newId := s2.db.lastId;
    assert PlanOk(cfg, s, newId);
    assert CellOf(s, newId).plan.None?;
    assert CellOf(s2, newId) == Cell(Some(NewPlan(account, actions, author, s.now)), None, None, None, None,
        NO_LOSSES, false);
    forall id: PlanId ensures PlanOk(cfg, s2, id) {
      assert PlanOk(cfg, s, id);
      if id != newId { assert CellOf(s2, id) == CellOf(s, id) && OwnerReq(s2, id) == OwnerReq(s, id); }
    }
    forall r: ReqId ensures ReqOk(cfg, s2, r) {
      assert ReqOk(cfg, s, r);
      if r in s.reqs && s.reqs[r].id != newId { assert CellOf(s2, s.reqs[r].id) == CellOf(s, s.reqs[r].id); }
    }
    forall a: ReqId ensures ApprovalOk(s2, a) { assert ApprovalOk(s, a); }
    forall id: PlanId ensures WinnerOk(s2, id) { assert WinnerOk(s, id); }
  }

  /** A step that writes nothing to the store and touches no execute request that is under way. */
  lemma StoreUntouched(cfg: Config, s: Sys, s2: Sys)
    requires Inv(cfg, s)
    requires s2 == s.(reqs := s2.reqs, approvals := s2.approvals)
    requires forall r :: r in s.reqs ==> r in s2.reqs && s2.reqs[r] == s.reqs[r]
    ensures forall id: PlanId {:trigger PlanOk(cfg, s2, id)} :: PlanOk(cfg, s2, id)
    ensures forall r: ReqId {:trigger ReqOk(cfg, s2, r)} :: r in s.reqs ==> ReqOk(cfg, s2, r)
  {
    forall id: PlanId ensures PlanOk(cfg, s2, id) {
      assert PlanOk(cfg, s, id);
      assert CellOf(s2, id) == CellOf(s, id);
      assert id in s.starter ==> OwnerReq(s2, id) == OwnerReq(s, id);
    }
    forall r: ReqId | r in s.reqs ensures ReqOk(cfg, s2, r) {
      assert ReqOk(cfg, s, r);
      assert CellOf(s2, s.reqs[r].id) == CellOf(s, s.reqs[r].id);
    }
  }

  lemma AskApproveKeeps(cfg: Config, s: Sys, l: Label)
    requires Inv(cfg, s) && l.AskApprove?
    ensures Inv(cfg, Next(cfg, s, l))
  {
    var s2 := Next(cfg, s, l);
    StoreUntouched(cfg, s, s2);
    forall a: ReqId ensures ApprovalOk(s2, a) {
      assert ApprovalOk(s, a) && WinnerOk(s, l.id);
    }
    forall id: PlanId ensures WinnerOk(s2, id) { assert WinnerOk(s, id); }
  }

  lemma NewRequestOk(cfg: Config, s: Sys, s2: Sys, r: ReqId, id: PlanId)
    requires PlanOk(cfg, s, id) && r !in s.reqs
    requires s2 == s.(reqs := s.reqs[r := NewReq(id)])
    ensures ReqOk(cfg, s2, r)
  {
    assert CellOf(s2, id) == CellOf(s, id);
  }

  lemma AskExecuteKeeps(cfg: Config, s: Sys, l: Label)
    requires Inv(cfg, s) && l.AskExecute? && l.r !in s.reqs
    ensures Inv(cfg, Next(cfg, s, l))
  {
    var s2 := Next(cfg, s, l);
    StoreUntouched(cfg, s, s2);
    assert PlanOk(cfg, s, l.id);
    NewRequestOk(cfg, s, s2, l.r, l.id);
    forall a: ReqId ensures ApprovalOk(s2, a) { assert ApprovalOk(s, a); }
    forall id: PlanId ensures WinnerOk(s2, id) { assert WinnerOk(s, id); }
  }

  lemma ApproveKeeps(cfg: Config, s: Sys, a: ReqId, fault: bool)
    requires Inv(cfg, s) && a in s.approvals
    ensures Inv(cfg, DoApprove(s, a, fault))
  {
    var q := s.approvals[a];
    if q.pc.Cas? && !fault && ApproveCas(s.db, q.id, q.who, q.note, s.now).Some? {
      WinKeeps(cfg, s, a);
    } else {
      var s2 := DoApprove(s, a, fault);
      StoreUntouched(cfg, s, s2);
      forall b: ReqId ensures ApprovalOk(s2, b) { assert ApprovalOk(s, b); }
      forall id: PlanId ensures WinnerOk(s2, id) { assert WinnerOk(s, id); }
    }
  }

  lemma WinKeeps(cfg: Config, s: Sys, a: ReqId)
    requires Inv(cfg, s) && a in s.approvals && s.approvals[a].pc.Cas?
    requires ApproveCas(s.db, s.approvals[a].id, s.approvals[a].who, s.approvals[a].note, s.now).Some?
    ensures Inv(cfg, DoApprove(s, a, false))
  {
    var s2 := DoApprove(s, a, false);
    var id0 := s.approvals[a].id;
    assert PlanOk(cfg, s, id0);
    forall id: PlanId ensures PlanOk(cfg, s2, id) {
      assert PlanOk(cfg, s, id);
      if id == id0 { WinPlan(cfg, s, a); } else { WinOtherPlan(cfg, s, a, id); }
    }
    forall r: ReqId ensures ReqOk(cfg, s2, r) {
      assert ReqOk(cfg, s, r);
      WinReq(cfg, s, a, r);
    }
    forall b: ReqId ensures ApprovalOk(s2, b) { assert ApprovalOk(s, b); }
    forall id: PlanId ensures WinnerOk(s2, id) { assert WinnerOk(s, id); }
  }

  lemma WinReq(cfg: Config, s: Sys, a: ReqId, r: ReqId)
    requires a in s.approvals && s.approvals[a].pc.Cas? && ReqOk(cfg, s, r)
    requires ApproveCas(s.db, s.approvals[a].id, s.approvals[a].who, s.approvals[a].note, s.now).Some?
    ensures ReqOk(cfg, DoApprove(s, a, false), r)
  {
    var s2, id := DoApprove(s, a, false), s.approvals[a].id;
    if r in s.reqs && s.reqs[r].id != id { assert CellOf(s2, s.reqs[r].id) == CellOf(s, s.reqs[r].id); }
  }

  lemma WinPlan(cfg: Config, s: Sys, a: ReqId)
    requires a in s.approvals && s.approvals[a].pc.Cas? && PlanOk(cfg, s, s.approvals[a].id)
    requires ApproveCas(s.db, s.approvals[a].id, s.approvals[a].who, s.approvals[a].note, s.now).Some?
    ensures PlanOk(cfg, DoApprove(s, a, false), s.approvals[a].id)
  {
    var s2, id := DoApprove(s, a, false), s.approvals[a].id;
    assert CellOf(s2, id) == CellOf(s, id).(plan := Some(s2.db.plans[id]), winner := Some(a));
    assert OwnerReq(s2, id) == OwnerReq(s, id);
  }

  lemma WinOtherPlan(cfg: Config, s: Sys, a: ReqId, id: PlanId)
    requires a in s.approvals && s.approvals[a].pc.Cas? && PlanOk(cfg, s, id) && id != s.approvals[a].id
    requires ApproveCas(s.db, s.approvals[a].id, s.approvals[a].who, s.approvals[a].note, s.now).Some?
    ensures PlanOk(cfg, DoApprove(s, a, false), id)
  {
    var s2 := DoApprove(s, a, false);
    assert CellOf(s2, id) == CellOf(s, id);
    assert OwnerReq(s2, id) == OwnerReq(s, id);
  }

  lemma ExecuteKeeps(cfg: Config, s: Sys, r: ReqId, env: Env)
    requires Inv(cfg, s) && r in s.reqs
    ensures Inv(cfg, DoExecute(cfg, s, r, env))
  {
    match s.reqs[r].pc
    case ReadPlan => ReadPlanKeeps(cfg, s, r, env);
    case TakeWindow(_) => WindowKeeps(cfg, s, r, env);
    case CountStarts(_, _) => CountStartsKeeps(cfg, s, r, env);
    case TryBegin(_, _) => BeginKeeps(cfg, s, r, env);
    case BeginMissed(_) => BeginMissedKeeps(cfg, s, r, env);
    case Loop(_) => LoopKeeps(cfg, s, r, env);
    case Act(_) => ActKeeps(cfg, s, r, env);
    case Record(_, _) => RecordKeeps(cfg, s, r, env);
    case Undo(_, _, _, _) => UndoKeeps(cfg, s, r, env);
    case Mark(_, _, _) => MarkKeeps(cfg, s, r, env);
    case Finish(_, _, _) => FinishKeeps(cfg, s, r, env);
    case Done(_) =>
  }

  lemma NextKeeps(cfg: Config, s: Sys, l: Label)
    requires Inv(cfg, s)
    ensures Inv(cfg, Next(cfg, s, l))
  {
    match l
    case Tick(d) => TickKeeps(cfg, s, d);
    case Create(account, actions, author) => CreateKeeps(cfg, s, account, actions, author);
    case AskApprove(_, _, _, _) => AskApproveKeeps(cfg, s, l);
    case AskExecute(r, _) => if r !in s.reqs { AskExecuteKeeps(cfg, s, l); }
    case StepApprove(a, fault) => if a in s.approvals { ApproveKeeps(cfg, s, a, fault); }
    case StepExecute(r, env) => if r in s.reqs { ExecuteKeeps(cfg, s, r, env); }
  }

  lemma InitOk(cfg: Config)
    ensures Inv(cfg, INIT)
  {
  }

  /** The invariant holds after every run. */
  lemma {:induction false} RunKeeps(cfg: Config, s: Sys, labels: seq<Label>)
    requires Inv(cfg, s)
    ensures Inv(cfg, Run(cfg, s, labels))
  {
    if labels != [] {
      RunKeeps(cfg, s, labels[..|labels| - 1]);
      NextKeeps(cfg, Run(cfg, s, labels[..|labels| - 1]), labels[|labels| - 1]);
    }
  }
}
