/**
  The approve and execute requests of internal/api/exec.go as a state machine.

  Every store call, executor call and rollback call is one atomic step of one request; between
  any two steps other requests may run.  A run is any sequence of labels; a label that is not
  enabled leaves the state as it is.  Config.earlyExit chooses between the code as it is
  written (false: a failed BeginExecution answers with an error and then goes on) and the
  handler that returns after that answer (true).
*/
module ExecProtocol {
  import opened Basics
  import opened ExecStore

  type ReqId = nat

  /** The length of the rate-limit window: one hour in nanoseconds. */
  const HOUR: Time := 3_600_000_000_000

  /**
    limit: execRateLimit().  hasDriver: deps.ExecAction is set.  canUndo: deps.RollbackAction is
    set and AICO_ROLLBACK_ENABLED is "true".  hasMarker: the store implements ExecRollbackMarker.
  */
  datatype Config = Config(limit: nat, earlyExit: bool, hasDriver: bool, canUndo: bool, hasMarker: bool)

  /** The table validExecTransitions. */
  predicate CanTransition(from: Status, to: Status) {
    match from
    case Planned => to == Approved || to == Rejected
    case Approved => to == Running
    case Running => to == Completed || to == Failed
    case Failed => to == RolledBack || to == Completed
    case _ => false
  }

  /** What the outside world answers on one step: whether the store fails, and an executor's result. */
  datatype Env = Env(fault: bool, out: Outcome)

  /** A step on which nothing fails. */
  const FINE := Env(false, Outcome("done", "", true))

  /** The locals of the action loop; `completed` is also the index of the current action. */
  datatype Progress = Progress(actions: seq<Action>, completed: nat, pres: seq<Option<Json>>)

  datatype Response = Refused(code: nat) | Finished(final: Status, completed: nat, rolledBack: nat)

  /** Where an execute request stands, with the locals it needs from there on. */
  datatype Pc =
    | ReadPlan
    | TakeWindow(plan: Plan)
    | CountStarts(plan: Plan, since: Time)
    | TryBegin(plan: Plan, since: Time)
    | BeginMissed(plan: Plan)
    | Loop(p: Progress)
    | Act(p: Progress)
    | Record(p: Progress, out: Outcome)
    | Undo(p: Progress, next: nat, rolled: seq<nat>, errs: nat)
    | Mark(p: Progress, rolled: seq<nat>, errs: nat)
    | Finish(p: Progress, final: Status, rolled: seq<nat>)
    | Done(resp: Response)

  /**
    `began` remembers that this request's BeginExecution succeeded; sent is the status code that a
    failed one has already written to the client of a handler that does not return there.
  */
  datatype Req = Req(id: PlanId, pc: Pc, began: bool, sent: Option<nat>)

  function NewReq(id: PlanId): (r: Req) { Req(id, ReadPlan, false, None) }

  /** What the client of a request that is done has got: the status code written first stands. */
  function Answer(q: Req): (resp: Response)
    requires q.pc.Done?
  {
    if q.sent.Some? then Refused(q.sent.value) else q.pc.resp
  }

  datatype ApproveResult = Won | Lost(error: StoreError)
  datatype ApprovePc = Cas | Missed | Answered(result: ApproveResult)
  datatype Approval = Approval(id: PlanId, who: string, note: string, pc: ApprovePc)

  /** Calls of the outside world made for a plan, with the request that made them. */
  datatype Capture = Capture(req: ReqId, index: nat)
  datatype RunCall = RunCall(req: ReqId, index: nat, out: Outcome)
  datatype UndoCall = UndoCall(req: ReqId, index: nat, ok: bool)
  datatype Trail = Trail(captures: seq<Capture>, runs: seq<RunCall>, undos: seq<UndoCall>)

  const NO_TRAIL := Trail([], [], [])

  /** A write to a plan's audit rows that failed: of a result, or of the marking of some rows. */
  datatype Loss = RowLost(id: PlanId, seqNo: nat) | MarkLost(id: PlanId, seqs: seq<nat>)

  /** The sequence numbers of the rows for which a write failed, and whether the marking failed. */
  datatype Losses = Losses(rows: seq<nat>, mark: bool)

  const NO_LOSSES := Losses([], false)

  /**
    winner, starter, trail, lost and strayed are history: who approved and who began each plan,
    what was called for it, which writes to its audit rows failed, and the plans that a request
    went on with after failing to begin them.
  */
  datatype Sys = Sys(
    db: Db, now: Time, reqs: map<ReqId, Req>, approvals: map<ReqId, Approval>,
    winner: map<PlanId, ReqId>, starter: map<PlanId, ReqId>,
    trail: map<PlanId, Trail>, lost: seq<Loss>, strayed: set<PlanId>)

  const INIT := Sys(EMPTY_DB, 0, map[], map[], map[], map[], map[], [], {})

  datatype Label =
    | Tick(d: nat)
    | Create(account: string, actions: seq<Action>, author: string)
    | AskApprove(r: ReqId, id: PlanId, who: string, note: string)
    | AskExecute(r: ReqId, id: PlanId)
    | StepApprove(r: ReqId, fault: bool)
    | StepExecute(r: ReqId, env: Env)

  function TrailOf(s: Sys, id: PlanId): (r: Trail) {
    if id in s.trail then s.trail[id] else NO_TRAIL
  }

  function LostOf(s: Sys, id: PlanId): (lost: Losses) {
    LossesOf(s.lost, id)
  }

  function LossesOf(lost: seq<Loss>, id: PlanId): (losses: Losses) {
    if lost == [] then NO_LOSSES else AddLoss(LossesOf(lost[..|lost| - 1], id), lost[|lost| - 1], id)
  }

  function AddLoss(losses: Losses, loss: Loss, id: PlanId): (losses2: Losses) {
    if loss.id != id then losses
    else match loss
      case RowLost(_, n) => losses.(rows := losses.rows + [n])
      case MarkLost(_, seqs) => Losses(losses.rows + seqs, true)
  }

  function Goto(s: Sys, r: ReqId, pc: Pc): (v: Sys)
    requires r in s.reqs
  {
    s.(reqs := s.reqs[r := s.reqs[r].(pc := pc)])
  }

  function Refuse(s: Sys, r: ReqId, code: nat): (v: Sys)
    requires r in s.reqs
  {
    Goto(s, r, Done(Refused(code)))
  }

  // ---- approve ---------------------------------------------------------------------------

  function DoApprove(s: Sys, r: ReqId, fault: bool): (v: Sys)
    requires r in s.approvals
  {
    var a := s.approvals[r];
    match a.pc
    case Cas =>
      if fault then s.(approvals := s.approvals[r := a.(pc := Answered(Lost(Fault)))])
      else (
        var cas := ApproveCas(s.db, a.id, a.who, a.note, s.now);
        if cas.Some? then
          s.(db := cas.value, winner := s.winner[a.id := r], approvals := s.approvals[r := a.(pc := Answered(Won))])
        else s.(approvals := s.approvals[r := a.(pc := Missed)]))
    case Missed =>
      var e := if fault then Fault else ClassifyMiss(s.db, a.id);
      s.(approvals := s.approvals[r := a.(pc := Answered(Lost(e)))])
    case Answered(_) => s
  }

  // ---- execute, up to BeginExecution -----------------------------------------------------

  function DoReadPlan(s: Sys, r: ReqId, env: Env): (v: Sys)
    requires r in s.reqs
  {
    var id := s.reqs[r].id;
    if env.fault then Refuse(s, r, 500)
    else if id !in s.db.plans then Refuse(s, r, 404)
    else if !CanTransition(s.db.plans[id].status, Running) then Refuse(s, r, 409)
    else Goto(s, r, TakeWindow(s.db.plans[id]))
  }

  function DoCount(cfg: Config, s: Sys, r: ReqId, env: Env): (v: Sys)
    requires r in s.reqs && s.reqs[r].pc.CountStarts?
  {
    var pc := s.reqs[r].pc;
    if env.fault then Refuse(s, r, 500)
    else if |StartedSince(s.db, pc.plan.account, pc.since)| >= cfg.limit then Refuse(s, r, 429)
    else Goto(s, r, TryBegin(pc.plan, pc.since))
  }

  /** The guard of BeginExecution: what a caller could check just before it. */
  predicate BeginGuard(s: Sys, id: PlanId, env: Env) {
    !env.fault && id in s.db.plans && s.db.plans[id].status == Approved
  }

  /** After a failed BeginExecution the error is written; as written, the handler does not return. */
  function AfterBeginError(cfg: Config, s: Sys, r: ReqId, plan: Plan, code: nat): (v: Sys)
    requires r in s.reqs
  {
    if cfg.earlyExit then Refuse(s, r, code) else FallThrough(s, r, plan, code)
  }

  function FallThrough(s: Sys, r: ReqId, plan: Plan, code: nat): (v: Sys)
    requires r in s.reqs
  {
    var q := s.reqs[r];
    s.(strayed := s.strayed + {q.id},
       reqs := s.reqs[r := q.(pc := Loop(Progress(plan.actions, 0, [])), sent := Some(code))])
  }

  function DoBegin(cfg: Config, s: Sys, r: ReqId, env: Env): (v: Sys)
    requires r in s.reqs && s.reqs[r].pc.TryBegin?
  {
    var id, plan := s.reqs[r].id, s.reqs[r].pc.plan;
    if env.fault then AfterBeginError(cfg, s, r, plan, 500)
    else (
      var tx := BeginTx(s.db, id, plan.actions, s.now);
      if tx.Some? then
        s.(db := tx.value, starter := s.starter[id := r],
           reqs := s.reqs[r := s.reqs[r].(pc := Loop(Progress(plan.actions, 0, [])), began := true)])
      else Goto(s, r, BeginMissed(plan)))
  }

  function DoBeginMissed(cfg: Config, s: Sys, r: ReqId, env: Env): (v: Sys)
    requires r in s.reqs && s.reqs[r].pc.BeginMissed?
  {
    var code := if env.fault then 500 else if ClassifyMiss(s.db, s.reqs[r].id) == NotFound then 404 else 409;
    AfterBeginError(cfg, s, r, s.reqs[r].pc.plan, code)
  }

  // ---- execute, the action loop ----------------------------------------------------------

  /** defaultStubExecutor always succeeds. */
  const STUB_OUTCOME := Outcome("{\"status\":\"executed\",\"source\":\"stub\"}", "", true)

  /** Leaving the loop: roll back, or go straight to the final status. */
  function AfterLoop(cfg: Config, p: Progress, failed: bool): (r: Pc) {
    if failed && p.completed > 0 && cfg.canUndo then Undo(p, p.completed, [], 0)
    else Finish(p, if failed then Failed else Completed, [])
  }

  /** The top of the loop, with the pre-state capture of the next action. */
  function DoLoop(cfg: Config, s: Sys, r: ReqId, env: Env): (v: Sys)
    requires r in s.reqs && s.reqs[r].pc.Loop?
  {
    var id, p := s.reqs[r].id, s.reqs[r].pc.p;
    if p.completed >= |p.actions| then Goto(s, r, AfterLoop(cfg, p, false))
    else if cfg.hasDriver then
      var t := TrailOf(s, id);
      Goto(s.(trail := s.trail[id := t.(captures := t.captures + [Capture(r, p.completed)])]),
           r, Act(p.(pres := p.pres + [Some(env.out.post)])))
    else Goto(s, r, Act(p.(pres := p.pres + [None])))
  }

  function DoAct(cfg: Config, s: Sys, r: ReqId, env: Env): (v: Sys)
    requires r in s.reqs && s.reqs[r].pc.Act?
  {
    var id, p := s.reqs[r].id, s.reqs[r].pc.p;
    var out := if cfg.hasDriver then env.out else STUB_OUTCOME;
    var t := TrailOf(s, id);
    Goto(s.(trail := s.trail[id := t.(runs := t.runs + [RunCall(r, p.completed, out)])]), r, Record(p, out))
  }

  /** After RecordActionResult: "not found" leaves the loop as if nothing had failed; other errors are ignored. */
  function AfterRecord(cfg: Config, p: Progress, out: Outcome, found: bool): (r: Pc) {
    if !found then AfterLoop(cfg, p, false)
    else if !out.ok then AfterLoop(cfg, p, true)
    else Loop(p.(completed := p.completed + 1))
  }

  function DoRecord(cfg: Config, s: Sys, r: ReqId, env: Env): (v: Sys)
    requires r in s.reqs && s.reqs[r].pc.Record?
  {
    var id, p, out := s.reqs[r].id, s.reqs[r].pc.p, s.reqs[r].pc.out;
    var rows := Rows(s.db, id);
    if env.fault then
      Goto(s.(lost := s.lost + [RowLost(id, p.completed + 1)]), r, AfterRecord(cfg, p, out, true))
    else if HasRow(rows, p.completed + 1) then
      Goto(s.(db := WithRows(s.db, id, RecordRows(rows, p.completed + 1, out, s.now))), r,
          AfterRecord(cfg, p, out, true))
    else
      Goto(s, r, AfterRecord(cfg, p, out, false))
  }

  // ---- execute, rollback and finish ------------------------------------------------------

  function AfterUndo(p: Progress, rolled: seq<nat>, errs: nat): (r: Pc) {
    Finish(p, if errs == 0 then RolledBack else Failed, rolled)
  }

  function AfterUndoCall(pc: Pc, ok: bool): (r: Pc)
    requires pc.Undo? && pc.next > 0
  {
    if ok then Undo(pc.p, pc.next - 1, pc.rolled + [pc.next], pc.errs)
    else Undo(pc.p, pc.next - 1, pc.rolled, pc.errs + 1)
  }

  /** One turn of the reverse loop: `next` is one more than the index to undo. */
  function DoUndo(s: Sys, r: ReqId, env: Env): (v: Sys)
    requires r in s.reqs && s.reqs[r].pc.Undo?
  {
    var id, pc := s.reqs[r].id, s.reqs[r].pc;
    if pc.next == 0 then
      Goto(s, r, if pc.rolled == [] then AfterUndo(pc.p, [], pc.errs) else Mark(pc.p, pc.rolled, pc.errs))
    else
      var t := TrailOf(s, id);
      Goto(s.(trail := s.trail[id := t.(undos := t.undos + [UndoCall(r, pc.next - 1, env.out.ok)])]), r,
           AfterUndoCall(pc, env.out.ok))
  }

  /** MarkAuditRolledBack, when the store has it; its error counts as a rollback error. */
  function DoMark(cfg: Config, s: Sys, r: ReqId, env: Env): (v: Sys)
    requires r in s.reqs && s.reqs[r].pc.Mark?
  {
    var id, pc := s.reqs[r].id, s.reqs[r].pc;
    if !cfg.hasMarker then Goto(s, r, AfterUndo(pc.p, pc.rolled, pc.errs))
    else if env.fault then
      Goto(s.(lost := s.lost + [MarkLost(id, pc.rolled)]), r, AfterUndo(pc.p, pc.rolled, pc.errs + 1))
    else
      Goto(s.(db := WithRows(s.db, id, MarkRows(Rows(s.db, id), pc.rolled, s.now))),
           r, AfterUndo(pc.p, pc.rolled, pc.errs))
  }

  function DoFinish(s: Sys, r: ReqId, env: Env): (v: Sys)
    requires r in s.reqs && s.reqs[r].pc.Finish?
  {
    var id, pc := s.reqs[r].id, s.reqs[r].pc;
    var cas := FinishCas(s.db, id, pc.final, pc.p.completed, s.now);
    if env.fault || cas.None? then Refuse(s, r, 500)
    else Goto(s.(db := cas.value), r, Done(Finished(pc.final, pc.p.completed, |pc.rolled|)))
  }

  // ---- steps and runs --------------------------------------------------------------------

  function DoExecute(cfg: Config, s: Sys, r: ReqId, env: Env): (v: Sys)
    requires r in s.reqs
  {
    match s.reqs[r].pc
    case ReadPlan => DoReadPlan(s, r, env)
    case TakeWindow(plan) => Goto(s, r, CountStarts(plan, s.now - HOUR))
    case CountStarts(_, _) => DoCount(cfg, s, r, env)
    case TryBegin(_, _) => DoBegin(cfg, s, r, env)
    case BeginMissed(_) => DoBeginMissed(cfg, s, r, env)
    case Loop(_) => DoLoop(cfg, s, r, env)
    case Act(_) => DoAct(cfg, s, r, env)
    case Record(_, _) => DoRecord(cfg, s, r, env)
    case Undo(_, _, _, _) => DoUndo(s, r, env)
    case Mark(_, _, _) => DoMark(cfg, s, r, env)
    case Finish(_, _, _) => DoFinish(s, r, env)
    case Done(_) => s
  }

  function Next(cfg: Config, s: Sys, l: Label): (r: Sys) {
    match l
    case Tick(d) => s.(now := s.now + d)
    case Create(account, actions, author) => s.(db := Insert(s.db, account, actions, author, s.now))
    case AskApprove(r, id, who, note) =>
      if r in s.approvals then s else s.(approvals := s.approvals[r := Approval(id, who, note, Cas)])
    case AskExecute(r, id) =>
      if r in s.reqs then s else s.(reqs := s.reqs[r := NewReq(id)])
    case StepApprove(r, fault) => if r in s.approvals then DoApprove(s, r, fault) else s
    case StepExecute(r, env) => if r in s.reqs then DoExecute(cfg, s, r, env) else s
  }

  function Run(cfg: Config, s: Sys, labels: seq<Label>): (r: Sys) {
    if labels == [] then s else Next(cfg, Run(cfg, s, labels[..|labels| - 1]), labels[|labels| - 1])
  }

  /** The step at which an error of BeginExecution has been written and the handler should return. */
  predicate FallsThrough(s: Sys, l: Label) {
    && l.StepExecute? && l.r in s.reqs
    && ((s.reqs[l.r].pc.TryBegin? && l.env.fault) || s.reqs[l.r].pc.BeginMissed?)
  }
}
