/**
  The promises of the execution engine, over every run from the empty store: one approval and
  one start per plan, the action list run at most once, an audit trail that tells the plan's
  story, and status changes that follow the table.

  Config.earlyExit is free everywhere: what does not hold of the code as written holds of each plan
  that no request has gone on with after failing to begin it (Sys.strayed).
*/
module ExecTheorems {
  import opened Basics
  import opened ExecStore
  import opened ExecProtocol
  import opened ExecInvariant

  ghost function After(cfg: Config, labels: seq<Label>): (r: Sys) {
    Run(cfg, INIT, labels)
  }

  lemma AfterOk(cfg: Config, labels: seq<Label>)
    ensures Inv(cfg, After(cfg, labels))
  {
    InitOk(cfg);
    RunKeeps(cfg, INIT, labels);
  }

  // ---- one winner ------------------------------------------------------------------------

  predicate HasWon(s: Sys, a: ReqId) {
    a in s.approvals && s.approvals[a].pc == Answered(Won)
  }

  predicate HasBegun(s: Sys, r: ReqId) {
    r in s.reqs && s.reqs[r].began
  }

  /** However approves and begins interleave, a plan has at most one successful approve and one successful begin. */
  lemma SingleWinner(cfg: Config, labels: seq<Label>, a: ReqId, b: ReqId)
    ensures var s := After(cfg, labels);
      && (HasWon(s, a) && HasWon(s, b) && s.approvals[a].id == s.approvals[b].id ==> a == b)
      && (HasBegun(s, a) && HasBegun(s, b) && s.reqs[a].id == s.reqs[b].id ==> a == b)
  {
    var s := After(cfg, labels);
    AfterOk(cfg, labels);
    assert ApprovalOk(s, a) && ApprovalOk(s, b) && ReqOk(cfg, s, a) && ReqOk(cfg, s, b);
  }

  /** A plan that has left "planned" was approved by exactly one request; a plan that has started was begun by one. */
  lemma WinnerExists(cfg: Config, labels: seq<Label>, id: PlanId)
    ensures var s := After(cfg, labels);
      id in s.db.plans ==>
        && (s.db.plans[id].status != Planned <==>
              exists a :: HasWon(s, a) && s.approvals[a].id == id)
        && (s.db.plans[id].startedAt.Some? <==> exists r :: HasBegun(s, r) && s.reqs[r].id == id)
  {
    var s := After(cfg, labels);
    AfterOk(cfg, labels);
    if id in s.db.plans {
      assert PlanOk(cfg, s, id) && WinnerOk(s, id);
      if id in s.winner { assert ApprovalOk(s, s.winner[id]); assert HasWon(s, s.winner[id]); }
      forall a | HasWon(s, a) && s.approvals[a].id == id ensures id in s.winner {
        assert ApprovalOk(s, a);
      }
      forall r | HasBegun(s, r) && s.reqs[r].id == id ensures id in s.starter {
        assert ReqOk(cfg, s, r);
      }
      if id in s.starter { assert OwnerReq(s, id).Some?; assert HasBegun(s, s.starter[id]); }
    }
  }

  /** The answers an approve of an existing plan can still get. */
  ghost predicate NotMissing(s: Sys, a: ReqId) {
    && a in s.approvals && s.approvals[a].id in s.db.plans
    && s.approvals[a].pc in {Cas, Missed, Answered(Won), Answered(Lost(Conflict)), Answered(Lost(Fault))}
  }

  lemma NotMissingApprove(s: Sys, b: ReqId, fault: bool, a: ReqId)
    requires NotMissing(s, a) && b in s.approvals
    ensures NotMissing(DoApprove(s, b, fault), a)
  {
  }

  lemma NotMissingExecute(cfg: Config, s: Sys, r: ReqId, env: Env, a: ReqId)
    requires NotMissing(s, a) && r in s.reqs
    ensures NotMissing(DoExecute(cfg, s, r, env), a)
  {
    PlanWrites(cfg, s, r, env);
    StillThere(s, DoExecute(cfg, s, r, env), s.reqs[r], env, a);
  }

  lemma StillThere(s: Sys, s2: Sys, q: Req, env: Env, a: ReqId)
    requires NotMissing(s, a) && PlanWrite(s, s2, q, env)
    ensures NotMissing(s2, a)
  {
  }

  lemma NotMissingStep(cfg: Config, s: Sys, l: Label, a: ReqId)
    requires NotMissing(s, a)
    ensures NotMissing(Next(cfg, s, l), a)
  {
    match l
    case StepApprove(b, fault) => if b in s.approvals { NotMissingApprove(s, b, fault, a); }
    case StepExecute(r, env) => if r in s.reqs { NotMissingExecute(cfg, s, r, env, a); }
    case Create(_, _, _) =>
    case _ =>
  }

  /** Only BeginExecution and FinishExecution write exec_plans, and only their request's row. */
  ghost predicate PlanWrite(s: Sys, s2: Sys, q: Req, env: Env) {
    && s2.approvals == s.approvals
    && (s2.db.plans == s.db.plans
        || (q.id in s.db.plans && q.pc.TryBegin? && BeginGuard(s, q.id, env)
            && s2.db.plans == s.db.plans[q.id :=
                 s.db.plans[q.id].(status := Running, startedAt := Some(s.now), actionsTotal := |q.pc.plan.actions|)])
        || (q.id in s.db.plans && q.pc.Finish?
            && s2.db.plans == s.db.plans[q.id :=
                 s.db.plans[q.id].(status := q.pc.final, actionsCompleted := q.pc.p.completed,
                     completedAt := Some(s.now))]))
  }

  lemma EarlyWrites(cfg: Config, s: Sys, r: ReqId, env: Env)
    requires r in s.reqs && (s.reqs[r].pc.ReadPlan? || HasSnapshot(s.reqs[r].pc))
    ensures PlanWrite(s, DoExecute(cfg, s, r, env), s.reqs[r], env)
  {
  }

  lemma LoopWrites(cfg: Config, s: Sys, r: ReqId, env: Env)
    requires r in s.reqs && (s.reqs[r].pc.Loop? || s.reqs[r].pc.Act? || s.reqs[r].pc.Record?)
    ensures PlanWrite(s, DoExecute(cfg, s, r, env), s.reqs[r], env)
  {
  }

  lemma EndWrites(cfg: Config, s: Sys, r: ReqId, env: Env)
    requires r in s.reqs && (s.reqs[r].pc.Undo? || s.reqs[r].pc.Mark? || s.reqs[r].pc.Finish? || s.reqs[r].pc.Done?)
    ensures PlanWrite(s, DoExecute(cfg, s, r, env), s.reqs[r], env)
  {
  }

  lemma PlanWrites(cfg: Config, s: Sys, r: ReqId, env: Env)
    requires r in s.reqs
    ensures PlanWrite(s, DoExecute(cfg, s, r, env), s.reqs[r], env)
  {
    match s.reqs[r].pc
    case Loop(_) => LoopWrites(cfg, s, r, env);
    case Act(_) => LoopWrites(cfg, s, r, env);
    case Record(_, _) => LoopWrites(cfg, s, r, env);
    case Undo(_, _, _, _) => EndWrites(cfg, s, r, env);
    case Mark(_, _, _) => EndWrites(cfg, s, r, env);
    case Finish(_, _, _) => EndWrites(cfg, s, r, env);
    case Done(_) => EndWrites(cfg, s, r, env);
    case _ => EarlyWrites(cfg, s, r, env);
  }

  /** A step of r writes r alone, and r comes to stand before BeginExecution only from the rate check. */
  ghost predicate RequestWrite(s: Sys, s2: Sys, r: ReqId)
    requires r in s.reqs
  {
    && r in s2.reqs && s2.reqs == s.reqs[r := s2.reqs[r]]
    && (s2.reqs[r].pc.TryBegin? ==> s.reqs[r].pc.CountStarts?)
  }

  lemma EarlyRequestWrites(cfg: Config, s: Sys, r: ReqId, env: Env)
    requires r in s.reqs && (s.reqs[r].pc.ReadPlan? || s.reqs[r].pc.TakeWindow? || s.reqs[r].pc.CountStarts?)
    ensures RequestWrite(s, DoExecute(cfg, s, r, env), r)
  {
  }

  lemma BeginRequestWrites(cfg: Config, s: Sys, r: ReqId, env: Env)
    requires r in s.reqs && (s.reqs[r].pc.TryBegin? || s.reqs[r].pc.BeginMissed?)
    ensures RequestWrite(s, DoExecute(cfg, s, r, env), r)
  {
  }

  lemma LoopRequestWrites(cfg: Config, s: Sys, r: ReqId, env: Env)
    requires r in s.reqs && (s.reqs[r].pc.Loop? || s.reqs[r].pc.Act? || s.reqs[r].pc.Record?)
    ensures RequestWrite(s, DoExecute(cfg, s, r, env), r)
  {
  }

  lemma EndRequestWrites(cfg: Config, s: Sys, r: ReqId, env: Env)
    requires r in s.reqs && (s.reqs[r].pc.Undo? || s.reqs[r].pc.Mark? || s.reqs[r].pc.Finish? || s.reqs[r].pc.Done?)
    ensures RequestWrite(s, DoExecute(cfg, s, r, env), r)
  {
  }

  lemma RequestWrites(cfg: Config, s: Sys, r: ReqId, env: Env)
    requires r in s.reqs
    ensures RequestWrite(s, DoExecute(cfg, s, r, env), r)
  {
    match s.reqs[r].pc
    case TryBegin(_, _) => BeginRequestWrites(cfg, s, r, env);
    case BeginMissed(_) => BeginRequestWrites(cfg, s, r, env);
    case Loop(_) => LoopRequestWrites(cfg, s, r, env);
    case Act(_) => LoopRequestWrites(cfg, s, r, env);
    case Record(_, _) => LoopRequestWrites(cfg, s, r, env);
    case Undo(_, _, _, _) => EndRequestWrites(cfg, s, r, env);
    case Mark(_, _, _) => EndRequestWrites(cfg, s, r, env);
    case Finish(_, _, _) => EndRequestWrites(cfg, s, r, env);
    case Done(_) => EndRequestWrites(cfg, s, r, env);
    case _ => EarlyRequestWrites(cfg, s, r, env);
  }

  /**
    The classification after a missed compare-and-set is a second read, but an approve of a plan
    that exists is never told that the plan is missing, whatever runs in between.
  */
  lemma {:induction false} LoserSeesConflict(cfg: Config, s: Sys, labels: seq<Label>, a: ReqId)
    requires NotMissing(s, a)
    ensures NotMissing(Run(cfg, s, labels), a)
  {
    if labels != [] {
      LoserSeesConflict(cfg, s, labels[..|labels| - 1], a);
      NotMissingStep(cfg, Run(cfg, s, labels[..|labels| - 1]), labels[|labels| - 1], a);
    }
  }

  /** The compare-and-set of an approve wins exactly when the plan is still "planned", and leaves it decided. */
  lemma ApproveDecides(cfg: Config, s: Sys, a: ReqId)
    requires a in s.approvals && s.approvals[a].pc == Cas && s.approvals[a].id in s.db.plans
    ensures var s2 := Next(cfg, s, StepApprove(a, false));
      var id := s.approvals[a].id;
      && s2.db.plans[id].status != Planned
      && (s2.approvals[a].pc == Answered(Won) <==> s.db.plans[id].status == Planned)
      && (s.db.plans[id].status != Planned ==> s2.db == s.db)
  {
  }

  lemma Extend(cfg: Config, labels: seq<Label>, l: Label)
    ensures After(cfg, labels + [l]) == Next(cfg, After(cfg, labels), l)
  {
    assert (labels + [l])[..|labels|] == labels;
  }

  lemma {:induction false} RunOn(cfg: Config, before: seq<Label>, l: Label, labels: seq<Label>)
    ensures After(cfg, before + [l] + labels) == Run(cfg, Next(cfg, After(cfg, before), l), labels)
  {
    if labels == [] {
      Extend(cfg, before, l);
      assert before + [l] + [] == before + [l];
    } else {
      var front, last := labels[..|labels| - 1], labels[|labels| - 1];
      RunOn(cfg, before, l, front);
      Extend(cfg, before + [l] + front, last);
      assert before + [l] + front + [last] == before + [l] + labels;
    }
  }

  /** A plan that has been decided. */
  ghost predicate Decided(s: Sys, id: PlanId) { id in s.db.plans && s.db.plans[id].status != Planned }

  lemma DecidedExecute(cfg: Config, s: Sys, r: ReqId, env: Env, id: PlanId)
    requires Inv(cfg, s) && Decided(s, id) && r in s.reqs
    ensures Decided(DoExecute(cfg, s, r, env), id)
  {
    assert ReqOk(cfg, s, r);
    PlanWrites(cfg, s, r, env);
  }

  lemma DecidedApprove(s: Sys, a: ReqId, fault: bool, id: PlanId)
    requires Decided(s, id) && a in s.approvals
    ensures Decided(DoApprove(s, a, fault), id)
  {
  }

  lemma DecidedStep(cfg: Config, s: Sys, l: Label, id: PlanId)
    requires Inv(cfg, s) && Decided(s, id)
    ensures Decided(Next(cfg, s, l), id)
  {
    match l
    case StepExecute(r, env) => if r in s.reqs { DecidedExecute(cfg, s, r, env, id); }
    case StepApprove(a, fault) => if a in s.approvals { DecidedApprove(s, a, fault, id); }
    case Create(_, _, _) => assert PlanOk(cfg, s, id);
    case _ =>
  }

  lemma {:induction false} DecidedAlong(cfg: Config, s: Sys, labels: seq<Label>, id: PlanId)
    requires Inv(cfg, s) && Decided(s, id)
    ensures Decided(Run(cfg, s, labels), id)
  {
    if labels != [] {
      var front := labels[..|labels| - 1];
      DecidedAlong(cfg, s, front, id);
      RunKeeps(cfg, s, front);
      DecidedStep(cfg, Run(cfg, s, front), labels[|labels| - 1], id);
    }
  }

  /**
    Once an approve of an existing plan has taken its compare-and-set without a fault, exactly one
    approve of the plan has won, then and ever after.
  */
  lemma OneApproveWins(cfg: Config, before: seq<Label>, a: ReqId, labels: seq<Label>)
    requires var s := After(cfg, before);
      a in s.approvals && s.approvals[a].pc == Cas && s.approvals[a].id in s.db.plans
    ensures var s, s2 := After(cfg, before), After(cfg, before + [StepApprove(a, false)] + labels);
      exists w :: Wins(s2, w, s.approvals[a].id) && forall b :: Wins(s2, b, s.approvals[a].id) ==> b == w
  {
    var s, l := After(cfg, before), StepApprove(a, false);
    var id, all := s.approvals[a].id, before + [l] + labels;
    AfterOk(cfg, before);
    NextKeeps(cfg, s, l);
    ApproveDecides(cfg, s, a);
    DecidedAlong(cfg, Next(cfg, s, l), labels, id);
    RunOn(cfg, before, l, labels);
    WinnerExists(cfg, all, id);
    var w :| HasWon(After(cfg, all), w) && After(cfg, all).approvals[w].id == id;
    assert Wins(After(cfg, all), w, id);
    forall b | Wins(After(cfg, all), b, id) ensures b == w { SingleWinner(cfg, all, b, w); }
  }

  /** Approve request w for the plan has won. */
  ghost predicate Wins(s: Sys, w: ReqId, id: PlanId) { HasWon(s, w) && s.approvals[w].id == id }

  /** Audit rows are seeded once per started plan, with numbers 1..n, and never before. */
  lemma SeededOnce(cfg: Config, labels: seq<Label>, id: PlanId)
    ensures var s := After(cfg, labels);
      id in s.db.plans ==>
        if s.db.plans[id].startedAt.Some? then Seeded(Rows(s.db, id), s.db.plans[id].actions) else Rows(s.db, id) == []
  {
    AfterOk(cfg, labels);
    assert PlanOk(cfg, After(cfg, labels), id);
  }

  // ---- at most once ----------------------------------------------------------------------

  /**
    What was called for a plan: all by one request; the actions in order from the first, each
    one after a capture of its own (with a driver), stopping at the first failure; and
    rollbacks only after a failure, of the completed actions in reverse order.
  */
  ghost predicate OnceInOrder(cfg: Config, t: Trail, r: ReqId, n: nat) {
    && |t.runs| <= n
    && (forall i :: 0 <= i < |t.runs| ==> t.runs[i].req == r && t.runs[i].index == i)
    && (forall i :: 0 <= i < |t.runs| - 1 ==> t.runs[i].out.ok)
    && |t.runs| <= (if cfg.hasDriver then |t.captures| else |t.runs|)
    && |t.captures| <= (if cfg.hasDriver then |t.runs| + 1 else 0)
    && (forall i :: 0 <= i < |t.captures| ==> t.captures[i] == Capture(r, i))
    && (t.undos != [] ==> |t.runs| > 0 && !t.runs[|t.runs| - 1].out.ok && |t.undos| < |t.runs|)
    && (forall k :: 0 <= k < |t.undos| ==> t.undos[k].req == r && t.undos[k].index == |t.runs| - 2 - k)
  }

  lemma SettledOnce(cfg: Config, actions: seq<Action>, rows: seq<AuditRow>, t: Trail, lost: Losses,
                    r: ReqId, c: nat, final: Status)
    requires Settled(cfg, actions, rows, t, lost, r, c, final)
    ensures OnceInOrder(cfg, t, r, |actions|)
  {
  }

  lemma OwnerOnce(cfg: Config, plan: Plan, rows: seq<AuditRow>, t: Trail, lost: Losses, r: ReqId, pc: Pc)
    requires OwnerOk(cfg, plan, rows, t, lost, r, pc)
    ensures OnceInOrder(cfg, t, r, |plan.actions|)
  {
    match pc
    case Finish(p, final, _) => SettledOnce(cfg, plan.actions, rows, t, lost, r, p.completed, final);
    case Done(Finished(final, c, _)) => SettledOnce(cfg, plan.actions, rows, t, lost, r, c, final);
    case Done(Refused(_)) =>
      var c: nat, final :| Settled(cfg, plan.actions, rows, t, lost, r, c, final);
      SettledOnce(cfg, plan.actions, rows, t, lost, r, c, final);
    case _ =>
  }

  /** The plan that a step goes on with unbegun. */
  ghost function NewlyStrayed(cfg: Config, s: Sys, l: Label): (r: set<PlanId>) {
    if !cfg.earlyExit && FallsThrough(s, l) then {s.reqs[l.r].id} else {}
  }

  lemma BeginStrays(cfg: Config, s: Sys, r: ReqId, env: Env)
    requires r in s.reqs && (s.reqs[r].pc.TryBegin? || s.reqs[r].pc.BeginMissed?)
    ensures DoExecute(cfg, s, r, env).strayed == s.strayed + NewlyStrayed(cfg, s, StepExecute(r, env))
  {
  }

  lemma LoopStrays(cfg: Config, s: Sys, r: ReqId, env: Env)
    requires r in s.reqs && (s.reqs[r].pc.Loop? || s.reqs[r].pc.Act? || s.reqs[r].pc.Record?)
    ensures DoExecute(cfg, s, r, env).strayed == s.strayed
  {
  }

  lemma EndStrays(cfg: Config, s: Sys, r: ReqId, env: Env)
    requires r in s.reqs && (s.reqs[r].pc.Undo? || s.reqs[r].pc.Mark? || s.reqs[r].pc.Finish? || s.reqs[r].pc.Done?)
    ensures DoExecute(cfg, s, r, env).strayed == s.strayed
  {
  }

  lemma ExecuteStrays(cfg: Config, s: Sys, r: ReqId, env: Env)
    requires r in s.reqs
    ensures DoExecute(cfg, s, r, env).strayed == s.strayed + NewlyStrayed(cfg, s, StepExecute(r, env))
  {
    var pc := s.reqs[r].pc;
    if pc.TryBegin? || pc.BeginMissed? { BeginStrays(cfg, s, r, env); }
    else if pc.Loop? || pc.Act? || pc.Record? { LoopStrays(cfg, s, r, env); }
    else if pc.Undo? || pc.Mark? || pc.Finish? || pc.Done? { EndStrays(cfg, s, r, env); }
  }

  lemma StepStrays(cfg: Config, s: Sys, l: Label)
    ensures Next(cfg, s, l).strayed == s.strayed + NewlyStrayed(cfg, s, l)
  {
    if l.StepExecute? && l.r in s.reqs { ExecuteStrays(cfg, s, l.r, l.env); }
  }

  /** The n-th label goes on with plan id unbegun. */
  ghost predicate StraysAt(cfg: Config, labels: seq<Label>, n: nat, id: PlanId)
    requires n < |labels|
  {
    id in NewlyStrayed(cfg, After(cfg, labels[..n]), labels[n])
  }

  /** A plan has been strayed into exactly when some request for it, its begin having failed, has gone on. */
  lemma {:induction false} StrayedExactly(cfg: Config, labels: seq<Label>, id: PlanId)
    ensures id in After(cfg, labels).strayed <==> exists n :: 0 <= n < |labels| && StraysAt(cfg, labels, n, id)
  {
    if labels != [] {
      var m := |labels| - 1;
      var front := labels[..m];
      StrayedExactly(cfg, front, id);
      StepStrays(cfg, After(cfg, front), labels[m]);
      assert StraysAt(cfg, labels, m, id) <==> id in NewlyStrayed(cfg, After(cfg, front), labels[m]);
      forall n | 0 <= n < m ensures StraysAt(cfg, front, n, id) <==> StraysAt(cfg, labels, n, id) {
        assert front[..n] == labels[..n];
      }
    }
  }

  /** With the early exit no plan is ever gone on with unbegun, so the theorems below hold of every plan. */
  lemma {:induction false} NoneStrays(cfg: Config, labels: seq<Label>)
    requires cfg.earlyExit
    ensures After(cfg, labels).strayed == {}
  {
    if labels != [] {
      var front := labels[..|labels| - 1];
      NoneStrays(cfg, front);
      StepStrays(cfg, After(cfg, front), labels[|labels| - 1]);
    }
  }

  /**
    Nothing is called for a plan that has not been begun, and the rest is once and in order, while nobody
    has strayed into it.
  */
  lemma AtMostOnce(cfg: Config, labels: seq<Label>, id: PlanId)
    requires id !in After(cfg, labels).strayed
    ensures var s := After(cfg, labels);
      if id in s.starter then id in s.db.plans && OnceInOrder(cfg, TrailOf(s, id), s.starter[id],
          |s.db.plans[id].actions|)
      else TrailOf(s, id) == NO_TRAIL
  {
    var s := After(cfg, labels);
    AfterOk(cfg, labels);
    assert PlanOk(cfg, s, id);
    if id in s.starter {
      OwnerOnce(cfg, s.db.plans[id], Rows(s.db, id), TrailOf(s, id), LostOf(s, id), s.starter[id],
                s.reqs[s.starter[id]].pc);
    }
  }

  // ---- the audit trail -------------------------------------------------------------------

  predicate IsDone(row: AuditRow) {
    row.status == SuccessRow || row.status == RolledBackRow
  }

  function CountDone(rows: seq<AuditRow>): (r: nat) {
    CountRows(rows, SuccessRow) + CountRows(rows, RolledBackRow)
  }

  /** The final status as it can be read off the audit rows. */
  function Verdict(rows: seq<AuditRow>): (r: Status) {
    if forall i :: 0 <= i < |rows| ==> rows[i].status != FailedRow then Completed
    else if CountDone(rows) > 0 && forall i :: 0 <= i < |rows| ==> rows[i].status != SuccessRow then RolledBack
    else Failed
  }

  /** Completed rows, then one failed row unless all completed, then pending rows. */
  predicate RowShape(rows: seq<AuditRow>, c: nat) {
    && c <= |rows|
    && (forall i :: 0 <= i < c ==> IsDone(rows[i]))
    && (c < |rows| ==> rows[c].status == FailedRow)
    && (forall i :: c < i < |rows| ==> rows[i].status == PendingRow)
  }

  lemma {:induction false} CountShape(rows: seq<AuditRow>, c: nat, n: nat)
    requires RowShape(rows, c) && n <= |rows|
    ensures CountDone(rows[..n]) == if n <= c then n else c
  {
    if n > 0 {
      CountShape(rows, c, n - 1);
      assert rows[..n][..n - 1] == rows[..n - 1];
    }
  }

  lemma SettledShape(cfg: Config, actions: seq<Action>, rows: seq<AuditRow>, t: Trail, r: ReqId, c: nat, final: Status)
    requires cfg.hasMarker && Seeded(rows, actions) && Settled(cfg, actions, rows, t, NO_LOSSES, r, c, final)
    ensures RowShape(rows, c) && CountDone(rows) == c && Verdict(rows) == final
  {
    assert forall i :: 0 <= i < |rows| ==> RowRecords(rows[i], i, t, c, final != Completed, final != Completed);
    assert RowShape(rows, c);
    CountShape(rows, c, |rows|);
    assert rows[..|rows|] == rows;
    if final != Completed {
      assert rows[c].status == FailedRow;
      AllMarked(rows, t, c);
      if !cfg.canUndo && c > 0 { assert !Undone(t, c, 0); }
    }
  }

  /** All completed actions are undone exactly when no row still says success. */
  lemma AllMarked(rows: seq<AuditRow>, t: Trail, c: nat)
    requires c < |rows| && |t.runs| == c + 1
    requires forall i :: 0 <= i < |rows| ==> RowRecords(rows[i], i, t, c, true, true)
    ensures AllUndone(t, c) <==> forall i :: 0 <= i < |rows| ==> rows[i].status != SuccessRow
  {
    forall i | 0 <= i < |rows| ensures rows[i].status == SuccessRow <==> i < c && !Undone(t, c, i) {
      assert RowRecords(rows[i], i, t, c, true, true);
    }
  }

  /**
    Whatever writes were lost, of a finished plan that nobody has strayed into: actions_completed is
    the number of successful calls, the final status is told by the calls and by whether the marking
    was lost, and each row of which no write was lost is the record of its call.
  */
  lemma RowsAgree(cfg: Config, labels: seq<Label>, id: PlanId)
    requires var s := After(cfg, labels);
      id !in s.strayed && id in s.db.plans && s.db.plans[id].status in {Completed, Failed, RolledBack}
    ensures var s := After(cfg, labels);
      var plan, rows, t, lost := s.db.plans[id], Rows(s.db, id), TrailOf(s, id), LostOf(s, id);
      var c, failed := plan.actionsCompleted, plan.status != Completed;
      && Seeded(rows, plan.actions)
      && c <= |rows| && (failed <==> c < |rows|)
      && |t.runs| == (if failed then c + 1 else c)
      && (forall i :: 0 <= i < |t.runs| ==> t.runs[i].index == i && (t.runs[i].out.ok <==> i < c))
      && (forall i :: 0 <= i < |rows| && i + 1 !in lost.rows ==>
            RowRecords(rows[i], i, t, c, failed, failed && cfg.hasMarker))
      && (plan.status == RolledBack <==> failed && cfg.canUndo && c > 0 && AllUndone(t, c) && !lost.mark)
  {
    SettledAt(cfg, labels, id);
  }

  lemma SettledAt(cfg: Config, labels: seq<Label>, id: PlanId)
    requires var s := After(cfg, labels);
      id !in s.strayed && id in s.db.plans && s.db.plans[id].status in {Completed, Failed, RolledBack}
    ensures var s := After(cfg, labels);
      var plan := s.db.plans[id];
      && Seeded(Rows(s.db, id), plan.actions) && id in s.starter
      && Settled(cfg, plan.actions, Rows(s.db, id), TrailOf(s, id), LostOf(s, id), s.starter[id],
          plan.actionsCompleted, plan.status)
  {
    var s := After(cfg, labels);
    AfterOk(cfg, labels);
    assert PlanOk(cfg, s, id);
    var pc := s.reqs[s.starter[id]].pc;
    assert OwnerOk(cfg, s.db.plans[id], Rows(s.db, id), TrailOf(s, id), LostOf(s, id), s.starter[id], pc);
    assert pc.Done? && pc.resp.Finished?;
  }

  /**
    With a marker store and no lost write, a finished plan and its audit rows agree: the shape of
    the rows, actions_completed, the final status, and each row's post-state and error.
  */
  lemma AuditAgrees(cfg: Config, labels: seq<Label>, id: PlanId)
    requires cfg.hasMarker
    requires var s := After(cfg, labels);
      && id !in s.strayed && LostOf(s, id) == NO_LOSSES
      && id in s.db.plans && s.db.plans[id].status in {Completed, Failed, RolledBack}
    ensures var s := After(cfg, labels);
      var plan, rows, t := s.db.plans[id], Rows(s.db, id), TrailOf(s, id);
      && Seeded(rows, plan.actions)
      && RowShape(rows, plan.actionsCompleted)
      && plan.actionsCompleted == CountDone(rows)
      && plan.status == Verdict(rows)
      && |t.runs| == (if plan.status == Completed then plan.actionsCompleted else plan.actionsCompleted + 1)
      && (forall i :: 0 <= i < |t.runs| ==>
            i < |rows| && rows[i].postState == NonEmpty(t.runs[i].out.post)
                && rows[i].error == NonEmpty(t.runs[i].out.err))
  {
    SettledAt(cfg, labels, id);
    RowsAgree(cfg, labels, id);
    var s := After(cfg, labels);
    var plan := s.db.plans[id];
    SettledShape(cfg, plan.actions, Rows(s.db, id), TrailOf(s, id), s.starter[id], plan.actionsCompleted, plan.status);
  }

  /** After its own successful begin a request finds the row to update: its "not found" exit is never taken. */
  lemma NotFoundUnreachable(cfg: Config, labels: seq<Label>, r: ReqId)
    requires var s := After(cfg, labels); r in s.reqs && s.reqs[r].pc.Record? && s.reqs[r].began
    ensures var s := After(cfg, labels); HasRow(Rows(s.db, s.reqs[r].id), s.reqs[r].pc.p.completed + 1)
  {
    AfterOk(cfg, labels);
    RowIsThere(cfg, After(cfg, labels), r);
  }

  lemma RowIsThere(cfg: Config, s: Sys, r: ReqId)
    requires Inv(cfg, s) && r in s.reqs && s.reqs[r].pc.Record? && s.reqs[r].began
    ensures HasRow(Rows(s.db, s.reqs[r].id), s.reqs[r].pc.p.completed + 1)
  {
    var q := s.reqs[r];
    assert ReqOk(cfg, s, r) && PlanOk(cfg, s, q.id);
    assert Rows(s.db, q.id)[q.pc.p.completed].seqNo == q.pc.p.completed + 1;
  }

  // ---- status changes --------------------------------------------------------------------

  /** An edge of the table, or running to rolled_back, which is written in one go. */
  predicate TableStep(from: Status, to: Status) {
    CanTransition(from, to) || (from == Running && to == RolledBack)
  }

  predicate IsFinal(st: Status) {
    st == Completed || st == Failed || st == RolledBack || st == Rejected
  }

  /** How a row of exec_plans may change in one step. */
  ghost predicate RowStep(p: Plan, p2: Plan) {
    && (p2.status == p.status || TableStep(p.status, p2.status))
    && (IsFinal(p.status) ==> p2 == p)
  }

  lemma FinishStep(cfg: Config, s: Sys, r: ReqId)
    requires Inv(cfg, s) && r in s.reqs && s.reqs[r].pc.Finish? && s.reqs[r].id !in s.strayed
    ensures s.reqs[r].id in s.db.plans && s.db.plans[s.reqs[r].id].status == Running
    ensures TableStep(Running, s.reqs[r].pc.final)
  {
    GoodAt(cfg, s, r);
  }

  lemma ExecuteStatus(cfg: Config, s: Sys, r: ReqId, env: Env, id: PlanId)
    requires Inv(cfg, s) && id in s.db.plans && r in s.reqs && id !in s.strayed
    ensures id in DoExecute(cfg, s, r, env).db.plans && RowStep(s.db.plans[id], DoExecute(cfg, s, r, env).db.plans[id])
  {
    PlanWrites(cfg, s, r, env);
    if s.reqs[r].pc.Finish? && s.reqs[r].id == id { FinishStep(cfg, s, r); }
  }

  lemma ApproveStatus(s: Sys, a: ReqId, fault: bool, id: PlanId)
    requires a in s.approvals && id in s.db.plans
    ensures id in DoApprove(s, a, fault).db.plans && RowStep(s.db.plans[id], DoApprove(s, a, fault).db.plans[id])
  {
  }

  lemma StatusStep(cfg: Config, s: Sys, l: Label, id: PlanId)
    requires Inv(cfg, s) && id in s.db.plans && id !in s.strayed
    ensures id in Next(cfg, s, l).db.plans && RowStep(s.db.plans[id], Next(cfg, s, l).db.plans[id])
  {
    match l
    case StepExecute(r, env) => if r in s.reqs { ExecuteStatus(cfg, s, r, env, id); }
    case Create(_, _, _) => assert PlanOk(cfg, s, id);
    case StepApprove(a, fault) => if a in s.approvals { ApproveStatus(s, a, fault, id); }
    case _ =>
  }

  /**
    Every status change of every interleaving is an edge of the table, or running to rolled_back, while
    nobody has strayed into the plan.
  */
  lemma StatusFollowsTable(cfg: Config, labels: seq<Label>, l: Label, id: PlanId)
    requires id in After(cfg, labels).db.plans && id !in After(cfg, labels).strayed
    ensures var s, s2 := After(cfg, labels), After(cfg, labels + [l]);
      id in s2.db.plans && RowStep(s.db.plans[id], s2.db.plans[id])
  {
    AfterOk(cfg, labels);
    assert (labels + [l])[..|labels|] == labels;
    StatusStep(cfg, After(cfg, labels), l, id);
  }

  /** Once final, a plan's row never changes again, while nobody strays into the plan. */
  lemma {:induction false} FinalStays(cfg: Config, s: Sys, labels: seq<Label>, id: PlanId)
    requires Inv(cfg, s) && id in s.db.plans && IsFinal(s.db.plans[id].status)
    requires labels != [] ==> id !in Run(cfg, s, labels[..|labels| - 1]).strayed
    ensures id in Run(cfg, s, labels).db.plans && Run(cfg, s, labels).db.plans[id] == s.db.plans[id]
  {
    if labels != [] {
      var front := labels[..|labels| - 1];
      if front != [] { StrayedBefore(cfg, s, front); }
      FinalStays(cfg, s, front, id);
      RunKeeps(cfg, s, front);
      StatusStep(cfg, Run(cfg, s, front), labels[|labels| - 1], id);
    }
  }

  lemma StrayedBefore(cfg: Config, s: Sys, labels: seq<Label>)
    requires labels != []
    ensures Run(cfg, s, labels[..|labels| - 1]).strayed <= Run(cfg, s, labels).strayed
  {
    StepStrays(cfg, Run(cfg, s, labels[..|labels| - 1]), labels[|labels| - 1]);
  }

  /** started_at is set exactly in the four started statuses, so the rate count's status filter is redundant. */
  lemma StartedExactly(cfg: Config, labels: seq<Label>, id: PlanId, account: string, since: Time)
    requires id in After(cfg, labels).db.plans && id !in After(cfg, labels).strayed
    ensures var p := After(cfg, labels).db.plans[id];
      && (p.startedAt.Some? <==> HasStarted(p.status))
      && (Counts(p, account, since) <==> p.account == account && p.startedAt.Some? && p.startedAt.value >= since)
  {
    AfterOk(cfg, labels);
    assert PlanOk(cfg, After(cfg, labels), id);
  }

  /** As written, too, a started plan always counts: the filter loses nothing. */
  lemma FilterRedundant(cfg: Config, labels: seq<Label>, id: PlanId)
    ensures var s := After(cfg, labels);
      id in s.db.plans && s.db.plans[id].startedAt.Some? ==> HasStarted(s.db.plans[id].status)
  {
    AfterOk(cfg, labels);
    assert PlanOk(cfg, After(cfg, labels), id);
  }
}
