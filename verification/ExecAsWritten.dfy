/**
  The handler as it is written: after a failed BeginExecution it answers with an error and goes
  on to run the actions.  When this differs from the handler that returns, and what it then does.
*/
module ExecAsWritten {
  import opened Basics
  import opened ExecStore
  import opened ExecProtocol
  import opened ExecInvariant
  import opened ExecTheorems
  import opened ExecCalls

  function AsWritten(cfg: Config): (r: Config) { cfg.(earlyExit := false) }

  function WithReturn(cfg: Config): (r: Config) { cfg.(earlyExit := true) }

  /** A step that is not a fall-through is the same in both handlers; a fall-through never is. */
  lemma SameStep(cfg: Config, s: Sys, l: Label)
    ensures Next(AsWritten(cfg), s, l) == Next(WithReturn(cfg), s, l) <==> !FallsThrough(s, l)
  {
    if l.StepExecute? && l.r in s.reqs {
      SameExecute(cfg, s, l.r, l.env);
    }
  }

  lemma SameBegin(cfg: Config, s: Sys, r: ReqId, env: Env)
    requires r in s.reqs && (s.reqs[r].pc.TryBegin? || s.reqs[r].pc.BeginMissed?)
    ensures DoExecute(AsWritten(cfg), s, r, env) == DoExecute(WithReturn(cfg), s, r, env)
      <==> !FallsThrough(s, StepExecute(r, env))
  {
    if FallsThrough(s, StepExecute(r, env)) {
      assert DoExecute(AsWritten(cfg), s, r, env).reqs[r].pc.Loop?;
      assert DoExecute(WithReturn(cfg), s, r, env).reqs[r].pc.Done?;
    }
  }

  lemma SameLoop(cfg: Config, s: Sys, r: ReqId, env: Env)
    requires r in s.reqs && (s.reqs[r].pc.Loop? || s.reqs[r].pc.Act? || s.reqs[r].pc.Record?)
    ensures DoExecute(AsWritten(cfg), s, r, env) == DoExecute(WithReturn(cfg), s, r, env)
  {
  }

  lemma SameExecute(cfg: Config, s: Sys, r: ReqId, env: Env)
    requires r in s.reqs
    ensures DoExecute(AsWritten(cfg), s, r, env) == DoExecute(WithReturn(cfg), s, r, env)
      <==> !FallsThrough(s, StepExecute(r, env))
  {
    var pc := s.reqs[r].pc;
    if pc.TryBegin? || pc.BeginMissed? {
      SameBegin(cfg, s, r, env);
    } else if pc.Loop? || pc.Act? || pc.Record? {
      SameLoop(cfg, s, r, env);
    }
  }

  /** After n labels the two handlers have come to the same state. */
  ghost predicate SameAt(cfg: Config, s: Sys, labels: seq<Label>, n: nat)
    requires n <= |labels|
  {
    Run(AsWritten(cfg), s, labels[..n]) == Run(WithReturn(cfg), s, labels[..n])
  }

  /** The n-th label of the run as written falls through. */
  ghost predicate FallsAt(cfg: Config, s: Sys, labels: seq<Label>, n: nat)
    requires n < |labels|
  {
    FallsThrough(Run(AsWritten(cfg), s, labels[..n]), labels[n])
  }

  lemma InFront(cfg: Config, s: Sys, labels: seq<Label>, m: nat, n: nat)
    requires n <= m <= |labels|
    ensures SameAt(cfg, s, labels[..m], n) <==> SameAt(cfg, s, labels, n)
    ensures n < m ==> (FallsAt(cfg, s, labels[..m], n) <==> FallsAt(cfg, s, labels, n))
  {
    assert labels[..m][..n] == labels[..n];
  }

  lemma SameLast(cfg: Config, s: Sys, labels: seq<Label>)
    requires labels != [] && SameAt(cfg, s, labels, |labels| - 1)
    ensures SameAt(cfg, s, labels, |labels|) <==> !FallsAt(cfg, s, labels, |labels| - 1)
  {
    assert labels[..|labels|] == labels;
    SameStep(cfg, Run(AsWritten(cfg), s, labels[..|labels| - 1]), labels[|labels| - 1]);
  }

  /**
    A run of the code as written is, state by state, a run of the handler with the return exactly
    when no begin of the run falls through; every property of the latter then holds of the former.
  */
  lemma {:induction false} SameRun(cfg: Config, s: Sys, labels: seq<Label>)
    ensures (forall n :: 0 <= n <= |labels| ==> SameAt(cfg, s, labels, n))
      <==> (forall n :: 0 <= n < |labels| ==> !FallsAt(cfg, s, labels, n))
  {
    if labels != [] {
      var m := |labels| - 1;
      SameRun(cfg, s, labels[..m]);
      forall n | 0 <= n <= m
        ensures SameAt(cfg, s, labels[..m], n) <==> SameAt(cfg, s, labels, n)
        ensures n < m ==> (FallsAt(cfg, s, labels[..m], n) <==> FallsAt(cfg, s, labels, n))
      {
        InFront(cfg, s, labels, m, n);
      }
      if SameAt(cfg, s, labels, m) { SameLast(cfg, s, labels); }
    }
  }

  ghost predicate HasRun(s: Sys, id: PlanId, r: ReqId) {
    exists i :: 0 <= i < |TrailOf(s, id).runs| && TrailOf(s, id).runs[i].req == r
  }

  // ---- when a request calls for a plan that it did not begin ------------------------------

  /** How many steps of request r a run holds. */
  function StepsOf(labels: seq<Label>, r: ReqId): (n: nat) {
    if labels == [] then 0 else (
      var l := labels[|labels| - 1];
      StepsOf(labels[..|labels| - 1], r) + (if l.StepExecute? && l.r == r then 1 else 0))
  }

  /**
    The steps of its own that take a request from a failed begin to its first call: classifying the miss,
    capturing, running.
  */
  function Needed(cfg: Config, fault: bool): (n: nat) {
    (if fault then 0 else 1) + (if cfg.hasDriver then 1 else 2)
  }

  /** A request that has gone on unbegun and is past the first action's run, or had nothing to run. */
  ghost predicate PastFirst(q: Req) {
    && q.sent.Some? && !q.began
    && !(q.pc.Loop? && q.pc.p.completed == 0) && !(q.pc.Act? && q.pc.p.completed == 0)
    && (InLoop(q.pc) || q.pc.Done?)
  }

  /** Where a request stands m steps of its own after a begin that failed, by a fault or not. */
  ghost predicate AfterMiss(q: Req, plan: Plan, fault: bool, m: nat) {
    var late := if fault then 0 else 1;
    && !q.began
    && (m < late ==> q.pc == BeginMissed(plan) && q.sent.None?)
    && (m >= late ==> q.sent.Some?)
    && (m == late ==> q.pc == Loop(Progress(plan.actions, 0, [])))
    && (m == late + 1 && plan.actions != [] ==> q.pc.Act? && q.pc.p.completed == 0)
    && (m > late + (if plan.actions == [] then 0 else 1) ==> PastFirst(q))
  }

  lemma BeginStep(cfg: Config, s: Sys, r: ReqId, env: Env)
    requires !cfg.earlyExit && r in s.reqs && s.reqs[r].pc.TryBegin? && !s.reqs[r].began && s.reqs[r].sent.None?
    ensures var q, s2 := s.reqs[r], Next(cfg, s, StepExecute(r, env));
      && r in s2.reqs && s2.reqs[r].id == q.id
      && (if BeginGuard(s, q.id, env) then s2.reqs[r].began && s2.reqs[r].pc == Loop(Progress(q.pc.plan.actions, 0, []))
          else AfterMiss(s2.reqs[r], q.pc.plan, env.fault, 0))
  {
  }

  lemma MissedStep(cfg: Config, s: Sys, r: ReqId, env: Env)
    requires !cfg.earlyExit && r in s.reqs && s.reqs[r].pc.BeginMissed? && !s.reqs[r].began
    ensures var q, s2 := s.reqs[r], Next(cfg, s, StepExecute(r, env));
      && r in s2.reqs && s2.reqs[r].id == q.id && AfterMiss(s2.reqs[r], q.pc.plan, false, 1)
  {
  }

  lemma LoopStep(cfg: Config, s: Sys, r: ReqId, env: Env)
    requires r in s.reqs && s.reqs[r].pc.Loop? && s.reqs[r].pc.p.completed == 0
    ensures var q, s2 := s.reqs[r], Next(cfg, s, StepExecute(r, env));
      && r in s2.reqs && s2.reqs[r] == q.(pc := s2.reqs[r].pc)
      && (if q.pc.p.actions != [] then s2.reqs[r].pc.Act? && s2.reqs[r].pc.p.completed == 0 else s2.reqs[r].pc.Finish?)
  {
  }

  lemma ActStep(cfg: Config, s: Sys, r: ReqId, env: Env)
    requires r in s.reqs && s.reqs[r].pc.Act?
    ensures var q, s2 := s.reqs[r], Next(cfg, s, StepExecute(r, env));
      r in s2.reqs && s2.reqs[r] == q.(pc := s2.reqs[r].pc) && s2.reqs[r].pc.Record?
  {
  }

  /** A step inside the loop changes nothing of the request but where it stands. */
  ghost predicate Moves(s: Sys, s2: Sys, r: ReqId) {
    && r in s.reqs && r in s2.reqs && s2.reqs[r] == s.reqs[r].(pc := s2.reqs[r].pc)
    && Follows(s.reqs[r].pc, s2.reqs[r].pc)
  }

  ghost predicate Follows(pc: Pc, pc2: Pc) {
    && (InLoop(pc2) || pc2.Done?)
    && (pc2.Loop? ==> pc2.p.completed > 0)
    && (pc2.Act? ==> pc.Loop? && pc2.p.completed == pc.p.completed)
  }

  lemma LoopMoves(cfg: Config, s: Sys, r: ReqId, env: Env)
    requires r in s.reqs && s.reqs[r].pc.Loop?
    ensures Moves(s, DoLoop(cfg, s, r, env), r)
  {
  }

  lemma RecordMoves(cfg: Config, s: Sys, r: ReqId, env: Env)
    requires r in s.reqs && s.reqs[r].pc.Record?
    ensures Moves(s, DoRecord(cfg, s, r, env), r)
  {
  }

  lemma UndoMoves(s: Sys, r: ReqId, env: Env)
    requires r in s.reqs && s.reqs[r].pc.Undo?
    ensures Moves(s, DoUndo(s, r, env), r)
  {
  }

  lemma MarkMoves(cfg: Config, s: Sys, r: ReqId, env: Env)
    requires r in s.reqs && s.reqs[r].pc.Mark?
    ensures Moves(s, DoMark(cfg, s, r, env), r)
  {
  }

  lemma FinishMoves(s: Sys, r: ReqId, env: Env)
    requires r in s.reqs && s.reqs[r].pc.Finish?
    ensures Moves(s, DoFinish(s, r, env), r)
  {
  }

  lemma StepMoves(cfg: Config, s: Sys, r: ReqId, env: Env)
    requires r in s.reqs && InLoop(s.reqs[r].pc)
    ensures Moves(s, Next(cfg, s, StepExecute(r, env)), r)
  {
    match s.reqs[r].pc
    case Loop(_) => LoopMoves(cfg, s, r, env);
    case Act(_) => ActStep(cfg, s, r, env);
    case Record(_, _) => RecordMoves(cfg, s, r, env);
    case Undo(_, _, _, _) => UndoMoves(s, r, env);
    case Mark(_, _, _) => MarkMoves(cfg, s, r, env);
    case Finish(_, _, _) => FinishMoves(s, r, env);
  }

  lemma LaterStep(cfg: Config, s: Sys, r: ReqId, env: Env)
    requires r in s.reqs && PastFirst(s.reqs[r])
    ensures var s2 := Next(cfg, s, StepExecute(r, env));
      r in s2.reqs && PastFirst(s2.reqs[r]) && s2.reqs[r].id == s.reqs[r].id
  {
    if InLoop(s.reqs[r].pc) { StepMoves(cfg, s, r, env); }
  }

  lemma MissStep(cfg: Config, s: Sys, r: ReqId, env: Env, plan: Plan, fault: bool, m: nat)
    requires !cfg.earlyExit && r in s.reqs && AfterMiss(s.reqs[r], plan, fault, m)
    ensures var s2 := Next(cfg, s, StepExecute(r, env));
      r in s2.reqs && AfterMiss(s2.reqs[r], plan, fault, m + 1) && s2.reqs[r].id == s.reqs[r].id
  {
    var late := if fault then 0 else 1;
    if m < late { MissedStep(cfg, s, r, env); }
    else if m == late { LoopStep(cfg, s, r, env); }
    else if m == late + 1 && plan.actions != [] { ActStep(cfg, s, r, env); }
    else { LaterStep(cfg, s, r, env); }
  }

  lemma BegunStays(cfg: Config, s: Sys, r: ReqId, env: Env)
    requires r in s.reqs && s.reqs[r].began && (InLoop(s.reqs[r].pc) || s.reqs[r].pc.Done?)
    ensures var s2 := Next(cfg, s, StepExecute(r, env));
      r in s2.reqs && s2.reqs[r].began && (InLoop(s2.reqs[r].pc) || s2.reqs[r].pc.Done?)
          && s2.reqs[r].id == s.reqs[r].id
  {
    if InLoop(s.reqs[r].pc) { StepMoves(cfg, s, r, env); }
  }

  lemma OtherStays(cfg: Config, s: Sys, l: Label, q: ReqId)
    requires q in s.reqs && !(l.StepExecute? && l.r == q)
    ensures var s2 := Next(cfg, s, l); q in s2.reqs && s2.reqs[q] == s.reqs[q]
  {
    match l
    case StepExecute(r, env) => if r in s.reqs { RequestWrites(cfg, s, r, env); }
    case StepApprove(a, fault) => if a in s.approvals { assert DoApprove(s, a, fault).reqs == s.reqs; }
    case _ =>
  }

  /** What a begin at state s and m own steps after it have made of a request. */
  ghost predicate BeginCameTo(s: Sys, r: ReqId, env: Env, q: Req, m: nat)
    requires r in s.reqs && s.reqs[r].pc.TryBegin?
  {
    && q.id == s.reqs[r].id
    && if BeginGuard(s, q.id, env) then q.began && (InLoop(q.pc) || q.pc.Done?)
       else AfterMiss(q, s.reqs[r].pc.plan, env.fault, m)
  }

  lemma {:induction false} BeginAlong(cfg: Config, s: Sys, r: ReqId, env: Env, labels: seq<Label>)
    requires !cfg.earlyExit && r in s.reqs && s.reqs[r].pc.TryBegin? && !s.reqs[r].began && s.reqs[r].sent.None?
    ensures var s2 := Run(cfg, Next(cfg, s, StepExecute(r, env)), labels);
      r in s2.reqs && BeginCameTo(s, r, env, s2.reqs[r], StepsOf(labels, r))
  {
    BeginStep(cfg, s, r, env);
    if labels != [] {
      var front, l := labels[..|labels| - 1], labels[|labels| - 1];
      BeginAlong(cfg, s, r, env, front);
      BeginAlongStep(cfg, s, r, env, Run(cfg, Next(cfg, s, StepExecute(r, env)), front), l, StepsOf(front, r));
    }
  }

  lemma BeginAlongStep(cfg: Config, s: Sys, r: ReqId, env: Env, s1: Sys, l: Label, m: nat)
    requires !cfg.earlyExit && r in s.reqs && s.reqs[r].pc.TryBegin?
    requires r in s1.reqs && BeginCameTo(s, r, env, s1.reqs[r], m)
    ensures var s2 := Next(cfg, s1, l);
      r in s2.reqs && BeginCameTo(s, r, env, s2.reqs[r], if l.StepExecute? && l.r == r then m + 1 else m)
  {
    if l.StepExecute? && l.r == r {
      if s1.reqs[r].began {
        BegunStays(cfg, s1, r, l.env);
      } else {
        MissStep(cfg, s1, r, l.env, s.reqs[r].pc.plan, env.fault, m);
      }
    } else {
      OtherStays(cfg, s1, l, r);
    }
  }

  /** Of a request that went on unbegun, where it stands tells whether it has called something. */
  lemma MissCalls(cfg: Config, own: Trail, r: ReqId, q: Req, n: nat, plan: Plan, fault: bool, m: nat)
    requires AfterMiss(q, plan, fault, m) && OwnOk(cfg, own, r, q, n) && n == |plan.actions|
    requires InLoop(q.pc) ==> q.pc.p.completed <= n
    requires q.pc.Act? || q.pc.Record? ==> q.pc.p.completed < n
    ensures own != NO_TRAIL <==> n > 0 && m >= Needed(cfg, fault)
  {
    if q.pc.Done? || q.pc.Finish? {
      if n == 0 { assert own.runs == [] && own.captures == []; }
    } else if InLoop(q.pc) {
      if !q.pc.Loop? && !q.pc.Act? { assert own.runs != [] || own.captures != []; }
    }
  }

  /**
    Exactly when, as written, a request calls for a plan that it did not begin, in any interleaving:
    when the guard of BeginExecution is false as it begins, the plan has an action, and the request
    has since taken the steps that lead to its first call.  Steps of others make no difference.
  */
  lemma StrayCallExactly(cfg: Config, before: seq<Label>, r: ReqId, env: Env, labels: seq<Label>)
    requires !cfg.earlyExit
    requires var s := After(cfg, before); r in s.reqs && s.reqs[r].pc.TryBegin?
    ensures var s, s2 := After(cfg, before), After(cfg, before + [StepExecute(r, env)] + labels);
      var id := s.reqs[r].id;
      (HasCalled(s2, id, r) && !HasBegun(s2, r))
        <==> !BeginGuard(s, id, env) && s.reqs[r].pc.plan.actions != [] && StepsOf(labels, r) >= Needed(cfg, env.fault)
  {
    var s := After(cfg, before);
    var all := before + [StepExecute(r, env)] + labels;
    var s2, id := After(cfg, all), s.reqs[r].id;
    AfterOk(cfg, before);
    assert ReqOk(cfg, s, r);
    RunOn(cfg, before, StepExecute(r, env), labels);
    BeginAlong(cfg, s, r, env, labels);
    CallsAlong(cfg, all);
    assert CallOk(cfg, s2, r, id);
    if !BeginGuard(s, id, env) {
      ActionsAfter(cfg, before, StepExecute(r, env), labels, id);
      AfterOk(cfg, all);
      if InLoop(s2.reqs[r].pc) { InLoopFacts(cfg, s2, r); }
      MissCalls(cfg, Own(s2, id, r), r, s2.reqs[r], Actions(s2, id), s.reqs[r].pc.plan, env.fault, StepsOf(labels, r));
    }
  }

  lemma ActionsStep(cfg: Config, s: Sys, l: Label, id: PlanId)
    requires Inv(cfg, s) && id in s.db.plans
    ensures id in Next(cfg, s, l).db.plans && Actions(Next(cfg, s, l), id) == Actions(s, id)
  {
    assert PlanOk(cfg, s, id);
    if l.StepExecute? {
      if l.r in s.reqs { PlanWrites(cfg, s, l.r, l.env); }
    } else {
      OtherLabels(cfg, s, l, 0, id);
    }
  }

  lemma {:induction false} ActionsAfter(cfg: Config, before: seq<Label>, l: Label, labels: seq<Label>, id: PlanId)
    requires id in After(cfg, before).db.plans
    ensures var s2 := After(cfg, before + [l] + labels);
      id in s2.db.plans && Actions(s2, id) == Actions(After(cfg, before), id)
  {
    if labels == [] {
      AfterOk(cfg, before);
      Extend(cfg, before, l);
      assert before + [l] + [] == before + [l];
      ActionsStep(cfg, After(cfg, before), l, id);
    } else {
      var front, last := labels[..|labels| - 1], labels[|labels| - 1];
      ActionsAfter(cfg, before, l, front, id);
      AfterOk(cfg, before + [l] + front);
      Extend(cfg, before + [l] + front, last);
      assert before + [l] + front + [last] == before + [l] + labels;
      ActionsStep(cfg, After(cfg, before + [l] + front), last, id);
    }
  }

  // ---- when a status change leaves the table ---------------------------------------------

  /** A FinishExecution that finds its plan in a status from which the table has no way to the final one. */
  ghost predicate FinishesAmiss(s: Sys, l: Label, id: PlanId)
    requires id in s.db.plans
  {
    && l.StepExecute? && !l.env.fault && l.r in s.reqs && s.reqs[l.r].id == id && s.reqs[l.r].pc.Finish?
    && s.db.plans[id].status in {Approved, Completed, RolledBack} && s.reqs[l.r].pc.final != s.db.plans[id].status
  }

  /**
    Exactly when a step of any run, as written or not, takes a plan off the transition table: when it
    finishes a plan that is approved, or completed or rolled back otherwise.  That happens only to
    plans that somebody has strayed into.
  */
  lemma TableLeftExactly(cfg: Config, labels: seq<Label>, l: Label, id: PlanId)
    requires id in After(cfg, labels).db.plans
    ensures var s := After(cfg, labels);
      var s2 := Next(cfg, s, l);
      && id in s2.db.plans
      && (!(s2.db.plans[id].status == s.db.plans[id].status || TableStep(s.db.plans[id].status, s2.db.plans[id].status))
          <==> FinishesAmiss(s, l, id))
      && (FinishesAmiss(s, l, id) ==> id in s.strayed)
  {
    var s := After(cfg, labels);
    AfterOk(cfg, labels);
    assert PlanOk(cfg, s, id);
    if l.StepExecute? {
      if l.r in s.reqs { ExecuteTable(cfg, s, l.r, l.env, id); }
    } else {
      OtherTable(cfg, s, l, id);
    }
    if FinishesAmiss(s, l, id) && id !in s.strayed { FinishStep(cfg, s, l.r); }
  }

  /** A FinishExecution of a plan that writes something new. */
  ghost predicate FinishesAnew(s: Sys, l: Label, id: PlanId)
    requires id in s.db.plans
  {
    && l.StepExecute? && !l.env.fault && l.r in s.reqs && s.reqs[l.r].id == id && s.reqs[l.r].pc.Finish?
    && s.db.plans[id] != s.db.plans[id].(status := s.reqs[l.r].pc.final,
         actionsCompleted := s.reqs[l.r].pc.p.completed, completedAt := Some(s.now))
  }

  /**
    Exactly when a step of any run, as written or not, changes the row of a plan in a terminal status:
    when it finishes the plan again, with another status, count or time.  That happens only to plans
    that somebody has strayed into.
  */
  lemma FinalLeftExactly(cfg: Config, labels: seq<Label>, l: Label, id: PlanId)
    requires var s := After(cfg, labels); id in s.db.plans && IsFinal(s.db.plans[id].status)
    ensures var s := After(cfg, labels);
      var s2 := Next(cfg, s, l);
      && id in s2.db.plans
      && (s2.db.plans[id] != s.db.plans[id] <==> FinishesAnew(s, l, id))
      && (FinishesAnew(s, l, id) ==> id in s.strayed)
  {
    var s := After(cfg, labels);
    AfterOk(cfg, labels);
    assert PlanOk(cfg, s, id);
    if l.StepExecute? && l.r in s.reqs {
      FinalExecute(cfg, s, l.r, l.env, id);
    } else if l.StepApprove? && l.r in s.approvals {
      ApproveStatus(s, l.r, l.fault, id);
    }
    if FinishesAnew(s, l, id) && id !in s.strayed { FinishStep(cfg, s, l.r); }
  }

  lemma FinalExecute(cfg: Config, s: Sys, r: ReqId, env: Env, id: PlanId)
    requires id in s.db.plans && r in s.reqs && IsFinal(s.db.plans[id].status)
    ensures id in DoExecute(cfg, s, r, env).db.plans
    ensures DoExecute(cfg, s, r, env).db.plans[id] != s.db.plans[id] <==> FinishesAnew(s, StepExecute(r, env), id)
  {
    if s.reqs[r].pc.Finish? { FinalFinish(s, r, env, id); } else { PlanWrites(cfg, s, r, env); }
  }

  lemma FinalFinish(s: Sys, r: ReqId, env: Env, id: PlanId)
    requires id in s.db.plans && r in s.reqs && s.reqs[r].pc.Finish?
    ensures id in DoFinish(s, r, env).db.plans
    ensures DoFinish(s, r, env).db.plans[id] != s.db.plans[id] <==> FinishesAnew(s, StepExecute(r, env), id)
  {
  }

  lemma OtherTable(cfg: Config, s: Sys, l: Label, id: PlanId)
    requires id in s.db.plans && id <= s.db.lastId && !l.StepExecute?
    ensures id in Next(cfg, s, l).db.plans
    ensures var st, st2 := s.db.plans[id].status, Next(cfg, s, l).db.plans[id].status; st2 == st || TableStep(st, st2)
  {
    if l.StepApprove? && l.r in s.approvals { ApproveStatus(s, l.r, l.fault, id); }
  }

  lemma ExecuteTable(cfg: Config, s: Sys, r: ReqId, env: Env, id: PlanId)
    requires Inv(cfg, s) && id in s.db.plans && r in s.reqs
    ensures id in DoExecute(cfg, s, r, env).db.plans
    ensures var st, st2 := s.db.plans[id].status, DoExecute(cfg, s, r, env).db.plans[id].status;
      !(st2 == st || TableStep(st, st2)) <==> FinishesAmiss(s, StepExecute(r, env), id)
  {
    assert ReqOk(cfg, s, r) && PlanOk(cfg, s, id);
    if s.reqs[r].pc.Finish? {
      FinishTable(cfg, s, r, env, id);
    } else {
      PlanWrites(cfg, s, r, env);
    }
  }

  lemma FinishTable(cfg: Config, s: Sys, r: ReqId, env: Env, id: PlanId)
    requires id in s.db.plans && r in s.reqs && s.reqs[r].pc.Finish?
    requires s.reqs[r].id == id ==> s.db.plans[id].status != Planned && s.db.plans[id].status != Rejected
    requires s.reqs[r].pc.final in {Completed, Failed, RolledBack}
    ensures id in DoFinish(s, r, env).db.plans
    ensures var st, st2 := s.db.plans[id].status, DoFinish(s, r, env).db.plans[id].status;
      !(st2 == st || TableStep(st, st2)) <==> FinishesAmiss(s, StepExecute(r, env), id)
  {
  }

  // ---- a run that goes wrong -------------------------------------------------------------

  const DEMO := Config(10, false, true, false, true)
  const REBOOT := Action("restart_ecs_instance", "{}", "i-1", "medium", "n/a (transient reboot)")

  /** Requests 1 and 2 for the one approved plan have both passed the checks and are about to begin. */
  ghost predicate BothAtBegin(s: Sys) {
    && 1 in s.db.plans && s.db.plans[1].status == Approved && s.db.plans[1].actions == [REBOOT]
    && 1 in s.reqs && s.reqs[1].id == 1 && s.reqs[1].pc.TryBegin? && s.reqs[1].pc.plan.actions == [REBOOT]
    && 2 in s.reqs && s.reqs[2].id == 1 && s.reqs[2].pc.TryBegin? && s.reqs[2].pc.plan.actions == [REBOOT]
    && !s.reqs[1].began && !s.reqs[2].began && s.reqs[1].sent.None? && s.reqs[2].sent.None?
    && TrailOf(s, 1) == NO_TRAIL
  }

  /** An approved plan, and two execute requests for it that both saw it approved. */
  lemma ReachBothAtBegin() returns (labels: seq<Label>)
    ensures BothAtBegin(After(DEMO, labels))
  {
    labels := [];
    Extend(DEMO, labels, Create("main", [REBOOT], "ops"));
    labels := labels + [Create("main", [REBOOT], "ops")];
    Extend(DEMO, labels, AskApprove(0, 1, "admin", ""));
    labels := labels + [AskApprove(0, 1, "admin", "")];
    Extend(DEMO, labels, StepApprove(0, false));
    labels := labels + [StepApprove(0, false)];
    var s := After(DEMO, labels);
    assert s.db.plans.Keys == {1} && s.db.plans[1].status == Approved && s.db.plans[1].startedAt == None;
    assert s.db.plans[1].actions == [REBOOT] && s.trail == map[] && s.reqs == map[];
    Extend(DEMO, labels, AskExecute(1, 1));
    labels := labels + [AskExecute(1, 1)];
    Extend(DEMO, labels, AskExecute(2, 1));
    labels := labels + [AskExecute(2, 1)];
    labels := PassChecks(labels, 1);
    labels := PassChecks(labels, 2);
  }

  lemma PassChecks(labels: seq<Label>, r: ReqId) returns (more: seq<Label>)
    requires var s := After(DEMO, labels);
      && r in s.reqs && s.reqs[r] == NewReq(1)
      && 1 in s.db.plans && s.db.plans[1].status == Approved && s.db.plans.Keys == {1}
      && s.db.plans[1].startedAt == None
    ensures var s, s2 := After(DEMO, labels), After(DEMO, more);
      && s2.db == s.db && s2.trail == s.trail
      && r in s2.reqs && s2.reqs[r].id == 1 && !s2.reqs[r].began && s2.reqs[r].sent.None?
      && s2.reqs[r].pc.TryBegin? && s2.reqs[r].pc.plan == s.db.plans[1]
      && (forall q :: q in s.reqs && q != r ==> q in s2.reqs && s2.reqs[q] == s.reqs[q])
  {
    var s := After(DEMO, labels);
    Extend(DEMO, labels, StepExecute(r, FINE));
    more := labels + [StepExecute(r, FINE)];
    assert After(DEMO, more).reqs[r].pc == TakeWindow(s.db.plans[1]);
    Extend(DEMO, more, StepExecute(r, FINE));
    more := more + [StepExecute(r, FINE)];
    var s2 := After(DEMO, more);
    assert s2.reqs[r].pc == CountStarts(s.db.plans[1], s.now - HOUR);
    assert StartedSince(s2.db, s.db.plans[1].account, s.now - HOUR) == {};
    Extend(DEMO, more, StepExecute(r, FINE));
    more := more + [StepExecute(r, FINE)];
  }

  lemma RanNow(cfg: Config, s: Sys, r: ReqId, env: Env)
    requires r in s.reqs && s.reqs[r].pc.Act?
    ensures HasRun(Next(cfg, s, StepExecute(r, env)), s.reqs[r].id, r)
  {
    var id := s.reqs[r].id;
    var s2 := Next(cfg, s, StepExecute(r, env));
    assert TrailOf(s2, id).runs[|TrailOf(s, id).runs|].req == r;
  }

  lemma RanStays(cfg: Config, s: Sys, r: ReqId, env: Env, id: PlanId, q: ReqId)
    requires r in s.reqs && s.reqs[r].id == id && (s.reqs[r].pc.Loop? || s.reqs[r].pc.Act?) && HasRun(s, id, q)
    ensures HasRun(Next(cfg, s, StepExecute(r, env)), id, q)
  {
    var s2 := Next(cfg, s, StepExecute(r, env));
    var i :| 0 <= i < |TrailOf(s, id).runs| && TrailOf(s, id).runs[i].req == q;
    assert TrailOf(s2, id).runs[i] == TrailOf(s, id).runs[i];
  }

  /** Request 2 finds the plan running, misses its begin, and goes on to run the action. */
  lemma SecondRuns(labels: seq<Label>) returns (more: seq<Label>)
    requires var s := After(DEMO, labels);
      && 1 in s.db.plans && s.db.plans[1].status == Running
      && 1 in s.reqs && 2 in s.reqs && s.reqs[2].id == 1
      && s.reqs[2].pc.TryBegin? && s.reqs[2].pc.plan.actions == [REBOOT]
      && !s.reqs[2].began && s.reqs[2].sent.None?
    ensures var s, s2 := After(DEMO, labels), After(DEMO, more);
      HasRun(s2, 1, 2) && 2 in s2.reqs && !s2.reqs[2].began && 1 in s2.reqs && s2.reqs[1] == s.reqs[1]
  {
    var l := StepExecute(2, FINE);
    var s := After(DEMO, labels);
    Extend(DEMO, labels, l);
    BeginStep(DEMO, s, 2, FINE);
    OtherStays(DEMO, s, l, 1);
    var s1 := After(DEMO, labels + [l]);
    Extend(DEMO, labels + [l], l);
    MissedStep(DEMO, s1, 2, FINE);
    OtherStays(DEMO, s1, l, 1);
    more := RunsFromLoop(labels + [l] + [l], 2, 1);
  }

  /** Two steps of a request at the top of its loop: the first action is run, and q is where it was. */
  lemma RunsFromLoop(labels: seq<Label>, r: ReqId, q: ReqId) returns (more: seq<Label>)
    requires var s := After(DEMO, labels);
      r in s.reqs && q in s.reqs && q != r && s.reqs[r].id == 1 && s.reqs[r].pc == Loop(Progress([REBOOT], 0, []))
    ensures var s, s2 := After(DEMO, labels), After(DEMO, more);
      && HasRun(s2, 1, r) && r in s2.reqs && s2.reqs[r].began == s.reqs[r].began
      && q in s2.reqs && s2.reqs[q] == s.reqs[q] && (HasRun(s, 1, q) ==> HasRun(s2, 1, q))
  {
    var l := StepExecute(r, FINE);
    var s := After(DEMO, labels);
    Extend(DEMO, labels, l);
    LoopStep(DEMO, s, r, FINE);
    OtherStays(DEMO, s, l, q);
    var s1 := After(DEMO, labels + [l]);
    Extend(DEMO, labels + [l], l);
    ActStep(DEMO, s1, r, FINE);
    OtherStays(DEMO, s1, l, q);
    RanNow(DEMO, s1, r, FINE);
    if HasRun(s, 1, q) {
      RanStays(DEMO, s, r, FINE, 1, q);
      RanStays(DEMO, s1, r, FINE, 1, q);
    }
    more := labels + [l] + [l];
  }

  /** As written, two requests can run the same plan's actions: neither waits for, or heeds, the other. */
  lemma DoubleRun() returns (labels: seq<Label>)
    ensures var s := After(DEMO, labels); HasRun(s, 1, 1) && HasRun(s, 1, 2) && !HasBegun(s, 2)
  {
    labels := ReachBothAtBegin();
    var s := After(DEMO, labels);
    var l := StepExecute(1, FINE);
    Extend(DEMO, labels, l);
    BeginStep(DEMO, s, 1, FINE);
    OtherStays(DEMO, s, l, 2);
    assert Next(DEMO, s, l).db.plans[1].status == Running;
    labels := SecondRuns(labels + [l]);
    labels := RunsFromLoop(labels, 1, 2);
  }
}
