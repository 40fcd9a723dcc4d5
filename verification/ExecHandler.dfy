/**
  The handler of POST /exec/{exec_id}/execute, as imperative code over the mutable store and a
  cloud of any kind.

  Each store or executor call is matched by one step of the machine in ExecProtocol (the ghost
  fields follow it), so the handler run alone is a run of the machine and has every property
  proved there.  What only the handler can say is what happens to the cloud: a run that ends
  rolled back leaves the cloud as it found it.
*/
module ExecHandler {
  import opened Basics
  import opened ExecStore
  import opened ExecProtocol
  import opened ExecInvariant
  import opened ExecTheorems
  import opened ExecCalls
  import opened ExecAsWritten

  /** The result of an executor: the cloud it leaves, and what it reports. */
  datatype Ran<C> = Ran(cloud: C, out: Outcome)

  /** deps.ExecAction and deps.RollbackAction (either may be nil) and the two settings the handler reads. */
  datatype Deps<!C> = Deps(
    limit: nat, exec: Option<(C, Action) -> Ran<C>>, undo: Option<(C, Action, Option<Json>) -> Ran<C>>,
    rollbackEnabled: bool, hasMarker: bool)
  {
    /** The machine this handler follows: the code as written. */
    function Cfg(): (r: Config) {
      Config(limit, false, exec.Some?, undo.Some? && rollbackEnabled, hasMarker)
    }

    /** One call of ExecAction, or of the stub when there is none. */
    function Exec(c: C, a: Action): (r: Ran<C>) {
      if exec.Some? then exec.value(c, a) else Ran(c, STUB_OUTCOME)
    }

    /** The pre-state capture: a call of the same ExecAction, none without one. */
    function Capture(c: C, a: Action): (r: (C, Option<Json>)) {
      if exec.Some? then (exec.value(c, a).cloud, Some(exec.value(c, a).out.post)) else (c, None)
    }

    /** The cloud after capturing and running the first n actions. */
    function Forward(c: C, actions: seq<Action>, n: nat): (r: C)
      requires n <= |actions|
    {
      if n == 0 then c else
        var before := Forward(c, actions, n - 1);
        Exec(Capture(before, actions[n - 1]).0, actions[n - 1]).cloud
    }

    /** Capturing and running action i after the first i. */
    function Turn(c: C, actions: seq<Action>, i: nat): (r: Ran<C>)
      requires i < |actions|
    {
      Exec(Capture(Forward(c, actions, i), actions[i]).0, actions[i])
    }

    /** The first n actions ran well on the way from c, and pres holds their pre-states. */
    ghost predicate Went(c: C, actions: seq<Action>, pres: seq<Option<Json>>, n: nat) {
      && n <= |pres| && n <= |actions|
      && forall i :: 0 <= i < n ==> WentWell(c, actions, i, pres[i])
    }

    ghost predicate WentWell(c: C, actions: seq<Action>, i: nat, pre: Option<Json>)
      requires i < |actions|
    {
      Turn(c, actions, i).out.ok && pre == Capture(Forward(c, actions, i), actions[i]).1
    }

    /** The cloud after rolling back the first n actions, the last of them first. */
    function Unwind(c: C, actions: seq<Action>, pres: seq<Option<Json>>, n: nat): (c2: C)
      requires undo.Some? && n <= |actions| && n <= |pres|
    {
      if n == 0 then c else Unwind(undo.value(c, actions[n - 1], pres[n - 1]).cloud, actions, pres, n - 1)
    }

    lemma WentOn(c: C, actions: seq<Action>, pres: seq<Option<Json>>, pre: Option<Json>)
      requires |pres| < |actions| && Went(c, actions, pres, |pres|)
      requires pre == Capture(Forward(c, actions, |pres|), actions[|pres|]).1
      ensures Went(c, actions, pres + [pre], |pres|)
      ensures Turn(c, actions, |pres|).out.ok ==> Went(c, actions, pres + [pre], |pres| + 1)
      ensures Forward(c, actions, |pres| + 1) == Turn(c, actions, |pres|).cloud
    {
      assert WentWell(c, actions, |pres|, pre) <==> Turn(c, actions, |pres|).out.ok;
    }
  }

  /** A rollback with the captured pre-state undoes one action's capture and run; a failing action has no net effect. */
  ghost predicate Reversible<C(!new)>(deps: Deps<C>) {
    && (forall c: C, a: Action :: var (c1, pre) := deps.Capture(c, a);
          !deps.Exec(c1, a).out.ok ==> deps.Exec(c1, a).cloud == c)
    && (deps.undo.Some? ==> forall c: C, a: Action :: var (c1, pre) := deps.Capture(c, a);
          var back := deps.undo.value(deps.Exec(c1, a).cloud, a, pre);
          deps.Exec(c1, a).out.ok && back.out.ok ==> back.cloud == c)
  }

  /**
    Before each call some time passes, others take some steps of theirs, and the store may be
    about to fail.
  */
  datatype Weather = Weather(delay: nat, others: seq<Label>, fault: bool)

  predicate IsOf(l: Label, r: ReqId) { (l.AskExecute? || l.StepExecute?) && l.r == r }

  /** The labels that are not of r. */
  function NotOf(labels: seq<Label>, r: ReqId): (others: seq<Label>)
    ensures forall l :: l in others ==> !IsOf(l, r)
  {
    if labels == [] then [] else (
      var front, l := NotOf(labels[..|labels| - 1], r), labels[|labels| - 1];
      if IsOf(l, r) then front else front + [l])
  }

  const NO_OUTCOME := Outcome("", "", false)

  lemma RunPush(cfg: Config, s: Sys, a: seq<Label>, l: Label)
    ensures Run(cfg, s, a + [l]) == Next(cfg, Run(cfg, s, a), l)
  {
    assert (a + [l])[..|a|] == a;
  }

  lemma {:induction false} RunConcat(cfg: Config, s: Sys, a: seq<Label>, b: seq<Label>)
    ensures Run(cfg, s, a + b) == Run(cfg, Run(cfg, s, a), b)
  {
    if b == [] {
      assert a + b == a;
    } else {
      var front, l := b[..|b| - 1], b[|b| - 1];
      RunConcat(cfg, s, a, front);
      RunPush(cfg, s, a + front, l);
      RunPush(cfg, Run(cfg, s, a), front, l);
      assert a + b == a + front + [l] && b == front + [l];
    }
  }

  /** What others do keeps the invariants and leaves this request as it is. */
  lemma {:induction false} OthersKeep(cfg: Config, s: Sys, others: seq<Label>, r: ReqId)
    requires Inv(cfg, s) && CallsInv(cfg, s) && forall l :: l in others ==> !IsOf(l, r)
    ensures var s2 := Run(cfg, s, others);
      && Inv(cfg, s2) && CallsInv(cfg, s2)
      && (r in s2.reqs <==> r in s.reqs) && (r in s.reqs ==> s2.reqs[r] == s.reqs[r])
  {
    if others != [] {
      var front, l := others[..|others| - 1], others[|others| - 1];
      forall x | x in front ensures !IsOf(x, r) { assert x in others; }
      OthersKeep(cfg, s, front, r);
      assert l in others;
      var s1 := Run(cfg, s, front);
      NextKeeps(cfg, s1, l);
      NextCalls(cfg, s1, l);
      if r in s1.reqs { OtherStays(cfg, s1, l, r); } else { NotNew(cfg, s1, l, r); }
    }
  }

  lemma NotNew(cfg: Config, s: Sys, l: Label, r: ReqId)
    requires r !in s.reqs && !IsOf(l, r)
    ensures r !in Next(cfg, s, l).reqs
  {
    match l
    case StepExecute(q, env) => if q in s.reqs { RequestWrites(cfg, s, q, env); }
    case StepApprove(a, fault) => if a in s.approvals { assert DoApprove(s, a, fault).reqs == s.reqs; }
    case _ =>
  }

  class Handler<C(!new)> {
    const store: PgExecStore
    const deps: Deps<C>
    const world: nat -> Weather
    const r: ReqId
    var calls: nat
    var now: Time
    var cloud: C
    var sys: Sys  // the world, of which the handler sees the store and the clock

    ghost const start: Sys
    ghost var labels: seq<Label>

    /** The machine has come, by a run from the start, to the same store and the same time. */
    ghost predicate Valid()
      reads this, store
    {
      && store.View() == sys.db && now == sys.now
      && Inv(deps.Cfg(), sys) && CallsInv(deps.Cfg(), sys)
      && sys == Run(deps.Cfg(), start, labels)
    }

    /** The request stands at pc; the rest of it is as in q. */
    ghost predicate Has(q: Req, pc: Pc)
      reads this
    {
      r in sys.reqs && sys.reqs[r] == q.(pc := pc)
    }

    constructor (store: PgExecStore, deps: Deps<C>, world: nat -> Weather, r: ReqId, cloud: C, sys: Sys)
      requires store.View() == sys.db && Inv(deps.Cfg(), sys) && CallsInv(deps.Cfg(), sys)
      ensures Valid() && this.store == store && this.deps == deps && this.world == world && this.r == r
      ensures this.cloud == cloud && this.sys == sys && start == sys
    {
      this.store, this.deps, this.world, this.r, this.calls, this.now := store, deps, world, r, 0, sys.now;
      this.cloud, this.sys, this.start, this.labels := cloud, sys, sys, [];
    }

    // ---- following the machine -----------------------------------------------------------

    /** The handler's own label. */
    method Note(l: Label)
      requires Inv(deps.Cfg(), sys) && CallsInv(deps.Cfg(), sys) && sys == Run(deps.Cfg(), start, labels)
      modifies this`sys, this`labels
      ensures sys == Next(deps.Cfg(), old(sys), l) && sys == Run(deps.Cfg(), start, labels)
      ensures Inv(deps.Cfg(), sys) && CallsInv(deps.Cfg(), sys)
    {
      NextKeeps(deps.Cfg(), sys, l);
      NextCalls(deps.Cfg(), sys, l);
      sys := Next(deps.Cfg(), sys, l);
      assert (labels + [l])[..|labels|] == labels;
      labels := labels + [l];
    }

    /** What happens before the next call; says whether the store will fail it. */
    method Wait() returns (fault: bool)
      requires Valid()
      modifies this`calls, this`now, this`sys, this`labels, store
      ensures Valid() && (r in sys.reqs <==> r in old(sys).reqs) && (r in sys.reqs ==> sys.reqs[r] == old(sys).reqs[r])
    {
      var w := world(calls);
      var others := NotOf(w.others + [Tick(w.delay)], r);
      OthersKeep(deps.Cfg(), sys, others, r);
      RunConcat(deps.Cfg(), start, labels, others);
      sys := Run(deps.Cfg(), sys, others);
      labels := labels + others;
      calls, now := calls + 1, sys.now;
      store.lastId, store.plans, store.audit := sys.db.lastId, sys.db.plans, sys.db.audit;
      fault := w.fault;
    }

    // ---- the calls of the handler --------------------------------------------------------

    method Arrive(id: PlanId)
      requires Valid() && r !in sys.reqs
      modifies this`sys, this`labels
      ensures Valid() && Has(NewReq(id), ReadPlan)
    {
      Note(AskExecute(r, id));
    }

    method GetPlan(id: PlanId) returns (res: Result<Option<Plan>, StoreError>)
      requires Valid() && Has(NewReq(id), ReadPlan)
      modifies this`calls, this`now, this`sys, this`labels, store
      ensures Valid()
      ensures Has(NewReq(id), if res.Err? then Done(Refused(500))
                              else if res.value.None? then Done(Refused(404))
                              else if !CanTransition(res.value.value.status, Running) then Done(Refused(409))
                              else TakeWindow(res.value.value))
    {
      var fault := Wait();
      res := store.GetPlan(id, fault);
      Note(StepExecute(r, Env(fault, NO_OUTCOME)));
    }

    /** Leaves the request before BeginExecution, or answered. */
    method CheckRate(id: PlanId, plan: Plan) returns (code: Option<nat>)
      requires Valid() && Has(NewReq(id), TakeWindow(plan))
      modifies this`calls, this`now, this`sys, this`labels, store
      ensures Valid()
      ensures code.Some? ==> Has(NewReq(id), Done(Refused(code.value))) && code.value != 404 && code.value != 409
      ensures code.None? ==> exists since :: Has(NewReq(id), TryBegin(plan, since))
    {
      var _ := Wait();
      var since := now - HOUR;
      Note(StepExecute(r, Env(false, NO_OUTCOME)));
      assert Has(NewReq(id), CountStarts(plan, since));
      var fault := Wait();
      var count := store.CountExecutionsSince(plan.account, since, fault);
      Note(StepExecute(r, Env(fault, NO_OUTCOME)));
      if count.Err? { return Some(500); }
      if count.value >= deps.limit { return Some(429); }
      assert Has(NewReq(id), TryBegin(plan, since));
      code := None;
    }

    /** A request that has begun its plan, or gone on without, having written a status code. */
    ghost predicate Went(id: PlanId, q: Req) {
      q.id == id && (q.began <==> q.sent.None?)
    }

    /**
      As written: whatever BeginExecution answers, the action loop is next.  sent is the code written, if it
      failed.
    */
    method Begin(id: PlanId, plan: Plan) returns (sent: Option<nat>, ghost q: Req)
      requires Valid() && exists since :: Has(NewReq(id), TryBegin(plan, since))
      modifies this`calls, this`now, this`sys, this`labels, store
      ensures Valid() && Went(id, q) && Has(q, Loop(Progress(plan.actions, 0, []))) && q.sent == sent
    {
      var fault := Wait();
      var res := store.BeginTransaction(id, plan.actions, now, fault);
      Note(StepExecute(r, Env(fault, NO_OUTCOME)));
      if res == Ok(false) {
        assert Has(NewReq(id), BeginMissed(plan));
        sent := Classify(id, plan);
      } else {
        sent := if res.Err? then Some(500) else None;
      }
      q := sys.reqs[r];
    }

    method Classify(id: PlanId, plan: Plan) returns (sent: Option<nat>)
      requires Valid() && Has(NewReq(id), BeginMissed(plan))
      modifies this`calls, this`now, this`sys, this`labels, store
      ensures Valid() && sent.Some? && Has(NewReq(id).(sent := sent), Loop(Progress(plan.actions, 0, [])))
    {
      var fault := Wait();
      var e := store.ReadMiss(id, fault);
      Note(StepExecute(r, Env(fault, NO_OUTCOME)));
      sent := Some(if e == NotFound then 404 else if e == Conflict then 409 else 500);
    }

    method CaptureState(id: PlanId, p: Progress, ghost q: Req) returns (pre: Option<Json>)
      requires Valid() && q.id == id && Has(q, Loop(p)) && p.completed < |p.actions|
      modifies this`calls, this`now, this`sys, this`labels, this`cloud, store
      ensures Valid() && Has(q, Act(p.(pres := p.pres + [pre])))
      ensures (cloud, pre) == deps.Capture(old(cloud), p.actions[p.completed])
    {
      var _ := Wait();
      if deps.exec.Some? {
        var ran := deps.exec.value(cloud, p.actions[p.completed]);
        cloud, pre := ran.cloud, Some(ran.out.post);
        Note(StepExecute(r, Env(false, ran.out)));
      } else {
        pre := None;
        Note(StepExecute(r, Env(false, NO_OUTCOME)));
      }
    }

    method RunAction(id: PlanId, p: Progress, ghost q: Req) returns (out: Outcome)
      requires Valid() && q.id == id && Has(q, Act(p)) && p.completed < |p.actions|
      modifies this`calls, this`now, this`sys, this`labels, this`cloud, store
      ensures Valid() && Has(q, Record(p, out))
      ensures Ran(cloud, out) == deps.Exec(old(cloud), p.actions[p.completed])
    {
      var _ := Wait();
      var ran := deps.Exec(cloud, p.actions[p.completed]);
      cloud, out := ran.cloud, ran.out;
      Note(StepExecute(r, Env(false, out)));
    }

    /** What recording does to the store and to the request. */
    lemma Recorded(s: Sys, fault: bool, out: Outcome)
      requires r in s.reqs && s.reqs[r].pc.Record?
      ensures var q := s.reqs[r];
        var n, rows := q.pc.p.completed + 1, Rows(s.db, q.id);
        var s2 := Next(deps.Cfg(), s, StepExecute(r, Env(fault, out)));
        && s2.db == (if fault || !HasRow(rows, n) then s.db
                     else WithRows(s.db, q.id, RecordRows(rows, n, q.pc.out, s.now)))
        && s2.now == s.now && r in s2.reqs
        && s2.reqs[r] == q.(pc := AfterRecord(deps.Cfg(), q.pc.p, q.pc.out, fault || HasRow(rows, n)))
    {
    }

    /** Whatever others do, a request that has begun its plan finds the row. */
    method RecordResult(id: PlanId, p: Progress, out: Outcome, ghost q: Req) returns (found: bool)
      requires Valid() && q.id == id && Has(q, Record(p, out))
      modifies this`calls, this`now, this`sys, this`labels, store
      ensures Valid() && Has(q, AfterRecord(deps.Cfg(), p, out, found)) && (q.began ==> found)
    {
      var fault := Wait();
      if q.began { RowIsThere(deps.Cfg(), sys, r); }
      Recorded(sys, fault, out);
      var res := store.RecordActionResult(id, p.completed + 1, out, now, fault);
      Note(StepExecute(r, Env(fault, out)));
      found := res != Err(NotFound);
    }

    // ---- the action loop -----------------------------------------------------------------

    /** One turn of the loop: capture, run, record. */
    method OneAction(id: PlanId, p: Progress, ghost q: Req) returns (pre: Option<Json>, out: Outcome, found: bool)
      requires Valid() && q.id == id && Has(q, Loop(p)) && p.completed < |p.actions|
      modifies this`calls, this`now, this`sys, this`labels, this`cloud, store
      ensures Valid() && Has(q, AfterRecord(deps.Cfg(), p.(pres := p.pres + [pre]), out, found)) && (q.began ==> found)
      ensures pre == deps.Capture(old(cloud), p.actions[p.completed]).1
      ensures Ran(cloud, out) == deps.Exec(deps.Capture(old(cloud), p.actions[p.completed]).0, p.actions[p.completed])
    {
      pre := CaptureState(id, p, q);
      var p2 := p.(pres := p.pres + [pre]);
      out := RunAction(id, p2, q);
      found := RecordResult(id, p2, out, q);
    }

    method EndLoop(p: Progress, ghost q: Req)
      requires Valid() && Has(q, Loop(p)) && p.completed == |p.actions| == |p.pres|
      modifies this`sys, this`labels
      ensures Valid() && Has(q, AfterLoop(deps.Cfg(), p, false))
    {
      Note(StepExecute(r, Env(false, NO_OUTCOME)));
    }

    method RunActions(id: PlanId, actions: seq<Action>, ghost q: Req)
      returns (completed: nat, failed: bool, pres: seq<Option<Json>>, ghost missed: bool)
      requires Valid() && q.id == id && Has(q, Loop(Progress(actions, 0, [])))
      modifies this`calls, this`now, this`sys, this`labels, this`cloud, store
      ensures Valid() && Has(q, AfterLoop(deps.Cfg(), Progress(actions, completed, pres), failed))
      ensures completed <= |actions| && completed <= |pres|
      ensures failed ==> completed < |actions| && !missed
      ensures q.began ==> !missed
      ensures !failed && !missed ==> completed == |actions|
      ensures actions == [] ==> cloud == old(cloud)
      ensures deps.Went(old(cloud), actions, pres, completed)
      ensures !missed && !failed ==> cloud == deps.Forward(old(cloud), actions, completed)
      ensures failed ==>
        cloud == deps.Turn(old(cloud), actions, completed).cloud && !deps.Turn(old(cloud), actions, completed).out.ok
    {
      completed, failed, pres, missed := 0, false, [], false;
      while completed < |actions|
        invariant Valid() && Has(q, Loop(Progress(actions, completed, pres)))
        invariant completed <= |actions| && |pres| == completed
        invariant deps.Went(old(cloud), actions, pres, completed)
        invariant cloud == deps.Forward(old(cloud), actions, completed)
        decreases |actions| - completed
      {
        var pre, out, found := OneAction(id, Progress(actions, completed, pres), q);
        deps.WentOn(old(cloud), actions, pres, pre);
        pres := pres + [pre];
        if !found { missed := true; return; }
        if !out.ok { failed := true; return; }
        completed := completed + 1;
      }
      EndLoop(Progress(actions, completed, pres), q);
    }

    // ---- rollback ------------------------------------------------------------------------

    method UndoAction(id: PlanId, p: Progress, next: nat, rolled: seq<nat>, errs: nat, ghost q: Req) returns (ok: bool)
      requires Valid() && q.id == id && Has(q, Undo(p, next, rolled, errs))
      requires deps.undo.Some? && 0 < next <= |p.actions| && next <= |p.pres|
      modifies this`calls, this`now, this`sys, this`labels, this`cloud, store
      ensures Valid() && Has(q, AfterUndoCall(Undo(p, next, rolled, errs), ok))
      ensures var back := deps.undo.value(old(cloud), p.actions[next - 1], p.pres[next - 1]);
        cloud == back.cloud && ok == back.out.ok
    {
      var _ := Wait();
      var back := deps.undo.value(cloud, p.actions[next - 1], p.pres[next - 1]);
      cloud, ok := back.cloud, back.out.ok;
      Note(StepExecute(r, Env(false, back.out)));
    }

    /** Undoing an action whose capture is at hand takes the cloud one action back. */
    lemma StepBack(c: C, p: Progress, n: nat)
      requires Reversible(deps) && deps.undo.Some? && 0 < n && deps.Went(c, p.actions, p.pres, n)
      ensures var back := deps.undo.value(deps.Forward(c, p.actions, n), p.actions[n - 1], p.pres[n - 1]);
        back.out.ok ==> back.cloud == deps.Forward(c, p.actions, n - 1)
    {
      var before := deps.Forward(c, p.actions, n - 1);
      var (c1, pre) := deps.Capture(before, p.actions[n - 1]);
      assert deps.WentWell(c, p.actions, n - 1, p.pres[n - 1]);
    }

    ghost predicate CameFrom(c: C, p: Progress, c2: C) {
      p.completed <= |p.actions| && deps.Went(c, p.actions, p.pres, p.completed)
          && c2 == deps.Forward(c, p.actions, p.completed)
    }

    /** The reverse loop; with reversible actions and no error, the cloud is back where it was. */
    method UndoCompleted(id: PlanId, p: Progress, ghost c: C, ghost q: Req) returns (rolled: seq<nat>, errs: nat)
      requires Valid() && q.id == id && Has(q, Undo(p, p.completed, [], 0))
      requires deps.undo.Some? && p.completed <= |p.actions| && p.completed <= |p.pres|
      modifies this`calls, this`now, this`sys, this`labels, this`cloud, store
      ensures Valid() && Has(q, Undo(p, 0, rolled, errs))
      ensures Reversible(deps) && CameFrom(c, p, old(cloud)) && errs == 0 ==> cloud == c
      ensures cloud == deps.Unwind(old(cloud), p.actions, p.pres, p.completed)
    {
      rolled, errs := [], 0;
      var next: nat := p.completed;
      while next > 0
        invariant Valid() && Has(q, Undo(p, next, rolled, errs)) && next <= p.completed
        invariant Reversible(deps) && CameFrom(c, p, old(cloud)) && errs == 0 ==>
          cloud == deps.Forward(c, p.actions, next)
        invariant deps.Unwind(cloud, p.actions, p.pres, next) == deps.Unwind(old(cloud), p.actions, p.pres, p.completed)
      {
        if Reversible(deps) && CameFrom(c, p, old(cloud)) { StepBack(c, p, next); }
        var ok := UndoAction(id, p, next, rolled, errs, q);
        if ok { rolled := rolled + [next]; } else { errs := errs + 1; }
        next := next - 1;
      }
    }

    method MarkRolledBack(id: PlanId, p: Progress, rolled: seq<nat>, errs: nat, ghost q: Req) returns (errs2: nat)
      requires Valid() && q.id == id && Has(q, Undo(p, 0, rolled, errs))
      modifies this`calls, this`now, this`sys, this`labels, store
      ensures Valid() && Has(q, AfterUndo(p, rolled, errs2)) && errs2 >= errs
    {
      Note(StepExecute(r, Env(false, NO_OUTCOME)));
      if rolled == [] { return errs; }
      assert Has(q, Mark(p, rolled, errs));
      if !deps.hasMarker {
        Note(StepExecute(r, Env(false, NO_OUTCOME)));
        return errs;
      }
      var fault := Wait();
      var res := store.MarkAuditRolledBack(id, rolled, now, fault);
      Note(StepExecute(r, Env(fault, NO_OUTCOME)));
      errs2 := if res.Err? then errs + 1 else errs;
    }

    method FinishPlan(id: PlanId, p: Progress, final: Status, rolled: seq<nat>, ghost q: Req) returns (resp: Response)
      requires Valid() && q.id == id && Has(q, Finish(p, final, rolled))
      modifies this`calls, this`now, this`sys, this`labels, store
      ensures Valid() && Has(q, Done(resp))
      ensures resp == Refused(500) || resp == Finished(final, p.completed, |rolled|)
      ensures Actions(sys, id) == |p.actions|
    {
      var fault := Wait();
      InLoopFacts(deps.Cfg(), sys, r);
      ActionsStep(deps.Cfg(), sys, StepExecute(r, Env(fault, NO_OUTCOME)), id);
      var res := store.FinishExecution(id, final, p.completed, now, fault);
      Note(StepExecute(r, Env(fault, NO_OUTCOME)));
      resp := if res.Err? then Refused(500) else Finished(final, p.completed, |rolled|);
    }

    // ---- the handler ---------------------------------------------------------------------

    /** A failure after which nothing is rolled back: rollback is off, or no action was completed. */
    ghost predicate NoRollback(completed: nat) { !deps.Cfg().canUndo || completed == 0 }

    /**
      The cloud that a failed run leaves, whatever the executors are: that of the completed actions
      and the failing one, rolled back as far as the rollbacks went.
    */
    ghost predicate FailedCloud(c: C, actions: seq<Action>, completed: nat, c2: C) {
      && completed < |actions|
      && var c1 := deps.Turn(c, actions, completed).cloud;
         if NoRollback(completed) then c2 == c1
         else exists pres :: deps.Went(c, actions, pres, completed) && c2 == deps.Unwind(c1, actions, pres, completed)
    }

    /** The loop, the rollback and the final status; last is what the handler writes at the end. */
    method RunAndFinish(id: PlanId, actions: seq<Action>, ghost q: Req) returns (last: Response)
      requires Valid() && q.id == id && Has(q, Loop(Progress(actions, 0, [])))
      modifies this`calls, this`now, this`sys, this`labels, this`cloud, store
      ensures Valid() && Has(q, Done(last)) && Actions(sys, id) == |actions|
      ensures last == Refused(500) || (last.Finished? && last.completed <= |actions|)
      ensures actions == [] ==> cloud == old(cloud)
      ensures last.Finished? && last.final == RolledBack && Reversible(deps) ==> cloud == old(cloud)
      ensures last.Finished? && last.final == Failed && NoRollback(last.completed) && Reversible(deps) ==>
        cloud == deps.Forward(old(cloud), actions, last.completed)
      ensures last.Finished? && last.final == Failed ==> FailedCloud(old(cloud), actions, last.completed, cloud)
      ensures last.Finished? && last.final == Completed && q.began ==>
        last.completed == |actions| && cloud == deps.Forward(old(cloud), actions, |actions|)
    {
      var completed, failed, pres, missed := RunActions(id, actions, q);
      var p := Progress(actions, completed, pres);
      var final, rolled := if failed then Failed else Completed, [];
      if failed && completed > 0 && deps.undo.Some? && deps.rollbackEnabled {
        var errs;
        rolled, errs := UndoCompleted(id, p, old(cloud), q);
        errs := MarkRolledBack(id, p, rolled, errs, q);
        final := if errs == 0 then RolledBack else Failed;
      }
      last := FinishPlan(id, p, final, rolled, q);
    }

    /** From BeginExecution on: the client gets the first status code written. */
    method BeginAndRun(id: PlanId, plan: Plan) returns (resp: Response, ghost last: Response)
      requires Valid() && exists since :: Has(NewReq(id), TryBegin(plan, since))
      modifies this`calls, this`now, this`sys, this`labels, this`cloud, store
      ensures Valid() && r in sys.reqs && sys.reqs[r].id == id && sys.reqs[r].pc == Done(last)
      ensures sys.reqs[r].began <==> sys.reqs[r].sent.None?
      ensures resp == Answer(sys.reqs[r]) && Actions(sys, id) == |plan.actions|
      ensures plan.actions == [] ==> cloud == old(cloud)
      ensures last.Finished? && last.final == RolledBack && Reversible(deps) ==> cloud == old(cloud)
      ensures last.Finished? && last.final == Failed && NoRollback(last.completed) && Reversible(deps)
              && last.completed <= |plan.actions| ==>
        cloud == deps.Forward(old(cloud), plan.actions, last.completed)
      ensures last.Finished? && last.final == Failed ==> FailedCloud(old(cloud), plan.actions, last.completed, cloud)
      ensures resp.Finished? && resp.final == Completed ==>
        resp.completed == |plan.actions| && cloud == deps.Forward(old(cloud), plan.actions, |plan.actions|)
    {
      var sent, q := Begin(id, plan);
      var written := RunAndFinish(id, plan.actions, q);
      last := written;
      resp := if sent.Some? then Refused(sent.value) else written;
    }

    /**
      The whole handler, in any world.  The answer is the one of the machine's run.  Whether it has
      called anything is told by the answer: a client told 404 or 409 has caused a call exactly when
      the handler went on after a failed begin with an action to run.  Without a call the cloud is
      untouched, and a run whose plan ends rolled back leaves it as it was.
    */
    method Execute(id: int) returns (resp: Response)
      requires Valid() && r !in sys.reqs
      modifies this`calls, this`now, this`sys, this`labels, this`cloud, store
      ensures Valid()
      ensures id <= 0 ==> resp == Refused(400) && sys == old(sys) && cloud == old(cloud)
      ensures id > 0 ==> r in sys.reqs && sys.reqs[r].id == id && sys.reqs[r].pc.Done? && resp == Answer(sys.reqs[r])
      ensures id > 0 && resp in {Refused(404), Refused(409)} ==>
        (HasCalled(sys, id, r) <==> sys.reqs[r].sent.Some? && Actions(sys, id) > 0)
      ensures id > 0 && !HasCalled(sys, id, r) ==> cloud == old(cloud)
      ensures id > 0 && sys.reqs[r].pc.resp.Finished? && sys.reqs[r].pc.resp.final == RolledBack && Reversible(deps) ==>
        cloud == old(cloud)
    {
      if id <= 0 { return Refused(400); }
      Arrive(id);
      var got := GetPlan(id);
      if got.Err? { resp := Refused(500); Told(id); return; }
      if got.value.None? { resp := Refused(404); Told(id); return; }
      var plan := got.value.value;
      if !CanTransition(plan.status, Running) { resp := Refused(409); Told(id); return; }
      var code := CheckRate(id, plan);
      if code.Some? { resp := Refused(code.value); Told(id); return; }
      ghost var last;
      resp, last := BeginAndRun(id, plan);
      Told(id);
    }

    ghost method Told(id: PlanId)
      requires Valid() && r in sys.reqs && sys.reqs[r].id == id && sys.reqs[r].pc.Done?
      ensures HasCalled(sys, id, r) <==> (sys.reqs[r].began || sys.reqs[r].sent.Some?) && Actions(sys, id) > 0
      ensures Answer(sys.reqs[r]) in {Refused(404), Refused(409)} ==>
        (HasCalled(sys, id, r) <==> sys.reqs[r].sent.Some? && Actions(sys, id) > 0)
    {
      assert CallOk(deps.Cfg(), sys, r, id);
      DoneTells(deps.Cfg(), Own(sys, id, r), r, sys.reqs[r], Actions(sys, id));
    }
  }
}
