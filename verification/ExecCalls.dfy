/**
  The calls that each execute request makes for its plan, in every run, whether or not the handler
  returns after a failed BeginExecution: always once each and in order.  Who may have called
  anything, when at-most-once holds of a plan, and what an answer says about it.
*/
module ExecCalls {
  import opened Basics
  import opened ExecStore
  import opened ExecProtocol
  import opened ExecInvariant
  import opened ExecTheorems

  // ---- the calls of one request ----------------------------------------------------------

  function CapturesBy(cs: seq<Capture>, r: ReqId): (own: seq<Capture>) {
    if cs == [] then [] else (
      var front, c := CapturesBy(cs[..|cs| - 1], r), cs[|cs| - 1];
      if c.req == r then front + [c] else front)
  }

  function RunsBy(cs: seq<RunCall>, r: ReqId): (own: seq<RunCall>) {
    if cs == [] then [] else (
      var front, c := RunsBy(cs[..|cs| - 1], r), cs[|cs| - 1];
      if c.req == r then front + [c] else front)
  }

  function UndosBy(cs: seq<UndoCall>, r: ReqId): (own: seq<UndoCall>) {
    if cs == [] then [] else (
      var front, c := UndosBy(cs[..|cs| - 1], r), cs[|cs| - 1];
      if c.req == r then front + [c] else front)
  }

  function OnlyOf(t: Trail, r: ReqId): (own: Trail) {
    Trail(CapturesBy(t.captures, r), RunsBy(t.runs, r), UndosBy(t.undos, r))
  }

  /** The calls that r has made for plan id. */
  function Own(s: Sys, id: PlanId, r: ReqId): (own: Trail) { OnlyOf(TrailOf(s, id), r) }

  predicate HasCalled(s: Sys, id: PlanId, r: ReqId) { Own(s, id, r) != NO_TRAIL }

  lemma PushCapture(t: Trail, c: Capture, r: ReqId)
    ensures OnlyOf(t.(captures := t.captures + [c]), r)
      == (if c.req == r then OnlyOf(t, r).(captures := OnlyOf(t, r).captures + [c]) else OnlyOf(t, r))
  {
  }

  lemma PushRun(t: Trail, c: RunCall, r: ReqId)
    ensures OnlyOf(t.(runs := t.runs + [c]), r)
      == (if c.req == r then OnlyOf(t, r).(runs := OnlyOf(t, r).runs + [c]) else OnlyOf(t, r))
  {
  }

  lemma PushUndo(t: Trail, c: UndoCall, r: ReqId)
    ensures OnlyOf(t.(undos := t.undos + [c]), r)
      == (if c.req == r then OnlyOf(t, r).(undos := OnlyOf(t, r).undos + [c]) else OnlyOf(t, r))
  {
  }

  lemma {:induction false} CapturesOf(cs: seq<Capture>, r: ReqId)
    ensures CapturesBy(cs, r) != [] <==> exists i :: 0 <= i < |cs| && cs[i].req == r
    ensures (forall i :: 0 <= i < |cs| ==> cs[i].req == r) ==> CapturesBy(cs, r) == cs
  {
    if cs != [] { CapturesOf(cs[..|cs| - 1], r); }
  }

  lemma {:induction false} RunsOf(cs: seq<RunCall>, r: ReqId)
    ensures RunsBy(cs, r) != [] <==> exists i :: 0 <= i < |cs| && cs[i].req == r
    ensures (forall i :: 0 <= i < |cs| ==> cs[i].req == r) ==> RunsBy(cs, r) == cs
  {
    if cs != [] { RunsOf(cs[..|cs| - 1], r); }
  }

  lemma {:induction false} UndosOf(cs: seq<UndoCall>, r: ReqId)
    ensures UndosBy(cs, r) != [] <==> exists i :: 0 <= i < |cs| && cs[i].req == r
    ensures (forall i :: 0 <= i < |cs| ==> cs[i].req == r) ==> UndosBy(cs, r) == cs
  {
    if cs != [] { UndosOf(cs[..|cs| - 1], r); }
  }

  // ---- where a request stands, and its calls ---------------------------------------------

  /** The number of actions of a plan. */
  function Actions(s: Sys, id: PlanId): (n: nat) { if id in s.db.plans then |s.db.plans[id].actions| else 0 }

  /** All calls have been made: at least one, if there was an action. */
  ghost predicate Ended(cfg: Config, own: Trail, r: ReqId, n: nat) {
    OnceInOrder(cfg, own, r, n) && CapturesInOrder(cfg, own, r, |own.runs|) && (n > 0 ==> own.runs != [])
  }

  ghost predicate OwnOk(cfg: Config, own: Trail, r: ReqId, q: Req, n: nat) {
    match q.pc
    case Loop(p) =>
      CapturesInOrder(cfg, own, r, p.completed) && RunsInOrder(own, r, p.completed, false) && own.undos == []
    case Act(p) =>
      CapturesInOrder(cfg, own, r, p.completed + 1) && RunsInOrder(own, r, p.completed, false) && own.undos == []
    case Record(p, out) =>
      && CapturesInOrder(cfg, own, r, p.completed + 1) && own.undos == []
      && RunsInOrder(own, r, if out.ok then p.completed + 1 else p.completed, !out.ok)
    case Undo(p, next, _, _) =>
      && p.completed < n && next <= p.completed
      && CapturesInOrder(cfg, own, r, p.completed + 1) && RunsInOrder(own, r, p.completed, true)
      && UndosInReverse(own, r, p.completed, p.completed - next)
    case Mark(p, _, _) =>
      && p.completed < n
      && CapturesInOrder(cfg, own, r, p.completed + 1) && RunsInOrder(own, r, p.completed, true)
      && UndosInReverse(own, r, p.completed, p.completed)
    case Finish(_, _, _) => Ended(cfg, own, r, n)
    case Done(resp) =>
      if q.began || q.sent.Some? then Ended(cfg, own, r, n) && (resp.Finished? || resp == Refused(500))
      else own == NO_TRAIL
    case _ => own == NO_TRAIL
  }

  ghost predicate CallOk(cfg: Config, s: Sys, r: ReqId, id: PlanId) {
    if r in s.reqs && s.reqs[r].id == id then OwnOk(cfg, Own(s, id, r), r, s.reqs[r], Actions(s, id))
    else Own(s, id, r) == NO_TRAIL
  }

  ghost predicate CallsInv(cfg: Config, s: Sys) {
    forall r: ReqId, id: PlanId {:trigger CallOk(cfg, s, r, id)} :: CallOk(cfg, s, r, id)
  }

  // The steps of a request, by what they do to its own calls.

  lemma LoopOwn(cfg: Config, own: Trail, r: ReqId, q: Req, n: nat, pre: Option<Json>)
    requires q.pc.Loop? && q.pc.p.completed <= |q.pc.p.actions| == n && OwnOk(cfg, own, r, q, n)
    ensures q.pc.p.completed == n ==> OwnOk(cfg, own, r, q.(pc := AfterLoop(cfg, q.pc.p, false)), n)
    ensures q.pc.p.completed < n ==>
      OwnOk(cfg, if cfg.hasDriver then own.(captures := own.captures + [Capture(r, q.pc.p.completed)]) else own, r,
            q.(pc := Act(q.pc.p.(pres := q.pc.p.pres + [pre]))), n)
  {
  }

  lemma ActOwn(cfg: Config, own: Trail, r: ReqId, q: Req, n: nat, out: Outcome)
    requires q.pc.Act? && OwnOk(cfg, own, r, q, n)
    ensures OwnOk(cfg, own.(runs := own.runs + [RunCall(r, q.pc.p.completed, out)]), r,
        q.(pc := Record(q.pc.p, out)), n)
  {
  }

  lemma RecordOwn(cfg: Config, own: Trail, r: ReqId, q: Req, n: nat, found: bool)
    requires q.pc.Record? && q.pc.p.completed < n && OwnOk(cfg, own, r, q, n)
    ensures OwnOk(cfg, own, r, q.(pc := AfterRecord(cfg, q.pc.p, q.pc.out, found)), n)
  {
  }

  lemma UndoOwn(cfg: Config, own: Trail, r: ReqId, q: Req, n: nat, ok: bool)
    requires q.pc.Undo? && q.pc.next > 0 && OwnOk(cfg, own, r, q, n)
    ensures OwnOk(cfg, own.(undos := own.undos + [UndoCall(r, q.pc.next - 1, ok)]), r,
        q.(pc := AfterUndoCall(q.pc, ok)), n)
  {
  }

  lemma UndoneOwn(cfg: Config, own: Trail, r: ReqId, q: Req, n: nat, p: Progress, rolled: seq<nat>, errs: nat,
                  errs2: nat)
    requires q.pc == Undo(p, 0, rolled, errs) || q.pc == Mark(p, rolled, errs)
    requires OwnOk(cfg, own, r, q, n)
    ensures OwnOk(cfg, own, r, q.(pc := Mark(p, rolled, errs)), n)
    ensures OwnOk(cfg, own, r, q.(pc := AfterUndo(p, rolled, errs2)), n)
  {
  }

  /** Facts of the invariant about a request inside the loop. */
  lemma InLoopFacts(cfg: Config, s: Sys, r: ReqId)
    requires Inv(cfg, s) && r in s.reqs && InLoop(s.reqs[r].pc)
    ensures var q := s.reqs[r];
      && q.id in s.db.plans && q.pc.p.actions == s.db.plans[q.id].actions && q.pc.p.completed <= |q.pc.p.actions|
      && (q.pc.Act? || q.pc.Record? ==> q.pc.p.completed < |q.pc.p.actions|)
      && (q.began || q.sent.Some?)
  {
    assert ReqOk(cfg, s, r);
  }

  /** What a step of r leaves of the trails, and of r. */
  ghost predicate OwnStep(s: Sys, s2: Sys, r: ReqId, own2: Trail, q2: Req) {
    && r in s.reqs && s2.reqs == s.reqs[r := q2] && q2.id == s.reqs[r].id
    && Own(s2, s.reqs[r].id, r) == own2
    && (forall q: ReqId, id: PlanId {:trigger Own(s2, id, q)} :: q != r || id != s.reqs[r].id ==>
        Own(s2, id, q) == Own(s, id, q))
  }

  lemma SameTrail(s: Sys, s2: Sys, r: ReqId)
    requires r in s.reqs && r in s2.reqs && s2.trail == s.trail
    requires s2.reqs == s.reqs[r := s2.reqs[r]] && s2.reqs[r].id == s.reqs[r].id
    ensures OwnStep(s, s2, r, Own(s, s.reqs[r].id, r), s2.reqs[r])
  {
    forall q: ReqId, id: PlanId ensures Own(s2, id, q) == Own(s, id, q) {
      assert TrailOf(s2, id) == TrailOf(s, id);
    }
  }

  lemma OneTrail(s: Sys, s2: Sys, r: ReqId, t2: Trail)
    requires r in s.reqs && r in s2.reqs && s2.trail == s.trail[s.reqs[r].id := t2]
    requires s2.reqs == s.reqs[r := s2.reqs[r]] && s2.reqs[r].id == s.reqs[r].id
    requires forall q {:trigger OnlyOf(t2, q)} :: q != r ==> OnlyOf(t2, q) == OnlyOf(TrailOf(s, s.reqs[r].id), q)
    ensures OwnStep(s, s2, r, OnlyOf(t2, r), s2.reqs[r])
  {
    forall q: ReqId, id: PlanId | q != r || id != s.reqs[r].id ensures Own(s2, id, q) == Own(s, id, q) {
      if id == s.reqs[r].id {
        assert TrailOf(s2, id) == t2 && OnlyOf(t2, q) == OnlyOf(TrailOf(s, id), q);
      } else {
        assert TrailOf(s2, id) == TrailOf(s, id);
      }
    }
  }

  /** A step of r keeps the invariant if r's own calls are as they should be afterwards. */
  lemma OwnStepKeeps(cfg: Config, s: Sys, s2: Sys, r: ReqId, own2: Trail, q2: Req)
    requires CallsInv(cfg, s) && OwnStep(s, s2, r, own2, q2)
    requires forall id :: Actions(s2, id) == Actions(s, id)
    requires OwnOk(cfg, own2, r, q2, Actions(s, s.reqs[r].id))
    ensures CallsInv(cfg, s2)
  {
    forall q: ReqId, id: PlanId ensures CallOk(cfg, s2, q, id) {
      assert CallOk(cfg, s, q, id);
      if q != r || id != s.reqs[r].id { assert Own(s2, id, q) == Own(s, id, q); }
    }
  }

  lemma ActionsStay(cfg: Config, s: Sys, r: ReqId, env: Env, id: PlanId)
    requires r in s.reqs
    ensures Actions(DoExecute(cfg, s, r, env), id) == Actions(s, id)
  {
    PlanWrites(cfg, s, r, env);
  }

  lemma AllActionsStay(cfg: Config, s: Sys, r: ReqId, env: Env)
    requires r in s.reqs
    ensures forall id :: Actions(DoExecute(cfg, s, r, env), id) == Actions(s, id)
  {
    forall id ensures Actions(DoExecute(cfg, s, r, env), id) == Actions(s, id) { ActionsStay(cfg, s, r, env, id); }
  }

  lemma LoopCalls(cfg: Config, s: Sys, r: ReqId, env: Env)
    requires Inv(cfg, s) && CallsInv(cfg, s) && r in s.reqs && s.reqs[r].pc.Loop?
    ensures CallsInv(cfg, DoLoop(cfg, s, r, env))
  {
    var q, s2 := s.reqs[r], DoLoop(cfg, s, r, env);
    var t, p := TrailOf(s, q.id), q.pc.p;
    InLoopFacts(cfg, s, r);
    AllActionsStay(cfg, s, r, env);
    assert CallOk(cfg, s, r, q.id);
    LoopOwn(cfg, Own(s, q.id, r), r, q, Actions(s, q.id), if cfg.hasDriver then Some(env.out.post) else None);
    if p.completed < |p.actions| && cfg.hasDriver {
      var t2 := t.(captures := t.captures + [Capture(r, p.completed)]);
      var call := Capture(r, p.completed);
      forall x
        ensures OnlyOf(t2, x)
          == if x == r then OnlyOf(t, x).(captures := OnlyOf(t, x).captures + [call]) else OnlyOf(t, x)
      {
        PushCapture(t, call, x);
      }
      OneTrail(s, s2, r, t2);
      OwnStepKeeps(cfg, s, s2, r, OnlyOf(t2, r), s2.reqs[r]);
    } else {
      SameTrail(s, s2, r);
      OwnStepKeeps(cfg, s, s2, r, Own(s, q.id, r), s2.reqs[r]);
    }
  }

  lemma ActCalls(cfg: Config, s: Sys, r: ReqId, env: Env)
    requires Inv(cfg, s) && CallsInv(cfg, s) && r in s.reqs && s.reqs[r].pc.Act?
    ensures CallsInv(cfg, DoAct(cfg, s, r, env))
  {
    var q, s2 := s.reqs[r], DoAct(cfg, s, r, env);
    var t, call := TrailOf(s, q.id), RunCall(r, q.pc.p.completed, if cfg.hasDriver then env.out else STUB_OUTCOME);
    AllActionsStay(cfg, s, r, env);
    assert CallOk(cfg, s, r, q.id);
    ActOwn(cfg, Own(s, q.id, r), r, q, Actions(s, q.id), call.out);
    var t2 := t.(runs := t.runs + [call]);
    forall x
      ensures OnlyOf(t2, x) == if x == r then OnlyOf(t, x).(runs := OnlyOf(t, x).runs + [call]) else OnlyOf(t, x)
    {
      PushRun(t, call, x);
    }
    OneTrail(s, s2, r, t2);
    OwnStepKeeps(cfg, s, s2, r, OnlyOf(t2, r), s2.reqs[r]);
  }

  lemma UndoCalls(cfg: Config, s: Sys, r: ReqId, env: Env)
    requires Inv(cfg, s) && CallsInv(cfg, s) && r in s.reqs && s.reqs[r].pc.Undo? && s.reqs[r].pc.next > 0
    ensures CallsInv(cfg, DoUndo(s, r, env))
  {
    var q, s2 := s.reqs[r], DoUndo(s, r, env);
    var t, call := TrailOf(s, q.id), UndoCall(r, q.pc.next - 1, env.out.ok);
    AllActionsStay(cfg, s, r, env);
    assert CallOk(cfg, s, r, q.id);
    UndoOwn(cfg, Own(s, q.id, r), r, q, Actions(s, q.id), env.out.ok);
    var t2 := t.(undos := t.undos + [call]);
    forall x
      ensures OnlyOf(t2, x) == if x == r then OnlyOf(t, x).(undos := OnlyOf(t, x).undos + [call]) else OnlyOf(t, x)
    {
      PushUndo(t, call, x);
    }
    OneTrail(s, s2, r, t2);
    OwnStepKeeps(cfg, s, s2, r, OnlyOf(t2, r), s2.reqs[r]);
  }

  /** The other steps call nothing. */
  ghost predicate CallsNothing(pc: Pc) { !pc.Loop? && !pc.Act? && !(pc.Undo? && pc.next > 0) }

  lemma QuietRequest(cfg: Config, s: Sys, r: ReqId, env: Env)
    requires r in s.reqs && CallsNothing(s.reqs[r].pc)
    ensures var s2 := DoExecute(cfg, s, r, env);
      s2.trail == s.trail && r in s2.reqs && s2.reqs == s.reqs[r := s2.reqs[r]] && s2.reqs[r].id == s.reqs[r].id
  {
    RequestWrites(cfg, s, r, env);
    if s.reqs[r].pc.TryBegin? || s.reqs[r].pc.BeginMissed? {
      QuietBegin(cfg, s, r, env);
    } else if s.reqs[r].pc.Record? {
      QuietRecord(cfg, s, r, env);
    } else if InLoop(s.reqs[r].pc) {
      QuietEnd(cfg, s, r, env);
    }
  }

  lemma QuietBegin(cfg: Config, s: Sys, r: ReqId, env: Env)
    requires r in s.reqs && (s.reqs[r].pc.TryBegin? || s.reqs[r].pc.BeginMissed?)
    ensures var s2 := DoExecute(cfg, s, r, env); s2.trail == s.trail && s2.reqs[r].id == s.reqs[r].id
  {
  }

  lemma QuietRecord(cfg: Config, s: Sys, r: ReqId, env: Env)
    requires r in s.reqs && s.reqs[r].pc.Record?
    ensures var s2 := DoRecord(cfg, s, r, env); s2.trail == s.trail && s2.reqs[r].id == s.reqs[r].id
  {
  }

  lemma QuietEnd(cfg: Config, s: Sys, r: ReqId, env: Env)
    requires r in s.reqs && CallsNothing(s.reqs[r].pc) && (s.reqs[r].pc.Undo? || s.reqs[r].pc.Mark?
        || s.reqs[r].pc.Finish?)
    ensures var s2 := DoExecute(cfg, s, r, env); s2.trail == s.trail && s2.reqs[r].id == s.reqs[r].id
  {
  }

  /** After a step of r its own calls, which the step has not added to, are as they should be. */
  ghost predicate StillOwn(cfg: Config, s: Sys, s2: Sys, r: ReqId)
    requires r in s.reqs
  {
    r in s2.reqs && OwnOk(cfg, Own(s, s.reqs[r].id, r), r, s2.reqs[r], Actions(s, s.reqs[r].id))
  }

  lemma BeforeBeginOwn(cfg: Config, s: Sys, r: ReqId, env: Env)
    requires r in s.reqs && (s.reqs[r].pc.ReadPlan? || s.reqs[r].pc.TakeWindow? || s.reqs[r].pc.CountStarts?)
    requires !s.reqs[r].began && s.reqs[r].sent.None? && StillOwn(cfg, s, s, r)
    ensures StillOwn(cfg, s, DoExecute(cfg, s, r, env), r)
  {
  }

  lemma BeginOwn(cfg: Config, s: Sys, r: ReqId, env: Env)
    requires r in s.reqs && (s.reqs[r].pc.TryBegin? || s.reqs[r].pc.BeginMissed?)
    requires !s.reqs[r].began && s.reqs[r].sent.None? && StillOwn(cfg, s, s, r)
    ensures StillOwn(cfg, s, DoExecute(cfg, s, r, env), r)
  {
  }

  lemma RollbackOwn(cfg: Config, s: Sys, r: ReqId, env: Env)
    requires r in s.reqs && (s.reqs[r].pc.Undo? || s.reqs[r].pc.Mark?)
    requires CallsNothing(s.reqs[r].pc) && StillOwn(cfg, s, s, r)
    ensures StillOwn(cfg, s, DoExecute(cfg, s, r, env), r)
  {
    var q, own, n := s.reqs[r], Own(s, s.reqs[r].id, r), Actions(s, s.reqs[r].id);
    UndoneOwn(cfg, own, r, q, n, q.pc.p, q.pc.rolled, q.pc.errs, q.pc.errs);
    UndoneOwn(cfg, own, r, q, n, q.pc.p, q.pc.rolled, q.pc.errs, q.pc.errs + 1);
  }

  lemma FinishOwn(cfg: Config, s: Sys, r: ReqId, env: Env)
    requires r in s.reqs && s.reqs[r].pc.Finish? && (s.reqs[r].began || s.reqs[r].sent.Some?) && StillOwn(cfg, s, s, r)
    ensures StillOwn(cfg, s, DoExecute(cfg, s, r, env), r)
  {
  }

  lemma RecordedOwn(cfg: Config, s: Sys, r: ReqId, env: Env)
    requires r in s.reqs && s.reqs[r].pc.Record? && s.reqs[r].pc.p.completed < Actions(s, s.reqs[r].id)
        && StillOwn(cfg, s, s, r)
    ensures StillOwn(cfg, s, DoExecute(cfg, s, r, env), r)
  {
    var q := s.reqs[r];
    RecordOwn(cfg, Own(s, q.id, r), r, q, Actions(s, q.id), true);
    RecordOwn(cfg, Own(s, q.id, r), r, q, Actions(s, q.id), false);
  }

  lemma QuietOwn(cfg: Config, s: Sys, r: ReqId, env: Env)
    requires Inv(cfg, s) && r in s.reqs && CallsNothing(s.reqs[r].pc) && StillOwn(cfg, s, s, r)
    ensures StillOwn(cfg, s, DoExecute(cfg, s, r, env), r)
  {
    var pc := s.reqs[r].pc;
    assert ReqOk(cfg, s, r);
    if InLoop(pc) { InLoopFacts(cfg, s, r); }
    if pc.Record? { RecordedOwn(cfg, s, r, env); }
    else if pc.Finish? { FinishOwn(cfg, s, r, env); }
    else if pc.Undo? || pc.Mark? { RollbackOwn(cfg, s, r, env); }
    else if pc.TryBegin? || pc.BeginMissed? { BeginOwn(cfg, s, r, env); }
    else if !pc.Done? { BeforeBeginOwn(cfg, s, r, env); }
  }

  lemma QuietCalls(cfg: Config, s: Sys, r: ReqId, env: Env)
    requires Inv(cfg, s) && CallsInv(cfg, s) && r in s.reqs && CallsNothing(s.reqs[r].pc)
    ensures CallsInv(cfg, DoExecute(cfg, s, r, env))
  {
    var q, s2 := s.reqs[r], DoExecute(cfg, s, r, env);
    assert CallOk(cfg, s, r, q.id);
    QuietRequest(cfg, s, r, env);
    QuietOwn(cfg, s, r, env);
    AllActionsStay(cfg, s, r, env);
    SameTrail(s, s2, r);
    OwnStepKeeps(cfg, s, s2, r, Own(s, q.id, r), s2.reqs[r]);
  }

  lemma ExecuteCalls(cfg: Config, s: Sys, r: ReqId, env: Env)
    requires Inv(cfg, s) && CallsInv(cfg, s) && r in s.reqs
    ensures CallsInv(cfg, DoExecute(cfg, s, r, env))
  {
    var pc := s.reqs[r].pc;
    if pc.Loop? { LoopCalls(cfg, s, r, env); }
    else if pc.Act? { ActCalls(cfg, s, r, env); }
    else if pc.Undo? && pc.next > 0 { UndoCalls(cfg, s, r, env); }
    else { QuietCalls(cfg, s, r, env); }
  }

  lemma OtherTrail(cfg: Config, s: Sys, l: Label)
    requires !l.StepExecute?
    ensures Next(cfg, s, l).trail == s.trail
  {
  }

  /** A label that is no step of an execute request. */
  lemma OtherCalls(cfg: Config, s: Sys, l: Label)
    requires Inv(cfg, s) && CallsInv(cfg, s) && !l.StepExecute?
    ensures CallsInv(cfg, Next(cfg, s, l))
  {
    var s2 := Next(cfg, s, l);
    forall r: ReqId, id: PlanId ensures CallOk(cfg, s2, r, id) {
      assert CallOk(cfg, s, r, id) && PlanOk(cfg, s, id) && ReqOk(cfg, s, r);
      OtherTrail(cfg, s, l);
      OtherLabels(cfg, s, l, r, id);
      OtherCall(cfg, s, s2, r, id);
    }
  }

  /** What a label that is no step of an execute request leaves of the requests and the plans. */
  ghost predicate OtherLabel(s: Sys, s2: Sys, r: ReqId, id: PlanId) {
    && (r in s.reqs ==> r in s2.reqs && s2.reqs[r] == s.reqs[r])
    && (r !in s.reqs && r in s2.reqs ==> s2.reqs[r].pc.ReadPlan?)
    && (id in s.db.plans ==> Actions(s2, id) == Actions(s, id))
  }

  lemma OtherLabels(cfg: Config, s: Sys, l: Label, r: ReqId, id: PlanId)
    requires !l.StepExecute? && (id in s.db.plans ==> id <= s.db.lastId)
    ensures OtherLabel(s, Next(cfg, s, l), r, id)
  {
    if l.StepApprove? && l.r in s.approvals {
      var s2 := DoApprove(s, l.r, l.fault);
      assert s2.reqs == s.reqs;
    }
  }

  lemma OtherCall(cfg: Config, s: Sys, s2: Sys, r: ReqId, id: PlanId)
    requires OtherLabel(s, s2, r, id) && CallOk(cfg, s, r, id) && Own(s2, id, r) == Own(s, id, r)
    requires id !in s.db.plans && r in s.reqs && s.reqs[r].id == id ==>
      !InLoop(s.reqs[r].pc) && !s.reqs[r].began && s.reqs[r].sent.None?
    ensures CallOk(cfg, s2, r, id)
  {
  }

  lemma {:induction false} CallsAlong(cfg: Config, labels: seq<Label>)
    ensures CallsInv(cfg, After(cfg, labels))
  {
    if labels != [] {
      var front, l := labels[..|labels| - 1], labels[|labels| - 1];
      CallsAlong(cfg, front);
      AfterOk(cfg, front);
      NextCalls(cfg, After(cfg, front), l);
    }
  }

  lemma NextCalls(cfg: Config, s: Sys, l: Label)
    requires Inv(cfg, s) && CallsInv(cfg, s)
    ensures CallsInv(cfg, Next(cfg, s, l))
  {
    if !l.StepExecute? {
      OtherCalls(cfg, s, l);
    } else if l.r in s.reqs {
      ExecuteCalls(cfg, s, l.r, l.env);
    }
  }

  // ---- theorems --------------------------------------------------------------------------

  lemma OwnOnceAt(cfg: Config, own: Trail, r: ReqId, q: Req, n: nat)
    requires OwnOk(cfg, own, r, q, n)
    requires InLoop(q.pc) ==> q.pc.p.completed <= n
    requires q.pc.Act? || q.pc.Record? ==> q.pc.p.completed < n
    ensures OnceInOrder(cfg, own, r, n)
  {
  }

  /**
    As written or not, in every interleaving, a request calls only for its own plan, each action at
    most once and in order, stopping at the first failure, and undoes only completed actions, in
    reverse.
  */
  lemma OwnOnce(cfg: Config, labels: seq<Label>, r: ReqId, id: PlanId)
    ensures var s := After(cfg, labels);
      if r in s.reqs && s.reqs[r].id == id then OnceInOrder(cfg, Own(s, id, r), r, Actions(s, id))
      else Own(s, id, r) == NO_TRAIL
  {
    var s := After(cfg, labels);
    AfterOk(cfg, labels);
    CallsAlong(cfg, labels);
    assert CallOk(cfg, s, r, id);
    if r in s.reqs && s.reqs[r].id == id {
      if InLoop(s.reqs[r].pc) { InLoopFacts(cfg, s, r); }
      OwnOnceAt(cfg, Own(s, id, r), r, s.reqs[r], Actions(s, id));
    }
  }

  /** What AtMostOnce says of a plan. */
  ghost predicate RunOnce(cfg: Config, s: Sys, id: PlanId) {
    if id in s.starter then OnceInOrder(cfg, TrailOf(s, id), s.starter[id], Actions(s, id))
    else TrailOf(s, id) == NO_TRAIL
  }

  lemma OnceBy(cfg: Config, t: Trail, r: ReqId, n: nat, x: ReqId)
    requires OnceInOrder(cfg, t, r, n) && OnlyOf(t, x) != NO_TRAIL
    ensures x == r
  {
    CapturesOf(t.captures, x);
    RunsOf(t.runs, x);
    UndosOf(t.undos, x);
  }

  /** If only r has called, the calls are r's calls. */
  lemma OnlyOne(t: Trail, r: ReqId)
    requires forall x :: x != r ==> OnlyOf(t, x) == NO_TRAIL
    ensures OnlyOf(t, r) == t
  {
    forall i | 0 <= i < |t.captures| ensures t.captures[i].req == r {
      if t.captures[i].req != r {
        assert OnlyOf(t, t.captures[i].req) == NO_TRAIL;
        CapturesOf(t.captures, t.captures[i].req);
      }
    }
    forall i | 0 <= i < |t.runs| ensures t.runs[i].req == r {
      if t.runs[i].req != r { assert OnlyOf(t, t.runs[i].req) == NO_TRAIL; RunsOf(t.runs, t.runs[i].req); }
    }
    forall i | 0 <= i < |t.undos| ensures t.undos[i].req == r {
      if t.undos[i].req != r { assert OnlyOf(t, t.undos[i].req) == NO_TRAIL; UndosOf(t.undos, t.undos[i].req); }
    }
    CapturesOf(t.captures, r);
    RunsOf(t.runs, r);
    UndosOf(t.undos, r);
  }

  lemma NoneAtAll(t: Trail, other: ReqId)
    requires forall x :: OnlyOf(t, x) == NO_TRAIL
    ensures t == NO_TRAIL
  {
    OnlyOne(t, other);
  }

  /**
    Exactly when at-most-once holds of a plan, in any run, as written or not: when nobody has called
    anything for the plan without having begun it.
  */
  lemma AtMostOnceExactly(cfg: Config, labels: seq<Label>, id: PlanId)
    ensures var s := After(cfg, labels);
      RunOnce(cfg, s, id) <==> forall r :: HasCalled(s, id, r) ==> HasBegun(s, r)
  {
    var s := After(cfg, labels);
    AfterOk(cfg, labels);
    assert PlanOk(cfg, s, id);
    if RunOnce(cfg, s, id) {
      forall r | HasCalled(s, id, r) ensures HasBegun(s, r) {
        if id in s.starter {
          OnceBy(cfg, TrailOf(s, id), s.starter[id], Actions(s, id), r);
          assert OwnerReq(s, id).Some?;
        }
      }
    }
    if forall r :: HasCalled(s, id, r) ==> HasBegun(s, r) {
      OnlyTheStarter(cfg, labels, id);
    }
  }

  lemma OnlyTheStarter(cfg: Config, labels: seq<Label>, id: PlanId)
    requires forall r :: HasCalled(After(cfg, labels), id, r) ==> HasBegun(After(cfg, labels), r)
    ensures RunOnce(cfg, After(cfg, labels), id)
  {
    var s := After(cfg, labels);
    AfterOk(cfg, labels);
    assert PlanOk(cfg, s, id);
    forall x | HasCalled(s, id, x) ensures id in s.starter && s.starter[id] == x {
      OwnOnce(cfg, labels, x, id);
      assert ReqOk(cfg, s, x);
    }
    if id in s.starter {
      var r := s.starter[id];
      forall x | x != r ensures OnlyOf(TrailOf(s, id), x) == NO_TRAIL { assert !HasCalled(s, id, x); }
      OnlyOne(TrailOf(s, id), r);
      OwnOnce(cfg, labels, r, id);
    } else {
      forall x ensures OnlyOf(TrailOf(s, id), x) == NO_TRAIL { assert !HasCalled(s, id, x); }
      NoneAtAll(TrailOf(s, id), 0);
    }
  }

  /**
    What an answer says, in any run, as written or not.  A request that is done has called something
    exactly when its plan has an action and it has begun the plan or gone on without; so a client
    told 404 or 409 has caused a call exactly when the handler went on after a failed begin.
  */
  lemma AnswerTells(cfg: Config, labels: seq<Label>, r: ReqId)
    requires r in After(cfg, labels).reqs && After(cfg, labels).reqs[r].pc.Done?
    ensures var s := After(cfg, labels);
      var q := s.reqs[r];
      && (HasCalled(s, q.id, r) <==> (q.began || q.sent.Some?) && Actions(s, q.id) > 0)
      && (Answer(q) in {Refused(404), Refused(409)} ==>
            (HasCalled(s, q.id, r) <==> q.sent.Some? && Actions(s, q.id) > 0))
  {
    var s := After(cfg, labels);
    AfterOk(cfg, labels);
    CallsAlong(cfg, labels);
    assert CallOk(cfg, s, r, s.reqs[r].id);
    DoneTells(cfg, Own(s, s.reqs[r].id, r), r, s.reqs[r], Actions(s, s.reqs[r].id));
  }

  lemma DoneTells(cfg: Config, own: Trail, r: ReqId, q: Req, n: nat)
    requires q.pc.Done? && OwnOk(cfg, own, r, q, n)
    ensures own != NO_TRAIL <==> (q.began || q.sent.Some?) && n > 0
    ensures q.began && q.sent.None? ==> Answer(q).Finished? || Answer(q) == Refused(500)
  {
    if n == 0 && (q.began || q.sent.Some?) { assert own.runs == [] && own.captures == []; }
  }
}
