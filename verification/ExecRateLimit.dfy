/**
  The rate limit: how many plans of an account can start within any closed hour.

  A request counts the starts of the last hour and begins its plan later; requests between the
  two do not see each other.  If at most k requests of the account ever stand there together,
  an hour holds at most limit + k - 1 starts; ExecRateTight has runs that reach this number.
*/
module ExecRateLimit {
  import opened Basics
  import opened ExecStore
  import opened ExecProtocol
  import opened ExecInvariant
  import opened ExecTheorems

  /** The plans of the account that started in the closed hour from a. */
  ghost function StartedIn(s: Sys, account: string, a: Time): (r: set<PlanId>) {
    set id | id in s.db.plans && s.db.plans[id].account == account
             && s.db.plans[id].startedAt.Some? && a <= s.db.plans[id].startedAt.value <= a + HOUR
  }

  /** The requests of the account that have passed the rate check and have not tried to begin. */
  ghost function Waiting(s: Sys, account: string): (r: set<ReqId>) {
    set r | r in s.reqs && s.reqs[r].pc.TryBegin? && s.reqs[r].pc.plan.account == account
  }

  /** Those whose count reached back to a: only they can still start within the hour from a. */
  ghost function WaitingFrom(s: Sys, account: string, a: Time): (r: set<ReqId>) {
    set r | r in s.reqs && s.reqs[r].pc.TryBegin? && s.reqs[r].pc.plan.account == account && s.reqs[r].pc.since <= a
  }

  ghost predicate Within(cfg: Config, s: Sys, account: string, k: nat, a: Time) {
    |StartedIn(s, account, a)| + |WaitingFrom(s, account, a)| < cfg.limit + k
  }

  /** A step that starts no plan and lets no request past the rate check. */
  ghost predicate Quiet(s: Sys, s2: Sys) {
    && (forall id :: id in s.db.plans ==>
          id in s2.db.plans && s2.db.plans[id].account == s.db.plans[id].account
          && s2.db.plans[id].startedAt == s.db.plans[id].startedAt)
    && (forall id :: id in s2.db.plans && id !in s.db.plans ==> s2.db.plans[id].startedAt.None?)
    && (forall r :: r in s2.reqs && s2.reqs[r].pc.TryBegin? ==> r in s.reqs && s2.reqs[r] == s.reqs[r])
  }

  lemma QuietKeeps(cfg: Config, s: Sys, s2: Sys, account: string, k: nat, a: Time)
    requires Quiet(s, s2) && Within(cfg, s, account, k, a)
    ensures Within(cfg, s2, account, k, a)
  {
    assert StartedIn(s2, account, a) == StartedIn(s, account, a);
    SubsetCard(WaitingFrom(s2, account, a), WaitingFrom(s, account, a));
  }

  lemma StartedWasCounted(cfg: Config, s: Sys, account: string, since: Time, a: Time)
    requires Inv(cfg, s) && since <= a
    ensures |StartedIn(s, account, a)| <= |StartedSince(s.db, account, since)|
  {
    forall id | id in StartedIn(s, account, a) ensures id in StartedSince(s.db, account, since) {
      assert PlanOk(cfg, s, id);
    }
    SubsetCard(StartedIn(s, account, a), StartedSince(s.db, account, since));
  }

  /** Leaving the rate check, by an answer or with fewer than limit plans seen. */
  lemma LeaveCount(cfg: Config, s: Sys, r: ReqId, pc: Pc, account: string, k: nat, a: Time)
    requires r in s.reqs && s.reqs[r].pc.CountStarts? && Within(cfg, s, account, k, a)
    requires pc.TryBegin? && pc.plan.account == account && pc.since <= a ==> |StartedIn(s, account, a)| < cfg.limit
    requires |Waiting(Goto(s, r, pc), account)| <= k
    ensures Within(cfg, Goto(s, r, pc), account, k, a)
  {
    var s2 := Goto(s, r, pc);
    assert StartedIn(s2, account, a) == StartedIn(s, account, a);
    if pc.TryBegin? && pc.plan.account == account && pc.since <= a {
      SubsetCard(WaitingFrom(s2, account, a), Waiting(s2, account));
    } else {
      SubsetCard(WaitingFrom(s2, account, a), WaitingFrom(s, account, a));
    }
  }

  lemma CountKeeps(cfg: Config, s: Sys, r: ReqId, env: Env, account: string, k: nat, a: Time)
    requires Inv(cfg, s) && r in s.reqs && s.reqs[r].pc.CountStarts? && Within(cfg, s, account, k, a)
    requires |Waiting(DoCount(cfg, s, r, env), account)| <= k
    ensures Within(cfg, DoCount(cfg, s, r, env), account, k, a)
  {
    var plan, since := s.reqs[r].pc.plan, s.reqs[r].pc.since;
    if env.fault {
      LeaveCount(cfg, s, r, Done(Refused(500)), account, k, a);
    } else if |StartedSince(s.db, plan.account, since)| >= cfg.limit {
      LeaveCount(cfg, s, r, Done(Refused(429)), account, k, a);
    } else {
      if plan.account == account && since <= a { StartedWasCounted(cfg, s, account, since, a); }
      LeaveCount(cfg, s, r, TryBegin(plan, since), account, k, a);
    }
  }

  lemma StartedAfter(s: Sys, s2: Sys, id: PlanId, p: Plan, account: string, a: Time)
    requires id in s.db.plans && s.db.plans[id].startedAt.None? && p.startedAt == Some(s.now)
    requires s2.db.plans == s.db.plans[id := p]
    ensures StartedIn(s2, account, a)
         == StartedIn(s, account, a) + (if p.account == account && a <= s.now <= a + HOUR then {id} else {})
    ensures id !in StartedIn(s, account, a)
  {
  }

  lemma WaitingAfter(s: Sys, s2: Sys, r: ReqId, q: Req, account: string, a: Time)
    requires s2.reqs == s.reqs[r := q] && !q.pc.TryBegin?
    ensures WaitingFrom(s2, account, a) == WaitingFrom(s, account, a) - {r}
  {
  }

  /** Starting: the plan enters the hours that its request was waiting for. */
  lemma BeginKeepsWithin(cfg: Config, s: Sys, r: ReqId, env: Env, account: string, k: nat, a: Time)
    requires Inv(cfg, s) && r in s.reqs && s.reqs[r].pc.TryBegin? && BeginGuard(s, s.reqs[r].id, env)
    requires Within(cfg, s, account, k, a)
    ensures Within(cfg, DoBegin(cfg, s, r, env), account, k, a)
  {
    var s2, id := DoBegin(cfg, s, r, env), s.reqs[r].id;
    assert ReqOk(cfg, s, r) && PlanOk(cfg, s, id);
    StartedAfter(s, s2, id, s2.db.plans[id], account, a);
    WaitingAfter(s, s2, r, s2.reqs[r], account, a);
  }

  lemma NextKeepsWithin(cfg: Config, s: Sys, l: Label, account: string, k: nat, a: Time)
    requires Inv(cfg, s) && Within(cfg, s, account, k, a)
    requires |Waiting(Next(cfg, s, l), account)| <= k
    ensures Within(cfg, Next(cfg, s, l), account, k, a)
  {
    var s2 := Next(cfg, s, l);
    if l.StepExecute? && l.r in s.reqs && s.reqs[l.r].pc.CountStarts? {
      CountKeeps(cfg, s, l.r, l.env, account, k, a);
    } else if l.StepExecute? && l.r in s.reqs && s.reqs[l.r].pc.TryBegin? && BeginGuard(s, s.reqs[l.r].id, l.env) {
      BeginKeepsWithin(cfg, s, l.r, l.env, account, k, a);
    } else {
      QuietOtherwise(cfg, s, l);
      QuietKeeps(cfg, s, s2, account, k, a);
    }
  }

  lemma QuietExecute(cfg: Config, s: Sys, r: ReqId, env: Env)
    requires r in s.reqs && !s.reqs[r].pc.CountStarts?
    requires !(s.reqs[r].pc.TryBegin? && BeginGuard(s, s.reqs[r].id, env))
    ensures Quiet(s, DoExecute(cfg, s, r, env))
  {
    var s2 := DoExecute(cfg, s, r, env);
    PlanWrites(cfg, s, r, env);
    RequestWrites(cfg, s, r, env);
    QuietFrom(s, s2, r, env);
  }

  lemma QuietFrom(s: Sys, s2: Sys, r: ReqId, env: Env)
    requires r in s.reqs && !s.reqs[r].pc.CountStarts?
    requires !(s.reqs[r].pc.TryBegin? && BeginGuard(s, s.reqs[r].id, env))
    requires PlanWrite(s, s2, s.reqs[r], env) && RequestWrite(s, s2, r)
    ensures Quiet(s, s2)
  {
  }

  lemma QuietApprove(s: Sys, a: ReqId, fault: bool)
    requires a in s.approvals
    ensures Quiet(s, DoApprove(s, a, fault))
  {
  }

  lemma QuietOtherwise(cfg: Config, s: Sys, l: Label)
    requires Inv(cfg, s)
    requires !(l.StepExecute? && l.r in s.reqs && s.reqs[l.r].pc.CountStarts?)
    requires !(l.StepExecute? && l.r in s.reqs && s.reqs[l.r].pc.TryBegin? && BeginGuard(s, s.reqs[l.r].id, l.env))
    ensures Quiet(s, Next(cfg, s, l))
  {
    match l
    case StepExecute(r, env) => if r in s.reqs { QuietExecute(cfg, s, r, env); }
    case StepApprove(a, fault) => if a in s.approvals { QuietApprove(s, a, fault); }
    case Create(_, _, _) => assert PlanOk(cfg, s, s.db.lastId + 1);
    case AskExecute(_, _) =>
    case _ =>
  }

  /** At most k requests of the account ever wait together. */
  ghost predicate AtMostWaiting(cfg: Config, labels: seq<Label>, account: string, k: nat) {
    forall n {:trigger labels[..n]} :: 0 <= n <= |labels| ==> |Waiting(After(cfg, labels[..n]), account)| <= k
  }

  lemma {:induction false} WithinAlong(cfg: Config, labels: seq<Label>, account: string, k: nat, a: Time)
    requires cfg.limit + k > 0 && AtMostWaiting(cfg, labels, account, k)
    ensures Within(cfg, After(cfg, labels), account, k, a)
  {
    if labels == [] {
      assert StartedIn(INIT, account, a) == {} && WaitingFrom(INIT, account, a) == {};
    } else {
      var m := |labels| - 1;
      var front := labels[..m];
      assert forall n :: 0 <= n <= m ==> front[..n] == labels[..n];
      WithinAlong(cfg, front, account, k, a);
      AfterOk(cfg, front);
      assert labels[..|labels|] == labels;
      NextKeepsWithin(cfg, After(cfg, front), labels[m], account, k, a);
    }
  }

  /**
    The sliding window.  In every run in which at most k execute requests of an account are ever
    between the count and BeginExecution at once, every closed hour holds at most
    limit + k - 1 started plans of that account; for sequential requests that is the limit.
  */
  lemma SlidingWindow(cfg: Config, labels: seq<Label>, account: string, k: nat, a: Time)
    requires cfg.limit > 0 && AtMostWaiting(cfg, labels, account, k)
    ensures |StartedIn(After(cfg, labels), account, a)| <= cfg.limit + k - 1
    ensures k == 1 ==> |StartedIn(After(cfg, labels), account, a)| <= cfg.limit
  {
    WithinAlong(cfg, labels, account, k, a);
  }
}
