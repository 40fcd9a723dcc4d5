/**
  The bound of ExecRateLimit is the best there is: for every limit and every k there is a run in
  which at most k requests of an account wait together and limit + k - 1 of its plans start
  within one hour.
*/
module ExecRateTight {
  import opened Basics
  import opened ExecStore
  import opened ExecProtocol
  import opened ExecTheorems
  import opened ExecRateLimit

  const ACCOUNT := "main"

  /**
    Plans 1 to n are approved, and the first `begun` of them have started; request i is for plan i,
    those after the first `begun` wait to begin, and the last `extra` is on its way to the count.
  */
  ghost predicate Stage(s: Sys, n: nat, begun: nat, wait: nat, extra: nat) {
    && s.now == 0 && begun + wait + extra <= n
    && PlansAt(s.db, n, begun) && ReqsAt(s.reqs, begun, wait, extra)
    && (forall a :: a in s.approvals ==> a <= n)
  }

  ghost predicate PlansAt(db: Db, n: nat, begun: nat) {
    && db.lastId == n
    && (forall id :: id in db.plans <==> 1 <= id <= n)
    && (forall id :: 1 <= id <= n ==> PlanAt(db.plans[id], id <= begun))
  }

  ghost predicate ReqsAt(reqs: map<ReqId, Req>, begun: nat, wait: nat, extra: nat) {
    && (forall r :: r in reqs <==> 1 <= r <= begun + wait + extra)
    && (forall r :: 1 <= r <= begun + wait + extra ==> reqs[r].id == r && ReqAt(reqs[r], begun < r <= begun + wait))
  }

  predicate PlanAt(p: Plan, begun: bool) {
    && p.account == ACCOUNT
    && (if begun then p.status == Running && p.startedAt == Some(0) else p.status == Approved && p.startedAt == None)
  }

  predicate ReqAt(q: Req, waiting: bool) {
    && (q.pc.TryBegin? <==> waiting) && (waiting ==> q.pc.plan.account == ACCOUNT)
  }

  predicate In(x: nat, a: nat, b: nat) { a < x <= b }

  function Between(a: nat, b: nat): (r: set<nat>) { set x: nat | x <= b && In(x, a, b) }

  lemma {:induction false} BetweenCard(a: nat, b: nat)
    requires a <= b
    ensures |Between(a, b)| == b - a
  {
    if a < b {
      BetweenCard(a, b - 1);
      assert Between(a, b) == Between(a, b - 1) + {b};
    } else {
      assert Between(a, b) == {};
    }
  }

  lemma Counts(s: Sys, n: nat, begun: nat, wait: nat, extra: nat)
    requires Stage(s, n, begun, wait, extra)
    ensures |Waiting(s, ACCOUNT)| == wait
    ensures |StartedIn(s, ACCOUNT, -HOUR)| == begun && |StartedSince(s.db, ACCOUNT, -HOUR)| == begun
  {
    BetweenCard(begun, begun + wait);
    assert Waiting(s, ACCOUNT) == Between(begun, begun + wait);
    BetweenCard(0, begun);
    assert StartedIn(s, ACCOUNT, -HOUR) == Between(0, begun);
    assert StartedSince(s.db, ACCOUNT, -HOUR) == Between(0, begun);
  }

  /** A run up to a stage, with never more than k waiting. */
  ghost predicate Reaches(cfg: Config, labels: seq<Label>, k: nat, n: nat, begun: nat, wait: nat, extra: nat) {
    Stage(After(cfg, labels), n, begun, wait, extra) && AtMostWaiting(cfg, labels, ACCOUNT, k)
  }

  /** One more label. */
  lemma Push(cfg: Config, labels: seq<Label>, l: Label, k: nat, n: nat, begun: nat, wait: nat, extra: nat)
    requires AtMostWaiting(cfg, labels, ACCOUNT, k) && wait <= k
    requires Stage(Next(cfg, After(cfg, labels), l), n, begun, wait, extra)
    ensures Reaches(cfg, labels + [l], k, n, begun, wait, extra)
    ensures After(cfg, labels + [l]) == Next(cfg, After(cfg, labels), l)
  {
    Counts(Next(cfg, After(cfg, labels), l), n, begun, wait, extra);
    Quietly(cfg, labels, l, k);
  }

  /** Creating and approving one more plan. */
  lemma MorePlans(cfg: Config, labels: seq<Label>, k: nat, n: nat) returns (more: seq<Label>)
    requires Reaches(cfg, labels, k, n, 0, 0, 0)
    ensures Reaches(cfg, more, k, n + 1, 0, 0, 0)
  {
    var l1, l2, l3 := Create(ACCOUNT, [], "ops"), AskApprove(n + 1, n + 1, "admin", ""), StepApprove(n + 1, false);
    more := labels + [l1] + [l2] + [l3];
    var s := After(cfg, labels);
    Counts(s, n, 0, 0, 0);
    OnePlanMore(cfg, s, n);
    Quietly(cfg, labels, l1, k);
    Quietly(cfg, labels + [l1], l2, k);
    Push(cfg, labels + [l1] + [l2], l3, k, n + 1, 0, 0, 0);
  }

  /** The states on the way to one more approved plan. */
  ghost function Created(cfg: Config, s: Sys): (s1: Sys) { Next(cfg, s, Create(ACCOUNT, [], "ops")) }

  ghost function Asked(cfg: Config, s: Sys, n: nat): (s2: Sys) {
    Next(cfg, Created(cfg, s), AskApprove(n + 1, n + 1, "admin", ""))
  }

  lemma CreatedPlan(cfg: Config, s: Sys, n: nat)
    requires s.db.lastId == n && n + 1 !in s.approvals && s.now == 0
    ensures var s2 := Asked(cfg, s, n);
      && Created(cfg, s).reqs == s.reqs && s2.reqs == s.reqs && s2.now == 0
      && s2.db.lastId == n + 1 && s2.db.plans == s.db.plans[n + 1 := NewPlan(ACCOUNT, [], "ops", 0)]
      && s2.approvals == s.approvals[n + 1 := Approval(n + 1, "admin", "", Cas)]
  {
  }

  lemma ApprovedPlan(cfg: Config, s2: Sys, n: nat)
    requires n + 1 in s2.db.plans && s2.db.plans[n + 1] == NewPlan(ACCOUNT, [], "ops", 0)
    requires n + 1 in s2.approvals && s2.approvals[n + 1] == Approval(n + 1, "admin", "", Cas)
    ensures var s3 := Next(cfg, s2, StepApprove(n + 1, false));
      && s3.reqs == s2.reqs && s3.now == s2.now && s3.db.lastId == s2.db.lastId
      && n + 1 in s3.db.plans && PlanAt(s3.db.plans[n + 1], false)
      && s3.db.plans == s2.db.plans[n + 1 := s3.db.plans[n + 1]] && s3.approvals.Keys == s2.approvals.Keys
  {
  }

  lemma OnePlanMore(cfg: Config, s: Sys, n: nat)
    requires Stage(s, n, 0, 0, 0)
    ensures Waiting(Created(cfg, s), ACCOUNT) == Waiting(Asked(cfg, s, n), ACCOUNT) == Waiting(s, ACCOUNT)
    ensures Stage(Next(cfg, Asked(cfg, s, n), StepApprove(n + 1, false)), n + 1, 0, 0, 0)
  {
    CreatedPlan(cfg, s, n);
    ApprovedPlan(cfg, Asked(cfg, s, n), n);
    PlanAdded(s.db, Next(cfg, Asked(cfg, s, n), StepApprove(n + 1, false)).db, n);
  }

  lemma PlanAdded(db: Db, db2: Db, n: nat)
    requires PlansAt(db, n, 0) && db2.lastId == n + 1
    requires n + 1 in db2.plans && db2.plans == db.plans[n + 1 := db2.plans[n + 1]] && PlanAt(db2.plans[n + 1], false)
    ensures PlansAt(db2, n + 1, 0)
  {
  }

  lemma PrefixOf(labels: seq<Label>, l: Label, m: nat)
    requires m <= |labels| + 1
    ensures (labels + [l])[..m] == if m <= |labels| then labels[..m] else labels + [l]
  {
  }

  lemma Quietly(cfg: Config, labels: seq<Label>, l: Label, k: nat)
    requires AtMostWaiting(cfg, labels, ACCOUNT, k) && |Waiting(Next(cfg, After(cfg, labels), l), ACCOUNT)| <= k
    ensures AtMostWaiting(cfg, labels + [l], ACCOUNT, k)
    ensures After(cfg, labels + [l]) == Next(cfg, After(cfg, labels), l)
  {
    var all := labels + [l];
    Extend(cfg, labels, l);
    forall m | 0 <= m <= |all| ensures |Waiting(After(cfg, all[..m]), ACCOUNT)| <= k {
      PrefixOf(labels, l, m);
      if m <= |labels| { assert |Waiting(After(cfg, labels[..m]), ACCOUNT)| <= k; }
    }
  }

  lemma Asks(cfg: Config, s: Sys, n: nat, begun: nat, wait: nat)
    requires Stage(s, n, begun, wait, 0) && begun + wait < n
    ensures var r := begun + wait + 1;
      var s2 := Next(cfg, s, AskExecute(r, r));
      Stage(s2, n, begun, wait, 1) && s2.db == s.db && s2.reqs[r] == NewReq(r)
  {
  }

  lemma Visits(cfg: Config, s: Sys, n: nat, begun: nat, wait: nat, pc: Pc)
    requires Stage(s, n, begun, wait, 1) && !pc.TryBegin?
    ensures Stage(Goto(s, begun + wait + 1, pc), n, begun, wait, 1)
  {
  }

  lemma Arrives(cfg: Config, s: Sys, n: nat, begun: nat, wait: nat, pc: Pc)
    requires Stage(s, n, begun, wait, 1) && pc.TryBegin? && pc.plan.account == ACCOUNT
    ensures Stage(Goto(s, begun + wait + 1, pc), n, begun, wait + 1, 0)
  {
  }

  lemma Begins(cfg: Config, s: Sys, n: nat, begun: nat, wait: nat)
    requires Stage(s, n, begun, wait, 0) && wait > 0
    ensures Stage(Next(cfg, s, StepExecute(begun + 1, FINE)), n, begun + 1, wait - 1, 0)
  {
    var r := begun + 1;
    assert ReqAt(s.reqs[r], true) && PlanAt(s.db.plans[r], false) && s.reqs[r].id == r;
    var s2 := DoBegin(cfg, s, r, FINE);
    PlanBegins(s.db, s2.db, n, begun);
    ReqBegins(s.reqs, s2.reqs, begun, wait);
  }

  lemma PlanBegins(db: Db, db2: Db, n: nat, begun: nat)
    requires PlansAt(db, n, begun) && begun < n
    requires db2.lastId == db.lastId && begun + 1 in db2.plans
        && db2.plans == db.plans[begun + 1 := db2.plans[begun + 1]]
    requires PlanAt(db2.plans[begun + 1], true)
    ensures PlansAt(db2, n, begun + 1)
  {
  }

  lemma ReqBegins(reqs: map<ReqId, Req>, reqs2: map<ReqId, Req>, begun: nat, wait: nat)
    requires ReqsAt(reqs, begun, wait, 0) && wait > 0
    requires begun + 1 in reqs2 && reqs2 == reqs[begun + 1 := reqs2[begun + 1]]
    requires reqs2[begun + 1].id == begun + 1 && ReqAt(reqs2[begun + 1], false)
    ensures ReqsAt(reqs2, begun + 1, wait - 1, 0)
  {
  }

  /** The two steps after a request has been made for an approved plan, and the count when it is below the limit. */
  lemma Steps(cfg: Config, s: Sys, r: ReqId)
    requires r in s.reqs && s.reqs[r].id == r && r in s.db.plans && s.db.plans[r].status == Approved && s.now == 0
    ensures s.reqs[r].pc == ReadPlan ==>
      Next(cfg, s, StepExecute(r, FINE)) == Goto(s, r, TakeWindow(s.db.plans[r]))
    ensures forall plan :: s.reqs[r].pc == TakeWindow(plan) ==>
      Next(cfg, s, StepExecute(r, FINE)) == Goto(s, r, CountStarts(plan, -HOUR))
  {
  }

  lemma CountStep(cfg: Config, s: Sys, r: ReqId, plan: Plan)
    requires r in s.reqs && s.reqs[r].pc == CountStarts(plan, -HOUR)
    requires |StartedSince(s.db, plan.account, -HOUR)| < cfg.limit
    ensures Next(cfg, s, StepExecute(r, FINE)) == Goto(s, r, TryBegin(plan, -HOUR))
  {
  }

  /** One more request comes to the point of beginning: fewer than limit plans have started. */
  lemma MoreWaiting(cfg: Config, labels: seq<Label>, k: nat, n: nat, begun: nat, wait: nat) returns (more: seq<Label>)
    requires Reaches(cfg, labels, k, n, begun, wait, 0) && begun + wait < n && begun < cfg.limit && wait < k
    ensures Reaches(cfg, more, k, n, begun, wait + 1, 0)
  {
    var r, s := begun + wait + 1, After(cfg, labels);
    var plan := s.db.plans[r];
    assert PlanAt(plan, false);
    Asks(cfg, s, n, begun, wait);
    Push(cfg, labels, AskExecute(r, r), k, n, begun, wait, 1);
    more := labels + [AskExecute(r, r)];
    more := Approach(cfg, more, k, n, begun, wait, plan);
    more := Arrive(cfg, more, k, n, begun, wait, plan);
  }

  lemma Approach(cfg: Config, labels: seq<Label>, k: nat, n: nat, begun: nat, wait: nat, plan: Plan)
      returns (more: seq<Label>)
    requires Reaches(cfg, labels, k, n, begun, wait, 1) && wait < k
    requires var s, r := After(cfg, labels), begun + wait + 1;
      s.reqs[r].pc == ReadPlan && plan == s.db.plans[r] && plan.status == Approved
    ensures Reaches(cfg, more, k, n, begun, wait, 1)
    ensures After(cfg, more).reqs[begun + wait + 1].pc == CountStarts(plan, -HOUR)
  {
    var r := begun + wait + 1;
    Steps(cfg, After(cfg, labels), r);
    more := Visit(cfg, labels, k, n, begun, wait, TakeWindow(plan));
    Steps(cfg, After(cfg, more), r);
    more := Visit(cfg, more, k, n, begun, wait, CountStarts(plan, -HOUR));
  }

  lemma Arrive(cfg: Config, labels: seq<Label>, k: nat, n: nat, begun: nat, wait: nat, plan: Plan)
      returns (more: seq<Label>)
    requires Reaches(cfg, labels, k, n, begun, wait, 1) && begun < cfg.limit && wait < k && plan.account == ACCOUNT
    requires After(cfg, labels).reqs[begun + wait + 1].pc == CountStarts(plan, -HOUR)
    ensures Reaches(cfg, more, k, n, begun, wait + 1, 0)
  {
    var r, s := begun + wait + 1, After(cfg, labels);
    Counts(s, n, begun, wait, 1);
    Arrives(cfg, s, n, begun, wait, TryBegin(plan, -HOUR));
    CountStep(cfg, s, r, plan);
    Push(cfg, labels, StepExecute(r, FINE), k, n, begun, wait + 1, 0);
    more := labels + [StepExecute(r, FINE)];
  }

  /** A step of the request on its way. */
  lemma Visit(cfg: Config, labels: seq<Label>, k: nat, n: nat, begun: nat, wait: nat, pc: Pc) returns (more: seq<Label>)
    requires Reaches(cfg, labels, k, n, begun, wait, 1) && wait < k && !pc.TryBegin?
    requires Next(cfg, After(cfg, labels), StepExecute(begun + wait + 1, FINE))
      == Goto(After(cfg, labels), begun + wait + 1, pc)
    ensures Reaches(cfg, more, k, n, begun, wait, 1)
    ensures After(cfg, more) == Goto(After(cfg, labels), begun + wait + 1, pc)
  {
    var step := StepExecute(begun + wait + 1, FINE);
    Visits(cfg, After(cfg, labels), n, begun, wait, pc);
    Push(cfg, labels, step, k, n, begun, wait, 1);
    more := labels + [step];
  }

  /** The first of the waiting requests begins. */
  lemma MoreBegun(cfg: Config, labels: seq<Label>, k: nat, n: nat, begun: nat, wait: nat) returns (more: seq<Label>)
    requires Reaches(cfg, labels, k, n, begun, wait, 0) && 0 < wait <= k
    ensures Reaches(cfg, more, k, n, begun + 1, wait - 1, 0)
  {
    Begins(cfg, After(cfg, labels), n, begun, wait);
    Push(cfg, labels, StepExecute(begun + 1, FINE), k, n, begun + 1, wait - 1, 0);
    more := labels + [StepExecute(begun + 1, FINE)];
  }

  lemma {:induction false} ManyPlans(cfg: Config, k: nat, n: nat) returns (labels: seq<Label>)
    ensures Reaches(cfg, labels, k, n, 0, 0, 0)
  {
    if n == 0 {
      labels := [];
      Start(cfg, k);
    } else {
      labels := ManyPlans(cfg, k, n - 1);
      labels := MorePlans(cfg, labels, k, n - 1);
    }
  }

  /** One request after the other. */
  lemma {:induction false} OneByOne(cfg: Config, k: nat, n: nat, begun: nat) returns (labels: seq<Label>)
    requires begun <= n && begun <= cfg.limit && k > 0
    ensures Reaches(cfg, labels, k, n, begun, 0, 0)
  {
    if begun == 0 {
      labels := ManyPlans(cfg, k, n);
    } else {
      labels := OneByOne(cfg, k, n, begun - 1);
      labels := MoreWaiting(cfg, labels, k, n, begun - 1, 0);
      labels := MoreBegun(cfg, labels, k, n, begun - 1, 1);
    }
  }

  lemma {:induction false} AllWaiting(cfg: Config, k: nat, n: nat, begun: nat, wait: nat) returns (labels: seq<Label>)
    requires begun + wait <= n && begun < cfg.limit && k > 0 && wait <= k
    ensures Reaches(cfg, labels, k, n, begun, wait, 0)
  {
    if wait == 0 {
      labels := OneByOne(cfg, k, n, begun);
    } else {
      labels := AllWaiting(cfg, k, n, begun, wait - 1);
      labels := MoreWaiting(cfg, labels, k, n, begun, wait - 1);
    }
  }

  lemma {:induction false} AllBegun(cfg: Config, labels: seq<Label>, k: nat, n: nat, begun: nat, wait: nat)
      returns (more: seq<Label>)
    requires Reaches(cfg, labels, k, n, begun, wait, 0) && wait <= k
    ensures Reaches(cfg, more, k, n, begun + wait, 0, 0)
    decreases wait
  {
    if wait == 0 {
      more := labels;
    } else {
      more := MoreBegun(cfg, labels, k, n, begun, wait);
      more := AllBegun(cfg, more, k, n, begun + 1, wait - 1);
    }
  }

  /** The bound is reached: limit - 1 plans start one by one, then k requests pass the count together and all begin. */
  lemma SlidingWindowTight(cfg: Config, k: nat) returns (labels: seq<Label>)
    requires cfg.limit > 0 && k > 0
    ensures AtMostWaiting(cfg, labels, ACCOUNT, k)
    ensures |StartedIn(After(cfg, labels), ACCOUNT, -HOUR)| == cfg.limit + k - 1
  {
    var n := cfg.limit + k - 1;
    labels := AllWaiting(cfg, k, n, cfg.limit - 1, k);
    labels := AllBegun(cfg, labels, k, n, cfg.limit - 1, k);
    Counts(After(cfg, labels), n, n, 0, 0);
  }

  lemma Start(cfg: Config, k: nat)
    ensures Reaches(cfg, [], k, 0, 0, 0, 0)
  {
    assert Waiting(INIT, ACCOUNT) == {};
  }
}
