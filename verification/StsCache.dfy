/**
  The STS token cache of internal/credentials/sts_cache.go, used by one goroutine at a time
  (SingleFlight has the concurrent fetches of one account, StsConcurrent the interleaved Gets).

  Times and durations are in nanoseconds, as in the source; AssumeRole is asked for a whole
  number of seconds.  What AssumeRole answers, and when, is up to the outside world.
*/
module StsCache {
  import opened Basics

  type Time = int
  type Account = string

  const SECOND := 1_000_000_000

  /** ttl and refreshMargin. */
  datatype Config = Config(ttl: nat, margin: nat)

  /** What New sets: 2700 s and 300 s. */
  const DEFAULT := Config(2700 * SECOND, 300 * SECOND)

  datatype Creds = Creds(token: string, expiration: Time)

  /** AssumeRole fails, or returns credentials at time `at`. */
  datatype Reply = Failed(error: string) | Issued(creds: Creds, at: Time)

  /** An AssumeRole that succeeded. */
  datatype Issue = Issue(account: Account, at: Time, creds: Creds)

  datatype Event =
    | Get(account: Account, now: Time, reply: Reply)
    | Invalidate(account: Account)

  /** issues is history; clock is the latest time seen. */
  datatype Sys = Sys(store: map<Account, Creds>, issues: seq<Issue>, clock: Time)

  /** int((c.ttl + c.refreshMargin).Seconds()), the duration asked of AssumeRole. */
  function Requested(cfg: Config): (r: nat) {
    (cfg.ttl + cfg.margin) / SECOND
  }

  /** The fast path of Get. */
  predicate IsHit(cfg: Config, store: map<Account, Creds>, account: Account, now: Time) {
    account in store && store[account].expiration > now + cfg.margin
  }

  function GetStep(cfg: Config, s: Sys, account: Account, now: Time, reply: Reply): (r: (Sys, Result<Creds, string>)) {
    if IsHit(cfg, s.store, account, now) then (s.(clock := now), Ok(s.store[account]))
    else
      match reply
      case Failed(e) => (s.(clock := now), Err("assume role: " + e))
      case Issued(creds, at) =>
        (Sys(s.store[account := creds], s.issues + [Issue(account, at, creds)], at), Ok(creds))
  }

  function Next(cfg: Config, s: Sys, e: Event): (r: Sys) {
    match e
    case Get(account, now, reply) => GetStep(cfg, s, account, now, reply).0
    case Invalidate(account) => s.(store := s.store - {account})
  }

  function Run(cfg: Config, s: Sys, events: seq<Event>): (r: Sys) {
    if events == [] then s else Next(cfg, Run(cfg, s, events[..|events| - 1]), events[|events| - 1])
  }

  const EMPTY := Sys(map[], [], 0)

  // ---- hits ------------------------------------------------------------------------------

  /** Everything in the cache was issued for the account it is kept under. */
  ghost predicate OwnCreds(s: Sys) {
    forall a :: a in s.store ==>
      exists i :: 0 <= i < |s.issues| && s.issues[i].account == a && s.issues[i].creds == s.store[a]
  }

  lemma OwnCredsStep(cfg: Config, s: Sys, e: Event)
    requires OwnCreds(s)
    ensures OwnCreds(Next(cfg, s, e))
  {
    var s2 := Next(cfg, s, e);
    forall a | a in s2.store
      ensures exists i :: 0 <= i < |s2.issues| && s2.issues[i].account == a && s2.issues[i].creds == s2.store[a]
    {
      if a in s.store && s2.store[a] == s.store[a] {
        var i :| 0 <= i < |s.issues| && s.issues[i].account == a && s.issues[i].creds == s.store[a];
        assert s2.issues[i] == s.issues[i];
      } else {
        assert s2.issues[|s.issues|].account == a;
      }
    }
  }

  lemma {:induction false} OwnCredsAlong(cfg: Config, events: seq<Event>)
    ensures OwnCreds(Run(cfg, EMPTY, events))
  {
    if events != [] {
      OwnCredsAlong(cfg, events[..|events| - 1]);
      OwnCredsStep(cfg, Run(cfg, EMPTY, events[..|events| - 1]), events[|events| - 1]);
    }
  }

  /**
    In every run: what Get answers without asking AssumeRole outlives now by more than the margin and is the
    account's own.
  */
  lemma HitIsFreshAndOwn(cfg: Config, events: seq<Event>, account: Account, now: Time, reply: Reply)
    requires var s := Run(cfg, EMPTY, events);
      GetStep(cfg, s, account, now, reply).0.issues == s.issues && GetStep(cfg, s, account, now, reply).1.Ok?
    ensures var s := Run(cfg, EMPTY, events);
      var creds := GetStep(cfg, s, account, now, reply).1.value;
      && creds.expiration > now + cfg.margin
      && exists i :: 0 <= i < |s.issues| && s.issues[i].account == account && s.issues[i].creds == creds
  {
    OwnCredsAlong(cfg, events);
  }

  // ---- how often AssumeRole is asked -----------------------------------------------------

  /**
    A sequential run: the clock never goes back, AssumeRole returns after it was asked, and the
    credentials last exactly as long as was requested.
  */
  ghost predicate EventOk(cfg: Config, s: Sys, e: Event) {
    e.Get? ==>
      && s.clock <= e.now
      && (e.reply.Issued? ==> e.now <= e.reply.at && e.reply.creds.expiration == e.reply.at + Requested(cfg) * SECOND)
  }

  ghost predicate Sequential(cfg: Config, events: seq<Event>) {
    forall n :: 0 <= n < |events| ==> EventOk(cfg, Run(cfg, EMPTY, events[..n]), events[n])
  }

  /** The least time between two issues; for a whole number of seconds it is the ttl. */
  function Gap(cfg: Config): (r: int) {
    Requested(cfg) * SECOND - cfg.margin
  }

  lemma GapIsTtl(cfg: Config)
    ensures Gap(cfg) <= cfg.ttl
    ensures Gap(cfg) == cfg.ttl <==> (cfg.ttl + cfg.margin) % SECOND == 0
    ensures Gap(DEFAULT) == DEFAULT.ttl
  {
  }

  function TimesOf(issues: seq<Issue>, account: Account): (r: seq<Time>) {
    if issues == [] then [] else (
      var front, last := TimesOf(issues[..|issues| - 1], account), issues[|issues| - 1];
      if last.account == account then front + [last.at] else front)
  }

  ghost predicate Spaced(ts: seq<Time>, d: int) {
    forall i, j :: 0 <= i < j < |ts| ==> ts[j] - ts[i] >= d * (j - i)
  }

  /** The cache remembers the account's last issue. */
  ghost predicate Remembers(cfg: Config, s: Sys, account: Account) {
    var ts := TimesOf(s.issues, account);
    && Spaced(ts, Gap(cfg))
    && (ts != [] ==>
          account in s.store && s.store[account].expiration == ts[|ts| - 1] + Requested(cfg) * SECOND)
  }

  lemma SpacedExtend(ts: seq<Time>, d: int, t: Time)
    requires Spaced(ts, d)
    requires ts != [] ==> t - ts[|ts| - 1] >= d
    ensures Spaced(ts + [t], d)
  {
    var us := ts + [t];
    forall i, j | 0 <= i < j < |us| ensures us[j] - us[i] >= d * (j - i) {
      if j == |ts| {
        var m := |ts| - 1;
        assert d * (j - i) == d * (m - i) + d;
        if i < m { assert ts[m] - ts[i] >= d * (m - i); }
      }
    }
  }

  lemma RemembersStep(cfg: Config, s: Sys, e: Event, account: Account)
    requires Remembers(cfg, s, account) && EventOk(cfg, s, e) && e != Invalidate(account)
    ensures Remembers(cfg, Next(cfg, s, e), account)
  {
    var s2 := Next(cfg, s, e);
    var ts := TimesOf(s.issues, account);
    if s2.issues != s.issues {
      assert s2.issues[..|s.issues|] == s.issues;
      if e.account == account {
        SpacedExtend(ts, Gap(cfg), e.reply.at);
      }
    }
  }

  lemma {:induction false} RemembersAlong(cfg: Config, events: seq<Event>, account: Account)
    requires Sequential(cfg, events) && Invalidate(account) !in events
    ensures Remembers(cfg, Run(cfg, EMPTY, events), account)
  {
    if events != [] {
      var front := events[..|events| - 1];
      assert forall n :: 0 <= n < |front| ==> front[..n] == events[..n] && front[n] == events[n];
      RemembersAlong(cfg, front, account);
      RemembersStep(cfg, Run(cfg, EMPTY, front), events[|events| - 1], account);
    }
  }

  // Counting spaced times in an interval.

  function Within(ts: seq<Time>, x: Time, y: Time): (r: set<nat>) {
    set i: nat | i < |ts| && x <= ts[i] <= y
  }

  function Range(lo: nat, n: nat): (r: set<nat>) {
    if n == 0 then {} else Range(lo, n - 1) + {lo + n - 1}
  }

  lemma {:induction false} RangeOk(lo: nat, n: nat)
    ensures |Range(lo, n)| == n
    ensures forall i: nat :: i in Range(lo, n) <==> lo <= i < lo + n
  {
    if n > 0 { RangeOk(lo, n - 1); }
  }

  /** The least element of a set of naturals. */
  lemma {:induction false} Least(s: set<nat>) returns (lo: nat)
    requires s != {}
    ensures lo in s && forall i :: i in s ==> lo <= i
    decreases |s|
  {
    lo :| lo in s;
    var rest := s - {lo};
    if rest != {} {
      assert |rest| < |s|;
      var lo2 := Least(rest);
      assert forall i :: i in s ==> i == lo || i in rest;
      if lo2 < lo { lo := lo2; }
    } else {
      assert forall i :: i in s ==> i == lo || i in rest;
    }
  }

  lemma {:induction false} MulAtLeast(d: nat, q: nat, k: nat)
    requires k > q
    ensures d * k >= d * q + d
  {
    assert d * k == d * (k - 1) + d;
    if k - 1 > q { MulAtLeast(d, q, k - 1); }
  }

  lemma QuotientBound(k: nat, d: nat, l: nat)
    requires d > 0 && d * k <= l
    ensures k <= l / d
  {
    var q := l / d;
    assert l < d * q + d;
    if k > q { MulAtLeast(d, q, k); }
  }

  lemma CloseTogether(ts: seq<Time>, d: nat, x: Time, l: nat, lo: nat, i: nat)
    requires d > 0 && Spaced(ts, d) && lo <= i
    requires lo in Within(ts, x, x + l) && i in Within(ts, x, x + l)
    ensures i - lo <= l / d
  {
    if lo < i {
      assert ts[i] - ts[lo] >= d * (i - lo);
      QuotientBound(i - lo, d, l);
    } else {
      QuotientBound(0, d, l);
    }
  }

  lemma SpacedCount(ts: seq<Time>, d: nat, x: Time, l: nat)
    requires d > 0 && Spaced(ts, d)
    ensures |Within(ts, x, x + l)| <= l / d + 1
  {
    var w, q := Within(ts, x, x + l), l / d;
    QuotientBound(0, d, l);
    if w != {} {
      var lo := Least(w);
      RangeOk(lo, q + 1);
      forall i | i in w ensures i in Range(lo, q + 1) {
        CloseTogether(ts, d, x, l, lo, i);
      }
      SubsetCard(w, Range(lo, q + 1));
    }
  }

  /**
    Over any sequential run that does not invalidate the account, its successful AssumeRole
    calls are at least Gap apart (the ttl, with the default settings), so any interval of length
    l holds at most l / Gap + 1 of them.
  */
  lemma IssuesAreSpaced(cfg: Config, events: seq<Event>, account: Account, x: Time, l: nat)
    requires Sequential(cfg, events) && Invalidate(account) !in events && Gap(cfg) > 0
    ensures var ts := TimesOf(Run(cfg, EMPTY, events).issues, account);
      && (forall i :: 0 < i < |ts| ==> ts[i] - ts[i - 1] >= Gap(cfg))
      && |Within(ts, x, x + l)| <= l / Gap(cfg) + 1
  {
    RemembersAlong(cfg, events, account);
    var ts := TimesOf(Run(cfg, EMPTY, events).issues, account);
    assert Spaced(ts, Gap(cfg));
    forall i | 0 < i < |ts| ensures ts[i] - ts[i - 1] >= Gap(cfg) {
      assert ts[i] - ts[i - 1] >= Gap(cfg) * (i - (i - 1));
    }
    SpacedCount(ts, Gap(cfg), x, l);
  }

  // ---- the mutable cache -----------------------------------------------------------------

  /** An assumer: what AssumeRole answers to its n-th call. */
  type Assumer = (nat, Account, string, nat) -> Reply

  class StsTokenCache {
    const cfg: Config
    const assumer: Assumer
    var asked: nat
    var store: map<Account, Creds>
    ghost var issues: seq<Issue>
    ghost var clock: Time

    ghost function View(): (r: Sys) reads this { Sys(store, issues, clock) }

    constructor (assumer: Assumer)
      ensures cfg == DEFAULT && this.assumer == assumer && View() == EMPTY && asked == 0
    {
      cfg, this.assumer, asked := DEFAULT, assumer, 0;
      store, issues, clock := map[], [], 0;
    }

    method Get(account: Account, roleARN: string, now: Time) returns (r: Result<Creds, string>)
      modifies this
      ensures var reply := assumer(old(asked), account, roleARN, Requested(cfg));
        (View(), r) == GetStep(cfg, old(View()), account, now, reply)
      ensures asked == old(asked) + (if IsHit(cfg, old(store), account, now) then 0 else 1)
    {
      if account in store {
        var entry := store[account];
        if entry.expiration > now + cfg.margin {
          clock := now;
          return Ok(entry);
        }
      }
      var reply := assumer(asked, account, roleARN, (cfg.ttl + cfg.margin) / SECOND);
      asked := asked + 1;
      match reply
      case Failed(e) =>
        clock := now;
        r := Err("assume role: " + e);
      case Issued(creds, at) =>
        store := store[account := creds];
        issues, clock := issues + [Issue(account, at, creds)], at;
        r := Ok(creds);
    }

    method Invalidate(account: Account)
      modifies this`store
      ensures View() == Next(cfg, old(View()), Event.Invalidate(account))
      ensures account !in store && store == old(store) - {account}
    {
      store := store - {account};
    }

    method Size() returns (n: nat)
      ensures n == |store.Keys|
    {
      n := |store|;
    }
  }
}
