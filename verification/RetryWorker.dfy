/**
  The Python worker: the unbounded tool loop of src/ai_cloud_ops/agent/client.py inside the retry
  loop of src/ai_cloud_ops/ingest/retry.py, inside the worker's own retry loop over diagnose, inside
  the batch loop of src/ai_cloud_ops/worker.py.

  What the outside world answers is a script: one arbitrary answer for each call made to it.
*/
module RetryWorker {
  import opened Basics

  datatype Diagnosis = Parsed(text: string) | Truncated(cap: int) | Unavailable

  /** How a Python call ends. */
  datatype Outcome<+T> = Returned(value: T) | Raised

  /** What the model sends back: its text blocks and the tools it asks for. */
  datatype Reply = ApiError | Reply(texts: seq<string>, tools: seq<string>)

  /** The script of the outside world, and the settings. */
  datatype Env = Env(
    reply: nat -> Reply, parse: string -> Option<string>,
    dlqFails: nat -> bool, persistFails: nat -> bool, updateFails: nat -> bool,
    delays: seq<real>, maxToolCalls: int)

  datatype Alert = Alert(id: int, alertId: string)
  datatype Job = Analyze(alert: Alert) | Diagnose(alert: Alert)

  /** A dead-letter row: which retry loop wrote it, and about which alert. */
  datatype DlqRow = DlqRow(job: Job)
  datatype Analysis = Analysis(alertId: string, diagnosis: Diagnosis)

  datatype World = World(
    calls: nat, runs: nat, tools: seq<string>, slept: real,
    dlqTries: nat, dlq: seq<DlqRow>, persistTries: nat, analyses: seq<Analysis>,
    updateTries: nat, analyzed: seq<int>)

  datatype RetryResult = RetryResult(value: Option<Diagnosis>, attempts: nat, dlqId: Option<nat>)

  // ---- one run of the tool loop ----------------------------------------------------------

  function Join(texts: seq<string>): (r: string) {
    if texts == [] then "" else if |texts| == 1 then texts[0] else texts[0] + "\n" + Join(texts[1..])
  }

  function Max(a: int, b: int): (r: int) { if a < b then b else a }

  function Claude(env: Env, w: World, toolCalls: nat): (r: (World, Outcome<Diagnosis>))
    decreases Max(0, env.maxToolCalls - toolCalls)
  {
    var reply, w1 := env.reply(w.calls), w.(calls := w.calls + 1);
    if reply.ApiError? then (w1, Raised)
    else if reply.tools == [] then
      (w1, match env.parse(Join(reply.texts)) case None => Raised case Some(d) => Returned(Parsed(d)))
    else if toolCalls >= env.maxToolCalls then (w1, Returned(Truncated(env.maxToolCalls)))
    else Claude(env, w1.(tools := w.tools + reply.tools), toolCalls + |reply.tools|)
  }

  // ---- retries ---------------------------------------------------------------------------

  function Rank(job: Job): (r: nat) { if job.Analyze? then 0 else 1 }

  function RunJob(env: Env, w: World, job: Job): (r: (World, Outcome<Diagnosis>))
    decreases Rank(job), 0
  {
    match job
    case Analyze(_) => Claude(env, w.(runs := w.runs + 1), 0)
    case Diagnose(alert) => DiagnoseAlert(env, w, alert)
  }

  function Delay(env: Env, i: nat): (r: real)
    requires i <= |env.delays|
  {
    if i == 0 then 0.0 else env.delays[i - 1]
  }

  function Sleep(env: Env, w: World, i: nat): (r: World)
    requires i <= |env.delays|
  {
    if Delay(env, i) > 0.0 then w.(slept := w.slept + Delay(env, i)) else w
  }

  /** Writing a dead-letter row either adds it and gives its number, or raises. */
  function WriteDlq(env: Env, w: World, job: Job): (r: (World, Outcome<nat>)) {
    var w1 := w.(dlqTries := w.dlqTries + 1);
    if env.dlqFails(w.dlqTries) then (w1, Raised) else (w1.(dlq := w.dlq + [DlqRow(job)]), Returned(|w.dlq|))
  }

  /** Attempt i and those after it. */
  function Attempts(env: Env, w: World, job: Job, i: nat): (r: (World, Outcome<RetryResult>))
    requires i <= |env.delays|
    decreases Rank(job), 1, |env.delays| - i
  {
    var (w1, r) := RunJob(env, Sleep(env, w, i), job);
    if r.Returned? then (w1, Returned(RetryResult(Some(r.value), i + 1, None)))
    else if i < |env.delays| then Attempts(env, w1, job, i + 1)
    else GiveUp(env, w1, job, i + 1)
  }

  function GiveUp(env: Env, w: World, job: Job, attempts: nat): (r: (World, Outcome<RetryResult>)) {
    var (w1, id) := WriteDlq(env, w, job);
    (w1, if id.Returned? then Returned(RetryResult(None, attempts, Some(id.value))) else Raised)
  }

  /** Persisting is best effort. */
  function Persist(env: Env, w: World, alert: Alert, d: Diagnosis): (r: World) {
    var w1 := w.(persistTries := w.persistTries + 1);
    if env.persistFails(w.persistTries) then w1 else w1.(analyses := w.analyses + [Analysis(alert.alertId, d)])
  }

  function DiagnoseAlert(env: Env, w: World, alert: Alert): (r: (World, Outcome<Diagnosis>))
    decreases 0, 2
  {
    var (w1, r) := Attempts(env, w, Analyze(alert), 0);
    if r.Raised? then (w1, Raised)
    else if r.value.value.Some? then (Persist(env, w1, alert, r.value.value.value), Returned(r.value.value.value))
    else (w1, Returned(Unavailable))
  }

  // ---- the batch -------------------------------------------------------------------------

  function MarkAnalyzed(env: Env, w: World, alert: Alert): (r: (World, bool)) {
    var w1 := w.(updateTries := w.updateTries + 1);
    if env.updateFails(w.updateTries) then (w1, false) else (w1.(analyzed := w.analyzed + [alert.id]), true)
  }

  /** One alert of a batch: whether it was processed; otherwise it counts as an error. */
  function ProcessAlert(env: Env, w: World, alert: Alert): (r: (World, bool)) {
    var (w1, r) := Attempts(env, w, Diagnose(alert), 0);
    if r.Raised? || r.value.value.None? then (w1, false) else MarkAnalyzed(env, w1, alert)
  }

  /** The world after a batch, and for each of its alerts whether it was processed. */
  function Batch(env: Env, w: World, alerts: seq<Alert>): (r: (World, seq<bool>)) {
    if alerts == [] then (w, []) else (
      var n := |alerts| - 1;
      var (w1, done) := Batch(env, w, alerts[..n]);
      var (w2, ok) := ProcessAlert(env, w1, alerts[n]);
      (w2, done + [ok]))
  }

  function Count(done: seq<bool>, b: bool): (r: nat) {
    if done == [] then 0 else Count(done[..|done| - 1], b) + (if done[|done| - 1] == b then 1 else 0)
  }

  // ---- the program -----------------------------------------------------------------------

  class AlertWorker {
    const env: Env
    var calls: nat
    var runs: nat
    var tools: seq<string>
    var slept: real
    var dlqTries: nat
    var dlq: seq<DlqRow>
    var persistTries: nat
    var analyses: seq<Analysis>
    var updateTries: nat
    var analyzed: seq<int>

    ghost function View(): (r: World)
      reads this
    {
      World(calls, runs, tools, slept, dlqTries, dlq, persistTries, analyses, updateTries, analyzed)
    }

    constructor (env: Env)
      ensures this.env == env
      ensures View() == World(0, 0, [], 0.0, 0, [], 0, [], 0, [])
    {
      this.env := env;
      calls, runs, tools, slept := 0, 0, [], 0.0;
      dlqTries, dlq, persistTries, analyses, updateTries, analyzed := 0, [], 0, [], 0, [];
    }

    /** The loop has no bound of its own: it ends because every round executes at least one tool call. */
    method CallClaude() returns (r: Outcome<Diagnosis>)
      modifies this
      ensures (View(), r) == Claude(env, old(View()), 0)
    {
      var toolCalls: nat := 0;
      while true
        invariant Claude(env, View(), toolCalls) == Claude(env, old(View()), 0)
        decreases Max(0, env.maxToolCalls - toolCalls)
      {
        var reply := env.reply(calls);
        calls := calls + 1;
        if reply.ApiError? { return Raised; }
        if reply.tools == [] {
          var parsed := env.parse(Join(reply.texts));
          return if parsed.Some? then Returned(Parsed(parsed.value)) else Raised;
        }
        if toolCalls >= env.maxToolCalls { return Returned(Truncated(env.maxToolCalls)); }
        var executed := ExecuteTools(reply.tools);
        toolCalls := toolCalls + executed;
      }
    }

    method ExecuteTools(asked: seq<string>) returns (n: nat)
      modifies this`tools
      ensures n == |asked| && tools == old(tools) + asked
    {
      n := 0;
      while n < |asked|
        invariant n <= |asked| && tools == old(tools) + asked[..n]
      {
        tools := tools + [asked[n]];
        n := n + 1;
      }
    }

    method RunOnce(job: Job) returns (r: Outcome<Diagnosis>)
      modifies this
      ensures (View(), r) == RunJob(env, old(View()), job)
      decreases Rank(job), 0
    {
      match job
      case Analyze(_) =>
        runs := runs + 1;
        r := CallClaude();
      case Diagnose(alert) =>
        r := DiagnoseOne(alert);
    }

    method WriteDeadLetter(job: Job) returns (id: Outcome<nat>)
      modifies this
      ensures (View(), id) == WriteDlq(env, old(View()), job)
    {
      var fails := env.dlqFails(dlqTries);
      dlqTries := dlqTries + 1;
      if fails { return Raised; }
      dlq := dlq + [DlqRow(job)];
      return Returned(|dlq| - 1);
    }

    method WithRetry(job: Job) returns (r: Outcome<RetryResult>)
      modifies this
      ensures (View(), r) == Attempts(env, old(View()), job, 0)
      decreases Rank(job), 1
    {
      var attempts := 0;
      while true
        invariant attempts <= |env.delays|
        invariant Attempts(env, View(), job, attempts) == Attempts(env, old(View()), job, 0)
        decreases |env.delays| - attempts
      {
        var delay := if attempts == 0 then 0.0 else env.delays[attempts - 1];
        attempts := attempts + 1;
        if delay > 0.0 { slept := slept + delay; }
        var value := RunOnce(job);
        if value.Returned? { return Returned(RetryResult(Some(value.value), attempts, None)); }
        if attempts == |env.delays| + 1 { break; }
      }
      var id := WriteDeadLetter(job);
      return if id.Returned? then Returned(RetryResult(None, attempts, Some(id.value))) else Raised;
    }

    method DiagnoseOne(alert: Alert) returns (r: Outcome<Diagnosis>)
      modifies this
      ensures (View(), r) == DiagnoseAlert(env, old(View()), alert)
      decreases 0, 2
    {
      var result := WithRetry(Analyze(alert));
      if result.Raised? { return Raised; }
      if result.value.value.None? { return Returned(Unavailable); }
      var diagnosis := result.value.value.value;
      var fails := env.persistFails(persistTries);
      persistTries := persistTries + 1;
      if !fails { analyses := analyses + [Analysis(alert.alertId, diagnosis)]; }
      return Returned(diagnosis);
    }

    method ProcessOne(alert: Alert) returns (ok: bool)
      modifies this
      ensures (View(), ok) == ProcessAlert(env, old(View()), alert)
    {
      var result := WithRetry(Diagnose(alert));
      if result.Raised? || result.value.value.None? { return false; }
      var fails := env.updateFails(updateTries);
      updateTries := updateTries + 1;
      if fails { return false; }
      analyzed := analyzed + [alert.id];
      return true;
    }

    /** Every alert of the batch is counted once, whatever happens to the others. */
    method ProcessOneCycle(alerts: seq<Alert>) returns (processed: nat, errors: nat)
      modifies this
      ensures View() == Batch(env, old(View()), alerts).0
      ensures processed == Count(Batch(env, old(View()), alerts).1, true)
      ensures errors == Count(Batch(env, old(View()), alerts).1, false)
      ensures processed + errors == |alerts|
    {
      processed, errors := 0, 0;
      var i := 0;
      while i < |alerts|
        invariant i <= |alerts| && processed + errors == i
        invariant View() == Batch(env, old(View()), alerts[..i]).0
        invariant processed == Count(Batch(env, old(View()), alerts[..i]).1, true)
        invariant errors == Count(Batch(env, old(View()), alerts[..i]).1, false)
      {
        assert alerts[..i + 1][..i] == alerts[..i];
        CountPush(Batch(env, old(View()), alerts[..i]).1, ProcessAlert(env, View(), alerts[i]).1);
        var ok := ProcessOne(alerts[i]);
        if ok { processed := processed + 1; } else { errors := errors + 1; }
        i := i + 1;
      }
      assert alerts[..i] == alerts;
    }
  }

  lemma CountPush(done: seq<bool>, ok: bool)
    ensures Count(done + [ok], true) == Count(done, true) + (if ok then 1 else 0)
    ensures Count(done + [ok], false) == Count(done, false) + (if ok then 0 else 1)
  {
    assert (done + [ok])[..|done|] == done;
  }

  // ---- one run ---------------------------------------------------------------------------

  /**
    A run calls the model at least once and at most once more than its cap, and touches nothing but that and
    the tools.
  */
  lemma {:induction false} ClaudeBound(env: Env, w: World, toolCalls: nat)
    ensures var (w2, r) := Claude(env, w, toolCalls);
      && w2 == w.(calls := w2.calls, tools := w2.tools) && w.tools <= w2.tools
      && w.calls + 1 <= w2.calls <= w.calls + 1 + Max(0, env.maxToolCalls - toolCalls)
      && r != Returned(Unavailable)
      && (r.Returned? && r.value.Truncated? ==>
            r.value.cap == env.maxToolCalls && toolCalls + (|w2.tools| - |w.tools|) >= env.maxToolCalls)
    decreases Max(0, env.maxToolCalls - toolCalls)
  {
    var reply := env.reply(w.calls);
    if reply.Reply? && reply.tools != [] && toolCalls < env.maxToolCalls {
      ClaudeBound(env, w.(calls := w.calls + 1, tools := w.tools + reply.tools), toolCalls + |reply.tools|);
    }
  }

  /** The tools asked for by n replies from the given one on. */
  function Asked(env: Env, start: nat, n: nat): (r: seq<string>)
    decreases n
  {
    if n == 0 then []
    else (if env.reply(start).Reply? then env.reply(start).tools else []) + Asked(env, start + 1, n - 1)
  }

  /** Reply i is answered with tool results: it asks for some, and those executed before it are fewer than the cap. */
  ghost predicate GoesOn(env: Env, start: nat, toolCalls: nat, i: nat) {
    env.reply(start + i).Reply? && env.reply(start + i).tools != []
    && toolCalls + |Asked(env, start, i)| < env.maxToolCalls
  }

  /** How a run ends, by its last reply and the number of tool calls executed before it. */
  ghost predicate EndsWith(env: Env, last: Reply, executed: nat, r: Outcome<Diagnosis>) {
    match last
    case ApiError => r == Raised
    case Reply(texts, tools) =>
      if tools == [] then r == (if env.parse(Join(texts)).Some? then Returned(Parsed(env.parse(Join(texts)).value))
          else Raised)
      else executed >= env.maxToolCalls && r == Returned(Truncated(env.maxToolCalls))
  }

  /** A run told reply by reply: all but the last go on, exactly their tools are executed, and the last one decides. */
  lemma {:induction false} ClaudeRun(env: Env, w: World, toolCalls: nat)
    ensures var (w2, r) := Claude(env, w, toolCalls);
      var n := w2.calls - w.calls - 1;
      && n >= 0 && w2.tools == w.tools + Asked(env, w.calls, n)
      && (forall i :: 0 <= i < n ==> GoesOn(env, w.calls, toolCalls, i))
      && EndsWith(env, env.reply(w.calls + n), toolCalls + |Asked(env, w.calls, n)|, r)
    decreases Max(0, env.maxToolCalls - toolCalls)
  {
    var reply := env.reply(w.calls);
    if reply.Reply? && reply.tools != [] && toolCalls < env.maxToolCalls {
      var w1 := w.(calls := w.calls + 1, tools := w.tools + reply.tools);
      ClaudeRun(env, w1, toolCalls + |reply.tools|);
      var n := Claude(env, w, toolCalls).0.calls - w.calls - 1;
      forall i | 0 <= i < n ensures GoesOn(env, w.calls, toolCalls, i) {
        if i > 0 { assert GoesOn(env, w.calls + 1, toolCalls + |reply.tools|, i - 1); }
      }
    }
  }

  /** The bound is reached: a model that always asks for one more tool is called cap + 1 times and then cut off. */
  lemma {:induction false} ClaudeBoundReached(env: Env, w: World, toolCalls: nat)
    requires forall n :: env.reply(n).Reply? && |env.reply(n).tools| == 1
    ensures var (w2, r) := Claude(env, w, toolCalls);
      && w2.calls == w.calls + 1 + Max(0, env.maxToolCalls - toolCalls)
      && r == Returned(Truncated(env.maxToolCalls))
    decreases Max(0, env.maxToolCalls - toolCalls)
  {
    var reply := env.reply(w.calls);
    if toolCalls < env.maxToolCalls {
      ClaudeBoundReached(env, w.(calls := w.calls + 1, tools := w.tools + reply.tools), toolCalls + 1);
    }
  }

  // ---- one alert -------------------------------------------------------------------------

  function CallCap(env: Env): (r: nat) { Max(0, env.maxToolCalls) + 1 }

  /** What the two worlds of a computation have in common, and what it may have spent: at most m runs. */
  ghost predicate Spent(env: Env, w: World, w2: World, m: int) {
    && w.runs < w2.runs <= w.runs + m
    && w2.calls <= w.calls + (w2.runs - w.runs) * CallCap(env)
    && w2.updateTries == w.updateTries && w2.analyzed == w.analyzed
    && w2.dlqTries >= w.dlqTries
  }

  lemma SpentTwice(env: Env, w: World, w1: World, w2: World, m: int, n: int)
    requires Spent(env, w, w1, m) && Spent(env, w1, w2, n)
    ensures Spent(env, w, w2, m + n)
  {
    var c, x, y := CallCap(env), w1.runs - w.runs, w2.runs - w1.runs;
    assert x * c + y * c == (x + y) * c;
  }

  lemma RunBound(env: Env, w: World, alert: Alert)
    ensures var (w2, r) := RunJob(env, w, Analyze(alert));
      && Spent(env, w, w2, 1) && w2.dlqTries == w.dlqTries && w2.dlq == w.dlq
      && w2.analyses == w.analyses && w2.persistTries == w.persistTries && r != Returned(Unavailable)
  {
    ClaudeBound(env, w.(runs := w.runs + 1), 0);
    assert 1 * CallCap(env) == CallCap(env);
  }

  /** The retry loop inside diagnose: it gives up only after every attempt, and then tries one dead-letter row. */
  lemma {:induction false} InnerRetry(env: Env, w: World, alert: Alert, i: nat)
    requires i <= |env.delays|
    ensures var (w2, r) := Attempts(env, w, Analyze(alert), i);
      && Spent(env, w, w2, |env.delays| + 1 - i) && w2.analyses == w.analyses && w2.persistTries == w.persistTries
      && (r.Raised? ==> env.dlqFails(w.dlqTries) && w2.dlq == w.dlq)
      && (r.Returned? && r.value.value.None? ==>
            w2.runs == w.runs + (|env.delays| + 1 - i) && w2.dlq == w.dlq + [DlqRow(Analyze(alert))])
      && (r.Returned? && r.value.value.Some? ==>
            w2.dlq == w.dlq && w2.dlqTries == w.dlqTries && r.value.value.value != Unavailable)
    decreases |env.delays| - i
  {
    var w0 := Sleep(env, w, i);
    var (w1, r) := RunJob(env, w0, Analyze(alert));
    RunBound(env, w0, alert);
    assert Spent(env, w, w1, 1);
    if r.Raised? && i < |env.delays| {
      InnerRetry(env, w1, alert, i + 1);
      SpentTwice(env, w, w1, Attempts(env, w1, Analyze(alert), i + 1).0, 1, |env.delays| - i);
    }
  }

  /** The waits before the attempts from i up to, not including, j. */
  function Backoff(env: Env, i: nat, j: nat): (r: real)
    requires i <= j <= |env.delays| + 1
    decreases j - i
  {
    if i == j then 0.0 else (if Delay(env, i) > 0.0 then Delay(env, i) else 0.0) + Backoff(env, i + 1, j)
  }

  /** Attempts are counted from one and waited for by the schedule; only the last possible one can give up. */
  lemma {:induction false} InnerWaits(env: Env, w: World, alert: Alert, i: nat)
    requires i <= |env.delays|
    ensures var (w2, r) := Attempts(env, w, Analyze(alert), i);
      && (r.Returned? ==> i < r.value.attempts <= |env.delays| + 1 && r.value.attempts - i == w2.runs - w.runs
                          && w2.slept == w.slept + Backoff(env, i, r.value.attempts))
      && (r.Returned? && r.value.value.None? ==> r.value.attempts == |env.delays| + 1)
      && (r.Raised? ==> w2.slept == w.slept + Backoff(env, i, |env.delays| + 1))
    decreases |env.delays| - i
  {
    var w0 := Sleep(env, w, i);
    var (w1, r) := RunJob(env, w0, Analyze(alert));
    ClaudeBound(env, w0.(runs := w0.runs + 1), 0);
    assert w1.slept == w0.slept && w1.runs == w0.runs + 1;
    if r.Raised? && i < |env.delays| {
      InnerWaits(env, w1, alert, i + 1);
    } else {
      assert Backoff(env, i + 1, i + 1) == 0.0;
    }
  }

  /** How many records of an alert there are: dead-letter rows and analyses. */
  function Records(w: World): (r: nat) { |w.dlq| + |w.analyses| }

  /**
    diagnose raises only when its dead-letter write does, and then leaves no record; otherwise it
    leaves at most one, and exactly one unless persisting it fails.
  */
  lemma DiagnoseBound(env: Env, w: World, alert: Alert)
    ensures var (w2, r) := DiagnoseAlert(env, w, alert);
      && Spent(env, w, w2, |env.delays| + 1)
      && (r.Raised? ==> env.dlqFails(w.dlqTries) && Records(w2) == Records(w))
      && (r.Returned? ==> Records(w) <= Records(w2) <= Records(w) + 1)
      && (r.Returned? && !env.persistFails(w.persistTries) ==> Records(w2) == Records(w) + 1)
      && (r == Returned(Unavailable) ==> w2.dlq == w.dlq + [DlqRow(Analyze(alert))] && w2.analyses == w.analyses)
      && (r.Returned? && r.value != Unavailable && !env.persistFails(w.persistTries) ==>
            w2.dlq == w.dlq && w2.analyses == w.analyses + [Analysis(alert.alertId, r.value)])
  {
    InnerRetry(env, w, alert, 0);
    var (w1, r) := Attempts(env, w, Analyze(alert), 0);
    if r.Returned? {
      if r.value.value.None? {
        assert DiagnoseAlert(env, w, alert) == (w1, Returned(Unavailable));
        assert w1.dlq == w.dlq + [DlqRow(Analyze(alert))];
        assert Records(w1) == Records(w) + 1;
      } else {
        PersistAdds(env, w1, alert, r.value.value.value);
      }
    }
  }

  lemma PersistAdds(env: Env, w: World, alert: Alert, d: Diagnosis)
    ensures var w2 := Persist(env, w, alert, d);
      && w2 == w.(persistTries := w2.persistTries, analyses := w2.analyses)
      && Records(w) <= Records(w2) <= Records(w) + 1
      && (!env.persistFails(w.persistTries) ==>
            w2.analyses == w.analyses + [Analysis(alert.alertId, d)] && Records(w2) == Records(w) + 1)
  {
  }

  function Tries(env: Env): (r: nat) { |env.delays| + 1 }

  ghost predicate DlqWorks(env: Env) { forall n :: !env.dlqFails(n) }

  lemma Peel(a: int, b: int)
    ensures b + (a - 1) * b == a * b
  {
  }

  /**
    The worker's own retry loop over diagnose.  Whatever fails, one alert leaves at most one record,
    since an attempt that leaves one is the last; and if dead-letter writes succeed the first
    attempt is the only one.
  */
  lemma {:induction false} OuterRetry(env: Env, w: World, alert: Alert, i: nat)
    requires i <= |env.delays|
    ensures var (w2, r) := Attempts(env, w, Diagnose(alert), i);
      && Spent(env, w, w2, (Tries(env) - i) * Tries(env))
      && Records(w) <= Records(w2) <= Records(w) + 1
      && (DlqWorks(env) ==> w2.runs <= w.runs + Tries(env))
      && (DlqWorks(env) ==> r.Returned? && r.value.value.Some? && r.value.attempts == i + 1)
    decreases |env.delays| - i
  {
    var w0 := Sleep(env, w, i);
    var (w1, r) := DiagnoseAlert(env, w0, alert);
    DiagnoseBound(env, w0, alert);
    assert Spent(env, w, w1, Tries(env));
    Peel(Tries(env) - i, Tries(env));
    if r.Raised? && i < |env.delays| {
      OuterRetry(env, w1, alert, i + 1);
      SpentTwice(env, w, w1, Attempts(env, w1, Diagnose(alert), i + 1).0, Tries(env),
          (Tries(env) - i - 1) * Tries(env));
    } else {
      SpentMore(env, w, w1, Tries(env), (Tries(env) - i) * Tries(env));
    }
  }

  lemma SpentMore(env: Env, w: World, w2: World, m: int, n: int)
    requires Spent(env, w, w2, m)
    ensures m <= n ==> Spent(env, w, w2, n)
  {
  }

  /** One alert costs at most Tries squared runs of the tool loop, and at most Tries if dead-letter writes succeed. */
  lemma AlertBound(env: Env, w: World, alert: Alert)
    ensures var (w2, ok) := ProcessAlert(env, w, alert);
      && w.runs < w2.runs <= w.runs + Tries(env) * Tries(env)
      && w2.calls <= w.calls + (w2.runs - w.runs) * CallCap(env)
      && Records(w) <= Records(w2) <= Records(w) + 1
      && w2.analyzed == w.analyzed + (if ok then [alert.id] else [])
      && (DlqWorks(env) ==> w2.runs <= w.runs + Tries(env))
      && (DlqWorks(env) && !env.updateFails(w.updateTries) ==> ok)
  {
    OuterRetry(env, w, alert, 0);
    var (w1, r) := Attempts(env, w, Diagnose(alert), 0);
    assert w1.updateTries == w.updateTries && w1.analyzed == w.analyzed;
  }

  // ---- the bound is reached --------------------------------------------------------------

  /** The model is down and nothing can be written to the dead-letter table. */
  ghost predicate AllDown(env: Env) {
    forall n :: env.reply(n).ApiError? && env.dlqFails(n)
  }

  lemma {:induction false} InnerWorst(env: Env, w: World, alert: Alert, i: nat)
    requires AllDown(env) && i <= |env.delays|
    ensures var (w2, r) := Attempts(env, w, Analyze(alert), i);
      r.Raised? && w2.runs == w.runs + Tries(env) - i
    decreases |env.delays| - i
  {
    if i < |env.delays| {
      InnerWorst(env, RunJob(env, Sleep(env, w, i), Analyze(alert)).0, alert, i + 1);
    }
  }

  lemma {:induction false} OuterWorst(env: Env, w: World, alert: Alert, i: nat)
    requires AllDown(env) && i <= |env.delays|
    ensures var (w2, r) := Attempts(env, w, Diagnose(alert), i);
      r.Raised? && w2.runs == w.runs + (Tries(env) - i) * Tries(env)
    decreases |env.delays| - i
  {
    InnerWorst(env, Sleep(env, w, i), alert, 0);
    assert RunJob(env, Sleep(env, w, i), Diagnose(alert)) == DiagnoseAlert(env, Sleep(env, w, i), alert);
    Peel(Tries(env) - i, Tries(env));
    if i < |env.delays| {
      OuterWorst(env, DiagnoseAlert(env, Sleep(env, w, i), alert).0, alert, i + 1);
    }
  }

  /** With everything down an alert costs exactly Tries squared runs, and is an error. */
  lemma AlertBoundReached(env: Env, w: World, alert: Alert)
    requires AllDown(env)
    ensures var (w2, ok) := ProcessAlert(env, w, alert); !ok && w2.runs == w.runs + Tries(env) * Tries(env)
  {
    OuterWorst(env, w, alert, 0);
  }

  // ---- one batch -------------------------------------------------------------------------

  /** The ids of the processed alerts, in order. */
  function Processed(alerts: seq<Alert>, done: seq<bool>): (r: seq<int>)
    requires |done| == |alerts|
  {
    if alerts == [] then [] else (
      var n := |alerts| - 1;
      Processed(alerts[..n], done[..n]) + (if done[n] then [alerts[n].id] else []))
  }

  lemma {:induction false} CountsAll(done: seq<bool>)
    ensures Count(done, true) + Count(done, false) == |done|
  {
    if done != [] { CountsAll(done[..|done| - 1]); }
  }

  /** A batch counts each of its alerts once, as processed or as an error, and marks exactly the processed ones. */
  lemma {:induction false} BatchCounts(env: Env, w: World, alerts: seq<Alert>)
    ensures var (w2, done) := Batch(env, w, alerts);
      && |done| == |alerts| == Count(done, true) + Count(done, false)
      && w2.analyzed == w.analyzed + Processed(alerts, done)
      && (DlqWorks(env) && (forall n :: !env.updateFails(n)) ==> Count(done, true) == |alerts|)
  {
    CountsAll(Batch(env, w, alerts).1);
    if alerts != [] {
      var n := |alerts| - 1;
      BatchCounts(env, w, alerts[..n]);
      var (w1, done) := Batch(env, w, alerts[..n]);
      AlertBound(env, w1, alerts[n]);
      var ok := ProcessAlert(env, w1, alerts[n]).1;
      CountPush(done, ok);
      assert (done + [ok])[..n] == done;
    }
  }

  /** What m alerts may cost. */
  ghost predicate Cost(env: Env, w: World, w2: World, m: nat) {
    && w.runs + m <= w2.runs <= w.runs + m * (Tries(env) * Tries(env))
    && w2.calls <= w.calls + (w2.runs - w.runs) * CallCap(env)
    && Records(w) <= Records(w2) <= Records(w) + m
    && (DlqWorks(env) ==> w2.runs <= w.runs + m * Tries(env))
  }

  lemma CostStep(env: Env, w: World, w1: World, w2: World, m: nat)
    requires Cost(env, w, w1, m) && Cost(env, w1, w2, 1)
    ensures Cost(env, w, w2, m + 1)
  {
    var t, c, x, y := Tries(env), CallCap(env), w1.runs - w.runs, w2.runs - w1.runs;
    assert x * c + y * c == (x + y) * c;
    assert (m + 1) * (t * t) == m * (t * t) + t * t;
    assert (m + 1) * t == m * t + t;
  }

  /** A batch leaves at most one record an alert, and its cost is bounded alert by alert. */
  lemma {:induction false} BatchBound(env: Env, w: World, alerts: seq<Alert>)
    ensures Cost(env, w, Batch(env, w, alerts).0, |alerts|)
  {
    if alerts != [] {
      var n := |alerts| - 1;
      BatchBound(env, w, alerts[..n]);
      var w1 := Batch(env, w, alerts[..n]).0;
      AlertBound(env, w1, alerts[n]);
      CostStep(env, w, w1, ProcessAlert(env, w1, alerts[n]).0, n);
    }
  }
}
