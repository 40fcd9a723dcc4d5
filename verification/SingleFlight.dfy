/**
  singleflight.Do of internal/credentials/singleflight.go, as interleaved atomic steps.

  A call of Do looks the key up under the lock and either joins the execution registered there or
  registers a new one; the goroutine of an execution runs fn and writes the result, then removes
  the key under the lock, then signals the wait group; a caller returns after the signal.
*/
module SingleFlight {
  import opened Basics

  type Key = string
  type CallerId = nat

  /** fn's (val, err). */
  datatype Outcome<V> = Outcome(val: Option<V>, err: Option<string>)

  /** Stages of an execution's goroutine. */
  datatype Stage = Running | Written | Removed | Signalled

  /** An sfCall; its position in Sys.calls stands for its address. */
  datatype Call<V> = Call(key: Key, stage: Stage, result: Option<Outcome<V>>)

  /** lead: this caller registered the execution (and will return shared = false). */
  datatype Caller<V> =
    | Waiting(key: Key, call: nat, lead: bool)
    | Back(key: Key, call: nat, out: Option<Outcome<V>>, shared: bool)

  /** leaders is history: leaders[i] is the caller that registered execution i. */
  datatype Sys<V> = Sys(
    m: map<Key, nat>, calls: seq<Call<V>>, callers: map<CallerId, Caller<V>>, leaders: seq<CallerId>)

  datatype Label<V> =
    | Enter(c: CallerId, key: Key)
    | FnEnds(i: nat, out: Outcome<V>)
    | Remove(i: nat)
    | Signal(i: nat)
    | Leave(c: CallerId)

  /** The locked section at the top of Do. */
  function DoEnter<V>(s: Sys<V>, c: CallerId, key: Key): (r: Sys<V>) {
    if key in s.m then s.(callers := s.callers[c := Waiting(key, s.m[key], false)])
    else
      Sys(s.m[key := |s.calls|], s.calls + [Call(key, Running, None)],
          s.callers[c := Waiting(key, |s.calls|, true)], s.leaders + [c])
  }

  function SetStage<V>(s: Sys<V>, i: nat, stage: Stage): (r: Sys<V>)
    requires i < |s.calls|
  {
    s.(calls := s.calls[i := s.calls[i].(stage := stage)])
  }

  predicate Enabled<V>(s: Sys<V>, l: Label<V>) {
    match l
    case Enter(c, _) => c !in s.callers
    case FnEnds(i, _) => i < |s.calls| && s.calls[i].stage == Running
    case Remove(i) => i < |s.calls| && s.calls[i].stage == Written
    case Signal(i) => i < |s.calls| && s.calls[i].stage == Removed
    case Leave(c) =>
      c in s.callers && s.callers[c].Waiting? && s.callers[c].call < |s.calls|
      && s.calls[s.callers[c].call].stage == Signalled
  }

  /** A label that is not enabled changes nothing. */
  function Next<V>(s: Sys<V>, l: Label<V>): (r: Sys<V>) {
    if !Enabled(s, l) then s else
      match l
      case Enter(c, key) => DoEnter(s, c, key)
      case FnEnds(i, out) => s.(calls := s.calls[i := s.calls[i].(stage := Written, result := Some(out))])
      case Remove(i) => SetStage(s.(m := s.m - {s.calls[i].key}), i, Removed)  // delete(g.m, key)
      case Signal(i) => SetStage(s, i, Signalled)
      case Leave(c) =>
        var w := s.callers[c];
        s.(callers := s.callers[c := Back(w.key, w.call, s.calls[w.call].result, !w.lead)])
  }

  function Run<V>(s: Sys<V>, labels: seq<Label<V>>): (r: Sys<V>) {
    if labels == [] then s else Next(Run(s, labels[..|labels| - 1]), labels[|labels| - 1])
  }

  // ---- the invariant ---------------------------------------------------------------------

  predicate IsRegistered(stage: Stage) {
    stage == Running || stage == Written
  }

  predicate Leads<V>(w: Caller<V>) {
    if w.Waiting? then w.lead else !w.shared
  }

  /** The map holds this key only for a registered execution of this key. */
  ghost predicate KeyOk<V>(s: Sys<V>, key: Key) {
    key in s.m ==> s.m[key] < |s.calls| && s.calls[s.m[key]].key == key && IsRegistered(s.calls[s.m[key]].stage)
  }

  /** A registered execution is in the map; a result is there once fn has ended; the leader leads. */
  ghost predicate CallOk<V>(s: Sys<V>, i: nat) {
    i < |s.calls| ==>
      && (IsRegistered(s.calls[i].stage) ==> s.calls[i].key in s.m && s.m[s.calls[i].key] == i)
      && (s.calls[i].stage != Running <==> s.calls[i].result.Some?)
      && |s.leaders| == |s.calls|
      && s.leaders[i] in s.callers && s.callers[s.leaders[i]].call == i && Leads(s.callers[s.leaders[i]])
  }

  ghost predicate CallerOk<V>(s: Sys<V>, c: CallerId) {
    c in s.callers ==>
      var w := s.callers[c];
      && w.call < |s.calls| && |s.leaders| == |s.calls|
      && s.calls[w.call].key == w.key
      && (Leads(w) ==> s.leaders[w.call] == c)
      && (w.Back? ==> s.calls[w.call].stage == Signalled && w.out.Some? && w.out == s.calls[w.call].result)
  }

  ghost predicate Inv<V>(s: Sys<V>) {
    && |s.leaders| == |s.calls|
    && (forall k: Key {:trigger KeyOk(s, k)} :: KeyOk(s, k))
    && (forall i: nat {:trigger CallOk(s, i)} :: CallOk(s, i))
    && (forall c: CallerId {:trigger CallerOk(s, c)} :: CallerOk(s, c))
  }

  lemma EnterKeeps<V>(s: Sys<V>, c: CallerId, key: Key)
    requires Inv(s) && c !in s.callers
    ensures Inv(DoEnter(s, c, key))
  {
    var s2 := DoEnter(s, c, key);
    assert KeyOk(s, key);
    forall k: Key ensures KeyOk(s2, k) { assert KeyOk(s, k); }
    forall i: nat ensures CallOk(s2, i) { assert CallOk(s, i); }
    forall d: CallerId ensures CallerOk(s2, d) { assert CallerOk(s, d); }
  }

  /** A step of execution i's goroutine. */
  lemma StageKeeps<V>(s: Sys<V>, i: nat, l: Label<V>)
    requires Inv(s) && Enabled(s, l) && (l.FnEnds? || l.Remove? || l.Signal?) && l.i == i
    ensures Inv(Next(s, l))
  {
    var s2 := Next(s, l);
    assert CallOk(s, i);
    forall k: Key ensures KeyOk(s2, k) { assert KeyOk(s, k); }
    forall j: nat ensures CallOk(s2, j) { assert CallOk(s, j); }
    forall d: CallerId ensures CallerOk(s2, d) { assert CallerOk(s, d); }
  }

  lemma LeaveKeeps<V>(s: Sys<V>, c: CallerId)
    requires Inv(s) && Enabled(s, Leave(c))
    ensures Inv(Next(s, Leave(c)))
  {
    var s2 := Next(s, Leave(c));
    assert CallerOk(s, c) && CallOk(s, s.callers[c].call);
    forall k: Key ensures KeyOk(s2, k) { assert KeyOk(s, k); }
    forall i: nat ensures CallOk(s2, i) { assert CallOk(s, i); }
    forall d: CallerId ensures CallerOk(s2, d) { assert CallerOk(s, d); }
  }

  lemma NextKeeps<V>(s: Sys<V>, l: Label<V>)
    requires Inv(s)
    ensures Inv(Next(s, l))
  {
    if Enabled(s, l) {
      match l
      case Enter(c, key) => EnterKeeps(s, c, key);
      case Leave(c) => LeaveKeeps(s, c);
      case FnEnds(i, _) => StageKeeps(s, i, l);
      case Remove(i) => StageKeeps(s, i, l);
      case Signal(i) => StageKeeps(s, i, l);
    }
  }

  function Fresh<V>(): (r: Sys<V>) { Sys(map[], [], map[], []) }

  lemma {:induction false} RunKeeps<V>(s: Sys<V>, labels: seq<Label<V>>)
    requires Inv(s)
    ensures Inv(Run(s, labels))
  {
    if labels != [] {
      RunKeeps(s, labels[..|labels| - 1]);
      NextKeeps(Run(s, labels[..|labels| - 1]), labels[|labels| - 1]);
    }
  }

  // ---- the promises ----------------------------------------------------------------------

  /** In every interleaving, at most one fn runs per key. */
  lemma OneFlightPerKey<V>(labels: seq<Label<V>>, i: nat, j: nat)
    ensures var s := Run(Fresh(), labels);
      (&& i < |s.calls| && s.calls[i].stage == Running
       && j < |s.calls| && s.calls[j].stage == Running
       && s.calls[i].key == s.calls[j].key) ==> i == j
  {
    RunKeeps<V>(Fresh(), labels);
    assert CallOk(Run(Fresh(), labels), i) && CallOk(Run(Fresh(), labels), j);
  }

  /**
    Exactly one caller of each execution is its leader, so of the callers that are back exactly
    the leader has shared = false.
  */
  lemma OneLeader<V>(labels: seq<Label<V>>, i: nat, c: CallerId)
    requires i < |Run<V>(Fresh(), labels).calls|
    ensures var s := Run(Fresh(), labels);
      i < |s.leaders| && s.leaders[i] in s.callers && s.callers[s.leaders[i]].call == i
      && (c in s.callers && s.callers[c].call == i ==> (Leads(s.callers[c]) <==> c == s.leaders[i]))
  {
    RunKeeps<V>(Fresh(), labels);
    var s := Run(Fresh(), labels);
    assert CallOk(s, i) && CallerOk(s, c);
  }

  /** A call of Do attaches to an execution for its own key that is registered at that moment. */
  lemma AttachesToRegistered<V>(labels: seq<Label<V>>, c: CallerId, key: Key)
    requires c !in Run<V>(Fresh(), labels).callers
    ensures var s := Run(Fresh(), labels);
      var s2 := Next(s, Enter(c, key));
      && c in s2.callers && s2.callers[c].Waiting? && s2.callers[c].key == key
      && s2.callers[c].call < |s2.calls| && s2.calls[s2.callers[c].call].key == key
      && IsRegistered(s2.calls[s2.callers[c].call].stage)
      && (s2.callers[c].lead <==> key !in s.m)
  {
    RunKeeps<V>(Fresh(), labels);
    assert KeyOk(Run(Fresh(), labels), key);
  }

  /** What one step leaves alone: whom a caller is attached to, and a written result. */
  lemma StepFrame<V>(s: Sys<V>, l: Label<V>, c: CallerId)
    requires Inv(s) && c in s.callers
    ensures var s2 := Next(s, l);
      && c in s2.callers && s2.callers[c].key == s.callers[c].key && s2.callers[c].call == s.callers[c].call
      && Leads(s2.callers[c]) == Leads(s.callers[c])
      && s.callers[c].call < |s.calls| <= |s2.calls|
      && (s.calls[s.callers[c].call].result.Some? ==>
            s2.calls[s.callers[c].call].result == s.calls[s.callers[c].call].result)
  {
    assert CallerOk(s, c) && CallOk(s, s.callers[c].call);
  }

  /**
    A caller stays with the execution it attached to, for its own key, and if it is back it has
    the value and error that this execution's fn returned: never a result that is not written.
  */
  lemma {:induction false} ReturnsItsResult<V>(s: Sys<V>, labels: seq<Label<V>>, c: CallerId)
    requires Inv(s) && c in s.callers
    ensures var s2 := Run(s, labels);
      && c in s2.callers && s2.callers[c].call == s.callers[c].call && s2.callers[c].key == s.callers[c].key
      && s2.callers[c].call < |s2.calls| && s2.calls[s2.callers[c].call].key == s2.callers[c].key
      && (s2.callers[c].Back? ==>
            && s2.callers[c].out.Some? && s2.callers[c].out == s2.calls[s2.callers[c].call].result
            && s2.callers[c].shared == !Leads(s.callers[c]))
  {
    if labels == [] {
      assert CallerOk(s, c);
    } else {
      var front := labels[..|labels| - 1];
      ReturnsItsResult(s, front, c);
      LeadsStays(s, front, c);
      RunKeeps(s, front);
      var s1 := Run(s, front);
      StepFrame(s1, labels[|labels| - 1], c);
      NextKeeps(s1, labels[|labels| - 1]);
      assert CallerOk(Run(s, labels), c);
    }
  }

  lemma {:induction false} LeadsStays<V>(s: Sys<V>, labels: seq<Label<V>>, c: CallerId)
    requires Inv(s) && c in s.callers
    ensures var s2 := Run(s, labels); c in s2.callers && Leads(s2.callers[c]) == Leads(s.callers[c])
  {
    if labels != [] {
      var front := labels[..|labels| - 1];
      LeadsStays(s, front, c);
      RunKeeps(s, front);
      StepFrame(Run(s, front), labels[|labels| - 1], c);
    }
  }

  // ---- everybody returns -----------------------------------------------------------------

  function StepsLeft(stage: Stage): (r: nat) {
    match stage
    case Running => 3
    case Written => 2
    case Removed => 1
    case Signalled => 0
  }

  function SumLeft<V>(calls: seq<Call<V>>): (r: nat) {
    if calls == [] then 0 else SumLeft(calls[..|calls| - 1]) + StepsLeft(calls[|calls| - 1].stage)
  }

  lemma {:induction false} SumUpdate<V>(calls: seq<Call<V>>, i: nat, c: Call<V>)
    requires i < |calls|
    ensures SumLeft(calls[i := c]) + StepsLeft(calls[i].stage) == SumLeft(calls) + StepsLeft(c.stage)
  {
    var front := calls[..|calls| - 1];
    if i < |front| {
      SumUpdate(front, i, c);
      assert calls[i := c][..|calls| - 1] == front[i := c];
    } else {
      assert calls[i := c][..|calls| - 1] == front;
    }
  }

  function StillWaiting<V>(s: Sys<V>): (r: set<CallerId>) {
    set c | c in s.callers && s.callers[c].Waiting?
  }

  /** Steps that remain when nobody new enters. */
  function Remaining<V>(s: Sys<V>): (r: nat) {
    SumLeft(s.calls) + |StillWaiting(s)|
  }

  /** Every enabled step but an Enter uses up one of them. */
  lemma StepCounts<V>(s: Sys<V>, l: Label<V>)
    requires Enabled(s, l) && !l.Enter?
    ensures Remaining(Next(s, l)) == Remaining(s) - 1
  {
    var s2 := Next(s, l);
    if l.Leave? {
      assert StillWaiting(s2) == StillWaiting(s) - {l.c};
    } else {
      assert StillWaiting(s2) == StillWaiting(s);
      SumUpdate(s.calls, l.i, s2.calls[l.i]);
    }
  }

  /** While a caller waits, some step of its execution or its own return is enabled (fn's end being up to fn). */
  lemma SomeoneCanStep<V>(s: Sys<V>, c: CallerId, out: Outcome<V>) returns (l: Label<V>)
    requires Inv(s) && c in s.callers && s.callers[c].Waiting?
    ensures Enabled(s, l) && !l.Enter?
  {
    assert CallerOk(s, c);
    var i := s.callers[c].call;
    match s.calls[i].stage
    case Running => l := FnEnds(i, out);
    case Written => l := Remove(i);
    case Removed => l := Signal(i);
    case Signalled => l := Leave(c);
  }

  /** Every label of the run is a step that is enabled when it is taken, and nobody enters. */
  ghost predicate Draining<V>(s: Sys<V>, labels: seq<Label<V>>) {
    forall n :: 0 <= n < |labels| ==> Enabled(Run(s, labels[..n]), labels[n]) && !labels[n].Enter?
  }

  lemma {:induction false} DrainCounts<V>(s: Sys<V>, labels: seq<Label<V>>)
    requires Draining(s, labels)
    ensures Remaining(Run(s, labels)) == Remaining(s) - |labels|
  {
    if labels != [] {
      var front := labels[..|labels| - 1];
      assert forall n :: 0 <= n < |front| ==> front[..n] == labels[..n] && front[n] == labels[n];
      DrainCounts(s, front);
      StepCounts(Run(s, front), labels[|labels| - 1]);
    }
  }

  /**
    If every fn ends, every caller returns: from any reachable state, the steps of those already
    there are at most Remaining(s) in number, and when none of them is left to take, all callers
    are back.
  */
  lemma EverybodyReturns<V>(s: Sys<V>, labels: seq<Label<V>>, some: Outcome<V>)
    requires Inv(s) && Draining(s, labels)
    ensures |labels| <= Remaining(s)
    ensures (forall l: Label<V> :: Enabled(Run(s, labels), l) ==> l.Enter?) ==>
      forall c :: c in Run(s, labels).callers ==> Run(s, labels).callers[c].Back?
  {
    DrainCounts(s, labels);
    RunKeeps(s, labels);
    var s2 := Run(s, labels);
    forall c | c in s2.callers && s2.callers[c].Waiting? ensures exists l: Label<V> :: Enabled(s2, l) && !l.Enter? {
      var l := SomeoneCanStep(s2, c, some);
    }
  }

  // ---- the mutable group -----------------------------------------------------------------

  /** The group with its lock-protected map and the call records; each method is one atomic section. */
  class Group<V(!new)> {
    var m: map<Key, nat>
    var calls: seq<Call<V>>
    var callers: map<CallerId, Caller<V>>
    ghost var leaders: seq<CallerId>

    ghost function View(): (r: Sys<V>) reads this { Sys(m, calls, callers, leaders) }

    constructor ()
      ensures View() == Fresh()
    {
      m, calls, callers, leaders := map[], [], map[], [];
    }

    /** The locked section of Do; a new execution's goroutine starts with it. */
    method Enter(c: CallerId, key: Key) returns (i: nat, lead: bool)
      requires c !in callers
      modifies this
      ensures View() == Next(old(View()), Label.Enter(c, key))
      ensures c in callers && callers[c] == Waiting(key, i, lead)
    {
      if key in m {
        i, lead := m[key], false;
      } else {
        i, lead := |calls|, true;
        calls := calls + [Call(key, Running, None)];
        m := m[key := i];
        leaders := leaders + [c];
      }
      callers := callers[c := Waiting(key, i, lead)];
    }

    /** c.val, c.err = fn(). */
    method WriteResult(i: nat, out: Outcome<V>)
      requires Enabled(View(), FnEnds(i, out))
      modifies this`calls
      ensures View() == Next(old(View()), FnEnds(i, out))
    {
      calls := calls[i := calls[i].(stage := Written, result := Some(out))];
    }

    /** delete(g.m, key) under the lock. */
    method RemoveKey(i: nat)
      requires Enabled(View(), Remove(i))
      modifies this`m, this`calls
      ensures View() == Next(old(View()), Remove(i))
    {
      m := m - {calls[i].key};
      calls := calls[i := calls[i].(stage := Removed)];
    }

    /** wg.Done(). */
    method SignalDone(i: nat)
      requires Enabled(View(), Signal(i))
      modifies this`calls
      ensures View() == Next(old(View()), Signal(i))
    {
      calls := calls[i := calls[i].(stage := Signalled)];
    }

    /** wg.Wait() has returned: read the result. */
    method Return(c: CallerId) returns (out: Outcome<V>, shared: bool)
      requires Inv(View()) && Enabled(View(), Leave(c))
      modifies this`callers
      ensures View() == Next(old(View()), Leave(c))
      ensures callers[c] == Back(old(callers[c].key), old(callers[c].call), Some(out), shared)
    {
      var w := callers[c];
      assert CallOk(View(), w.call);
      out, shared := calls[w.call].result.value, !w.lead;
      callers := callers[c := Back(w.key, w.call, Some(out), shared)];
    }
  }
}
