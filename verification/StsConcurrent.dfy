/**
  StsTokenCache.Get of internal/credentials/sts_cache.go under concurrency: any number of Gets and
  Invalidates, each locked section one step, with the fetches going through the steps of
  SingleFlight.  A miss stores what it got later, when others may have stored or invalidated.
*/
module StsConcurrent {
  import opened Basics
  import opened StsCache
  import SingleFlight

  type CallerId = SingleFlight.CallerId
  type Flight = SingleFlight.Sys<Creds>
  type FlightLabel = SingleFlight.Label<Creds>

  /** Where a Get stands: past a miss, in Do, about to store, or back; looked is when it looked, if it hit. */
  datatype Pc =
    | Missed(account: Account)
    | Fetching(account: Account)
    | Storing(account: Account, creds: Creds)
    | Back(account: Account, result: Result<Creds, string>, looked: Option<Time>)

  datatype World = World(flight: Flight, store: map<Account, Creds>, gets: map<CallerId, Pc>)

  datatype Step =
    | Look(c: CallerId, account: Account, now: Time)
    | Join(c: CallerId)
    | Fly(l: FlightLabel)
    | Return(c: CallerId)
    | Put(c: CallerId)
    | Drop(account: Account)

  /** A step of an execution's goroutine, as opposed to one of a caller. */
  predicate IsGoroutine(l: FlightLabel) { l.FnEnds? || l.Remove? || l.Signal? }

  /** What Do gives its caller: an error, or something that is credentials or is not. */
  function Fetched(account: Account, out: SingleFlight.Outcome<Creds>): (pc: Pc) {
    if out.err.Some? then Back(account, Err("assume role: " + out.err.value), None)
    else if out.val.None? then Back(account, Err("assumer returned wrong type"), None)
    else Storing(account, out.val.value)
  }

  function ReturnStep(w: World, c: CallerId): (w2: World)
    requires c in w.gets && w.gets[c].Fetching?
  {
    var flight := SingleFlight.Next(w.flight, SingleFlight.Leave(c));
    if SingleFlight.Enabled(w.flight, SingleFlight.Leave(c)) && flight.callers[c].out.Some? then
      w.(flight := flight, gets := w.gets[c := Fetched(w.gets[c].account, flight.callers[c].out.value)])
    else w
  }

  function Take(cfg: Config, w: World, step: Step): (w2: World) {
    match step
    case Look(c, account, now) =>
      if c in w.gets then w
      else if IsHit(cfg, w.store, account, now) then w.(gets := w.gets[c := Back(account, Ok(w.store[account]),
          Some(now))])
      else w.(gets := w.gets[c := Missed(account)])
    case Join(c) =>
      if c in w.gets && w.gets[c].Missed? then
        w.(flight := SingleFlight.Next(w.flight, SingleFlight.Enter(c, w.gets[c].account)),
           gets := w.gets[c := Fetching(w.gets[c].account)])
      else w
    case Fly(l) => if IsGoroutine(l) then w.(flight := SingleFlight.Next(w.flight, l)) else w
    case Return(c) => if c in w.gets && w.gets[c].Fetching? then ReturnStep(w, c) else w
    case Put(c) =>
      if c in w.gets && w.gets[c].Storing? then
        var pc := w.gets[c];
        w.(store := w.store[pc.account := pc.creds], gets := w.gets[c := Back(pc.account, Ok(pc.creds), None)])
      else w
    case Drop(account) => w.(store := w.store - {account})
  }

  const NOTHING := World(SingleFlight.Sys(map[], [], map[], []), map[], map[])

  function RunAll(cfg: Config, steps: seq<Step>): (w: World) {
    if steps == [] then NOTHING else Take(cfg, RunAll(cfg, steps[..|steps| - 1]), steps[|steps| - 1])
  }

  // ---- invariant -------------------------------------------------------------------------

  /** Some execution for this account, and for no other, has got these credentials from AssumeRole. */
  ghost predicate IssuedFor(flight: Flight, account: Account, creds: Creds) {
    exists i :: 0 <= i < |flight.calls| && flight.calls[i].key == account
      && flight.calls[i].result == Some(SingleFlight.Outcome(Some(creds), None))
  }

  ghost predicate PcOk(cfg: Config, flight: Flight, c: CallerId, pc: Pc) {
    match pc
    case Missed(_) => c !in flight.callers
    case Fetching(account) => c in flight.callers && flight.callers[c].key == account
    case Storing(account, creds) => IssuedFor(flight, account, creds)
    case Back(account, result, looked) =>
      result.Ok? ==>
        && IssuedFor(flight, account, result.value)
        && (looked.Some? ==> result.value.expiration > looked.value + cfg.margin)
  }

  ghost predicate StoreOk(flight: Flight, store: map<Account, Creds>) {
    forall a :: a in store ==> IssuedFor(flight, a, store[a])
  }

  ghost predicate WorldOk(cfg: Config, w: World) {
    && SingleFlight.Inv(w.flight) && StoreOk(w.flight, w.store)
    && (forall c :: c in w.gets ==> PcOk(cfg, w.flight, c, w.gets[c]))
    && (forall c :: c in w.flight.callers ==> c in w.gets)
  }

  /** A step of the flight takes nothing back: keys stay, and so do results. */
  lemma FlightGrows(flight: Flight, l: FlightLabel, account: Account, creds: Creds)
    requires SingleFlight.Inv(flight) && IssuedFor(flight, account, creds)
    ensures IssuedFor(SingleFlight.Next(flight, l), account, creds)
  {
    var i :| 0 <= i < |flight.calls| && flight.calls[i].key == account
      && flight.calls[i].result == Some(SingleFlight.Outcome(Some(creds), None));
    assert SingleFlight.CallOk(flight, i);
    var flight2 := SingleFlight.Next(flight, l);
    assert flight2.calls[i].key == account && flight2.calls[i].result == flight.calls[i].result;
  }

  /** After a step of the flight, what concerns the other callers still holds. */
  lemma FlightKeeps(cfg: Config, w: World, l: FlightLabel, c: CallerId)
    requires WorldOk(cfg, w) && c in w.gets
    requires (l.Enter? || l.Leave?) ==> l.c != c
    ensures PcOk(cfg, SingleFlight.Next(w.flight, l), c, w.gets[c])
  {
    var pc := w.gets[c];
    match pc
    case Missed(_) =>
    case Fetching(_) => SingleFlight.StepFrame(w.flight, l, c);
    case Storing(account, creds) => FlightGrows(w.flight, l, account, creds);
    case Back(account, result, _) => if result.Ok? { FlightGrows(w.flight, l, account, result.value); }
  }

  lemma StoreKeeps(w: World, l: FlightLabel)
    requires SingleFlight.Inv(w.flight) && StoreOk(w.flight, w.store)
    ensures StoreOk(SingleFlight.Next(w.flight, l), w.store)
  {
    forall a | a in w.store ensures IssuedFor(SingleFlight.Next(w.flight, l), a, w.store[a]) {
      FlightGrows(w.flight, l, a, w.store[a]);
    }
  }

  lemma JoinKeeps(cfg: Config, w: World, c: CallerId)
    requires WorldOk(cfg, w) && c in w.gets && w.gets[c].Missed?
    ensures WorldOk(cfg, Take(cfg, w, Join(c)))
  {
    var l := SingleFlight.Enter(c, w.gets[c].account);
    assert PcOk(cfg, w.flight, c, w.gets[c]);
    SingleFlight.NextKeeps(w.flight, l);
    StoreKeeps(w, l);
    forall d | d in w.gets && d != c ensures PcOk(cfg, SingleFlight.Next(w.flight, l), d, w.gets[d]) {
      FlightKeeps(cfg, w, l, d);
    }
  }

  lemma FlyKeeps(cfg: Config, w: World, l: FlightLabel)
    requires WorldOk(cfg, w) && IsGoroutine(l)
    ensures WorldOk(cfg, Take(cfg, w, Fly(l)))
  {
    SingleFlight.NextKeeps(w.flight, l);
    StoreKeeps(w, l);
    forall d | d in w.gets ensures PcOk(cfg, SingleFlight.Next(w.flight, l), d, w.gets[d]) {
      FlightKeeps(cfg, w, l, d);
    }
  }

  /** A caller that is back from Do holds the result of an execution for its own account. */
  lemma ReturnedOwn(cfg: Config, w: World, c: CallerId)
    requires WorldOk(cfg, w) && c in w.gets && w.gets[c].Fetching?
    requires SingleFlight.Enabled(w.flight, SingleFlight.Leave(c))
    ensures var flight := SingleFlight.Next(w.flight, SingleFlight.Leave(c));
      && c in flight.callers && flight.callers[c].Back? && flight.callers[c].out.Some?
      && PcOk(cfg, flight, c, Fetched(w.gets[c].account, flight.callers[c].out.value))
  {
    var flight := SingleFlight.Next(w.flight, SingleFlight.Leave(c));
    assert PcOk(cfg, w.flight, c, w.gets[c]);
    SingleFlight.NextKeeps(w.flight, SingleFlight.Leave(c));
    assert SingleFlight.CallerOk(flight, c);
    var i := flight.callers[c].call;
    assert flight.calls[i].key == w.gets[c].account && flight.calls[i].result == flight.callers[c].out;
  }

  lemma ReturnKeeps(cfg: Config, w: World, c: CallerId)
    requires WorldOk(cfg, w) && c in w.gets && w.gets[c].Fetching?
    requires SingleFlight.Enabled(w.flight, SingleFlight.Leave(c))
    ensures WorldOk(cfg, Take(cfg, w, Return(c)))
  {
    var l := SingleFlight.Leave(c);
    ReturnedOwn(cfg, w, c);
    SingleFlight.NextKeeps(w.flight, l);
    StoreKeeps(w, l);
    forall d | d in w.gets && d != c ensures PcOk(cfg, SingleFlight.Next(w.flight, l), d, w.gets[d]) {
      FlightKeeps(cfg, w, l, d);
    }
  }

  lemma TakeKeeps(cfg: Config, w: World, step: Step)
    requires WorldOk(cfg, w)
    ensures WorldOk(cfg, Take(cfg, w, step))
  {
    match step
    case Look(_, _, _) =>
    case Join(c) => if c in w.gets && w.gets[c].Missed? { JoinKeeps(cfg, w, c); }
    case Fly(l) => if IsGoroutine(l) { FlyKeeps(cfg, w, l); }
    case Return(c) =>
      if c in w.gets && w.gets[c].Fetching?
          && SingleFlight.Enabled(w.flight, SingleFlight.Leave(c)) { ReturnKeeps(cfg, w, c); }
    case Put(c) => if c in w.gets && w.gets[c].Storing? { assert PcOk(cfg, w.flight, c, w.gets[c]); }
    case Drop(_) =>
  }

  lemma {:induction false} AllOk(cfg: Config, steps: seq<Step>)
    ensures WorldOk(cfg, RunAll(cfg, steps))
  {
    if steps != [] {
      AllOk(cfg, steps[..|steps| - 1]);
      TakeKeeps(cfg, RunAll(cfg, steps[..|steps| - 1]), steps[|steps| - 1]);
    }
  }

  /**
    In every interleaving, what a Get answers was issued by AssumeRole in an execution for that
    account; and a hit, whoever stored it and whenever, outlives the moment of the look by more than
    the margin.
  */
  lemma AnswersAreOwn(cfg: Config, steps: seq<Step>, c: CallerId)
    requires var w := RunAll(cfg, steps); c in w.gets && w.gets[c].Back? && w.gets[c].result.Ok?
    ensures var w := RunAll(cfg, steps);
      var pc := w.gets[c];
      && IssuedFor(w.flight, pc.account, pc.result.value)
      && (pc.looked.Some? ==> pc.result.value.expiration > pc.looked.value + cfg.margin)
  {
    AllOk(cfg, steps);
    assert PcOk(cfg, RunAll(cfg, steps).flight, c, RunAll(cfg, steps).gets[c]);
  }

  /** At most one AssumeRole is under way for an account. */
  lemma OneFetch(cfg: Config, steps: seq<Step>, i: nat, j: nat)
    ensures var calls := RunAll(cfg, steps).flight.calls;
      (&& i < |calls| && calls[i].stage == SingleFlight.Running
       && j < |calls| && calls[j].stage == SingleFlight.Running
       && calls[i].key == calls[j].key) ==> i == j
  {
    AllOk(cfg, steps);
    var flight := RunAll(cfg, steps).flight;
    assert SingleFlight.CallOk(flight, i) && SingleFlight.CallOk(flight, j);
  }
}
