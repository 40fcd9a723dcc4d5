/**
  The event hub of internal/api/ws.go: any number of publishers and of client pumps, under the
  hub's reader/writer lock and one bounded channel a client.

  A step is what happens between two points at which another goroutine can get in.  The writer's
  sections are one step each; a publisher holds the read lock over several.
*/
module WsHub {
  datatype Event = Event(kind: string, payload: string)

  const CAPACITY := 16

  // ---- state -----------------------------------------------------------------------------

  /** A connection's handler: not yet in the map; pumping; past its loop; out of the map; channel closed. */
  datatype Stage = New | Pumping | Leaving | Removed | Gone

  /** History: one send tried to a client, and whether its channel took it. */
  datatype Attempt = Attempt(ev: Event, accepted: bool)

  /**
    A client.  hungUp is the reading goroutine's signal; attempts, taken and written are history:
    the sends tried, the events the pump has taken off the channel, and those written to the peer.
  */
  datatype Client = Client(
    stage: Stage, queue: seq<Event>, hungUp: bool,
    attempts: seq<Attempt>, taken: seq<Event>, written: seq<Event>)

  const NEW_CLIENT := Client(New, [], false, [], [], [])

  predicate InMap(c: Client) { c.stage == Pumping || c.stage == Leaving }

  predicate Closed(c: Client) { c.stage == Gone }

  /** A publisher: outside, or going through the map; reached is history. */
  datatype Publisher = Idle | Sending(ev: Event, left: set<nat>, reached: set<nat>)

  /** panicked: something was sent on a closed channel. */
  datatype Sys = Sys(clients: seq<Client>, publishers: seq<Publisher>, panicked: bool)

  datatype Label =
    | Register(c: nat) | HangUp(c: nat) | Deliver(c: nat, broken: bool) | Stop(c: nat) | Remove(c: nat) | Close(c: nat)
    | Begin(p: nat, ev: Event) | Send(p: nat, c: nat) | End(p: nat)

  function Registered(clients: seq<Client>): (r: set<nat>) {
    set i: nat | i < |clients| && InMap(clients[i])
  }

  predicate SomeReader(s: Sys) { exists p :: 0 <= p < |s.publishers| && s.publishers[p].Sending? }

  // ---- steps -----------------------------------------------------------------------------

  /** A non-blocking send on a channel that holds the given events. */
  function Offered(queue: seq<Event>, ev: Event): (r: seq<Event>) {
    if |queue| < CAPACITY then queue + [ev] else queue
  }

  function Offer(c: Client, ev: Event): (r: Client) {
    c.(queue := Offered(c.queue, ev), attempts := c.attempts + [Attempt(ev, |c.queue| < CAPACITY)])
  }

  /** The pump takes an event and writes it, unless it cannot be encoded; a failed write ends the pump. */
  function Pump(c: Client, encodable: Event -> bool, broken: bool): (r: Client)
    requires c.queue != []
  {
    var ev := c.queue[0];
    var c2 := c.(queue := c.queue[1..], taken := c.taken + [ev]);
    if !encodable(ev) then c2
    else if broken then c2.(stage := Leaving)
    else c2.(written := c2.written + [ev])
  }

  /** The step of one client by itself; another label, or one it cannot take, leaves it alone. */
  function ClientStep(c: Client, encodable: Event -> bool, locked: bool, l: Label): (r: Client) {
    match l
    case Register(_) => if c.stage == New && !locked then c.(stage := Pumping) else c
    case HangUp(_) => if InMap(c) then c.(hungUp := true) else c
    case Deliver(_, broken) => if c.stage == Pumping && c.queue != [] then Pump(c, encodable, broken) else c
    case Stop(_) => if c.stage == Pumping && c.hungUp then c.(stage := Leaving) else c
    case Remove(_) => if c.stage == Leaving && !locked then c.(stage := Removed) else c
    case Close(_) => if c.stage == Removed then c.(stage := Gone) else c
    case _ => c
  }

  function SendStep(s: Sys, p: nat, c: nat): (r: Sys)
    requires p < |s.publishers| && s.publishers[p].Sending? && c in s.publishers[p].left && c < |s.clients|
  {
    var pub := s.publishers[p];
    s.(clients := s.clients[c := if Closed(s.clients[c]) then s.clients[c] else Offer(s.clients[c], pub.ev)],
       publishers := s.publishers[p := pub.(left := pub.left - {c}, reached := pub.reached + {c})],
       panicked := s.panicked || Closed(s.clients[c]))
  }

  function PublisherStep(s: Sys, p: nat, l: Label): (r: Sys)
    requires p < |s.publishers| && (l.Begin? || l.Send? || l.End?)
  {
    var pub := s.publishers[p];
    match l
    case Begin(_, ev) =>
      if pub.Idle? then s.(publishers := s.publishers[p := Sending(ev, Registered(s.clients), {})]) else s
    case Send(_, c) =>
      if pub.Sending? && c in pub.left && c < |s.clients| then SendStep(s, p, c) else s
    case End(_) =>
      if pub.Sending? && pub.left == {} then s.(publishers := s.publishers[p := Idle]) else s
  }

  function Next(encodable: Event -> bool, s: Sys, l: Label): (r: Sys) {
    if l.Begin? || l.Send? || l.End? then
      if l.p < |s.publishers| then PublisherStep(s, l.p, l) else s
    else
      if l.c < |s.clients| then s.(clients := s.clients[l.c := ClientStep(s.clients[l.c], encodable, SomeReader(s),
          l)]) else s
  }

  function Init(clients: nat, publishers: nat): (r: Sys) {
    Sys(seq(clients, _ => NEW_CLIENT), seq(publishers, _ => Idle), false)
  }

  function Run(encodable: Event -> bool, s: Sys, labels: seq<Label>): (r: Sys) {
    if labels == [] then s else Next(encodable, Run(encodable, s, labels[..|labels| - 1]), labels[|labels| - 1])
  }

  // ---- invariant -------------------------------------------------------------------------

  /** The accepted events of a client, in order. */
  function Accepted(attempts: seq<Attempt>): (r: seq<Event>) {
    if attempts == [] then [] else (
      var front, a := Accepted(attempts[..|attempts| - 1]), attempts[|attempts| - 1];
      if a.accepted then front + [a.ev] else front)
  }

  function Dropped(attempts: seq<Attempt>): (r: nat) {
    if attempts == [] then 0 else
      Dropped(attempts[..|attempts| - 1]) + (if attempts[|attempts| - 1].accepted then 0 else 1)
  }

  function Encodable(encodable: Event -> bool, evs: seq<Event>): (r: seq<Event>) {
    if evs == [] then [] else (
      var front, ev := Encodable(encodable, evs[..|evs| - 1]), evs[|evs| - 1];
      if encodable(ev) then front + [ev] else front)
  }

  ghost predicate ClientOk(encodable: Event -> bool, c: Client) {
    && Accepted(c.attempts) == c.taken + c.queue
    && |c.queue| <= CAPACITY
    && (c.stage == New ==> c.attempts == [])
    && (c.written == Encodable(encodable, c.taken)
        || (c.stage != New && c.stage != Pumping && c.taken != []
            && c.written == Encodable(encodable, c.taken[..|c.taken| - 1])))
  }

  ghost predicate PublisherOk(clients: seq<Client>, pub: Publisher) {
    pub.Sending? ==> pub.left !! pub.reached && pub.left + pub.reached == Registered(clients)
  }

  ghost predicate Inv(encodable: Event -> bool, s: Sys) {
    && !s.panicked
    && (forall i :: 0 <= i < |s.clients| ==> ClientOk(encodable, s.clients[i]))
    && (forall p :: 0 <= p < |s.publishers| ==> PublisherOk(s.clients, s.publishers[p]))
  }

  lemma AcceptedPush(attempts: seq<Attempt>, a: Attempt)
    ensures Accepted(attempts + [a]) == Accepted(attempts) + (if a.accepted then [a.ev] else [])
  {
    assert (attempts + [a])[..|attempts|] == attempts;
  }

  lemma Requeue(taken: seq<Event>, queue: seq<Event>, ev: Event)
    ensures taken + Offered(queue, ev) == taken + queue + (if |queue| < CAPACITY then [ev] else [])
  {
  }

  lemma OfferOk(encodable: Event -> bool, c: Client, ev: Event)
    requires ClientOk(encodable, c) && InMap(c)
    ensures ClientOk(encodable, Offer(c, ev))
  {
    AcceptedPush(c.attempts, Attempt(ev, |c.queue| < CAPACITY));
    Requeue(c.taken, c.queue, ev);
  }

  lemma PumpOk(encodable: Event -> bool, c: Client, broken: bool)
    requires ClientOk(encodable, c) && c.stage == Pumping && c.queue != []
    ensures ClientOk(encodable, Pump(c, encodable, broken))
  {
    var c2 := Pump(c, encodable, broken);
    assert c2.taken[..|c.taken|] == c.taken;
    assert c.taken + c.queue == c2.taken + c2.queue;
  }

  lemma ClientStepOk(encodable: Event -> bool, c: Client, locked: bool, l: Label)
    requires ClientOk(encodable, c)
    ensures ClientOk(encodable, ClientStep(c, encodable, locked, l))
    ensures locked ==> (InMap(ClientStep(c, encodable, locked, l)) <==> InMap(c))
  {
    if l.Deliver? && c.stage == Pumping && c.queue != [] { PumpOk(encodable, c, l.broken); }
  }

  lemma RegisteredKept(clients: seq<Client>, i: nat, c: Client)
    requires i < |clients| && (InMap(c) <==> InMap(clients[i]))
    ensures Registered(clients[i := c]) == Registered(clients)
  {
  }

  lemma ClientLabelKeeps(encodable: Event -> bool, s: Sys, l: Label)
    requires Inv(encodable, s) && !(l.Begin? || l.Send? || l.End?)
    ensures Inv(encodable, Next(encodable, s, l))
  {
    if l.c < |s.clients| {
      ClientStepOk(encodable, s.clients[l.c], SomeReader(s), l);
      var c := ClientStep(s.clients[l.c], encodable, SomeReader(s), l);
      if SomeReader(s) { RegisteredKept(s.clients, l.c, c); }
      forall p | 0 <= p < |s.publishers| ensures PublisherOk(s.clients[l.c := c], s.publishers[p]) {
        assert PublisherOk(s.clients, s.publishers[p]);
      }
    }
  }

  lemma SendKeeps(encodable: Event -> bool, s: Sys, p: nat, c: nat)
    requires Inv(encodable, s)
    requires p < |s.publishers| && s.publishers[p].Sending? && c in s.publishers[p].left && c < |s.clients|
    ensures Inv(encodable, SendStep(s, p, c))
  {
    var pub, s2 := s.publishers[p], SendStep(s, p, c);
    assert PublisherOk(s.clients, pub);
    assert c in Registered(s.clients);
    OfferOk(encodable, s.clients[c], pub.ev);
    RegisteredKept(s.clients, c, s2.clients[c]);
    forall q | 0 <= q < |s2.publishers| ensures PublisherOk(s2.clients, s2.publishers[q]) {
      assert PublisherOk(s.clients, s.publishers[q]);
    }
  }

  lemma NextKeeps(encodable: Event -> bool, s: Sys, l: Label)
    requires Inv(encodable, s)
    ensures Inv(encodable, Next(encodable, s, l))
  {
    if !(l.Begin? || l.Send? || l.End?) {
      ClientLabelKeeps(encodable, s, l);
    } else if l.Send? && l.p < |s.publishers| && s.publishers[l.p].Sending? && l.c in s.publishers[l.p].left
        && l.c < |s.clients| {
      SendKeeps(encodable, s, l.p, l.c);
    }
  }

  lemma {:induction false} RunKeeps(encodable: Event -> bool, s: Sys, labels: seq<Label>)
    requires Inv(encodable, s)
    ensures Inv(encodable, Run(encodable, s, labels))
  {
    if labels != [] {
      RunKeeps(encodable, s, labels[..|labels| - 1]);
      NextKeeps(encodable, Run(encodable, s, labels[..|labels| - 1]), labels[|labels| - 1]);
    }
  }

  lemma InitOk(encodable: Event -> bool, clients: nat, publishers: nat)
    ensures Inv(encodable, Init(clients, publishers))
  {
  }

  // ---- theorems --------------------------------------------------------------------------

  function After(encodable: Event -> bool, clients: nat, publishers: nat, labels: seq<Label>): (r: Sys) {
    Run(encodable, Init(clients, publishers), labels)
  }

  /** Nothing is ever sent on a closed channel. */
  lemma NeverOnClosed(encodable: Event -> bool, clients: nat, publishers: nat, labels: seq<Label>)
    ensures !After(encodable, clients, publishers, labels).panicked
  {
    InitOk(encodable, clients, publishers);
    RunKeeps(encodable, Init(clients, publishers), labels);
  }

  lemma {:induction false} AttemptsSplit(attempts: seq<Attempt>)
    ensures |Accepted(attempts)| + Dropped(attempts) == |attempts|
  {
    if attempts != [] { AttemptsSplit(attempts[..|attempts| - 1]); }
  }

  /**
    What a client has been given and what waits for it are, in order, exactly the sends its channel
    accepted, and the rest of the sends tried are the drops; the peer has been written every
    encodable event given, in order, but for the last one when that write failed.
  */
  lemma Deliveries(encodable: Event -> bool, clients: nat, publishers: nat, labels: seq<Label>, i: nat)
    requires i < |After(encodable, clients, publishers, labels).clients|
    ensures var c := After(encodable, clients, publishers, labels).clients[i];
      && c.taken + c.queue == Accepted(c.attempts)
      && |c.queue| + |c.taken| + Dropped(c.attempts) == |c.attempts|
      && |c.queue| <= CAPACITY
      && (c.written == Encodable(encodable, c.taken)
          || (c.stage != Pumping && c.taken != [] && c.written == Encodable(encodable, c.taken[..|c.taken| - 1])))
  {
    InitOk(encodable, clients, publishers);
    RunKeeps(encodable, Init(clients, publishers), labels);
    var c := After(encodable, clients, publishers, labels).clients[i];
    assert ClientOk(encodable, c);
    AttemptsSplit(c.attempts);
  }

  /**
    A step tries at most one send to a client, and only while it is in the map; it is a drop exactly when
    the queue is full.
  */
  lemma DropsWhenFull(encodable: Event -> bool, s: Sys, l: Label, i: nat)
    requires Inv(encodable, s) && i < |s.clients|
    ensures var s2 := Next(encodable, s, l);
      && i < |s2.clients|
      && var c, c2 := s.clients[i], s2.clients[i];
      && (c2.attempts != c.attempts ==>
            && InMap(c) && l.Send? && l.c == i
            && c2.attempts == c.attempts + [Attempt(s.publishers[l.p].ev, |c.queue| < CAPACITY)])
  {
    if l.Send? && l.p < |s.publishers| { assert PublisherOk(s.clients, s.publishers[l.p]); }
  }

  /** How often publisher p has sent to client i in a run. */
  ghost function Sends(encodable: Event -> bool, s: Sys, labels: seq<Label>, p: nat, i: nat): (r: nat) {
    if labels == [] then 0 else (
      var front := labels[..|labels| - 1];
      var s1 := Run(encodable, s, front);
      Sends(encodable, s, front, p, i)
      + (if labels[|labels| - 1] == Send(p, i) && p < |s1.publishers| && s1.publishers[p].Sending?
          && i in s1.publishers[p].left
         then 1 else 0))
  }

  /** A publisher that is part of the way, having started with the map as it is now. */
  ghost predicate PartWay(s: Sys, p: nat, ev: Event, registered: set<nat>) {
    && p < |s.publishers| && s.publishers[p].Sending? && s.publishers[p].ev == ev
    && Registered(s.clients) == registered
    && s.publishers[p].left !! s.publishers[p].reached && s.publishers[p].left + s.publishers[p].reached == registered
  }

  lemma StepPartWay(encodable: Event -> bool, s: Sys, l: Label, p: nat, ev: Event, registered: set<nat>)
    requires Inv(encodable, s) && PartWay(s, p, ev, registered) && l != End(p)
    ensures PartWay(Next(encodable, s, l), p, ev, registered)
    ensures var pub, pub2 := s.publishers[p], Next(encodable, s, l).publishers[p];
      if l.Send? && l.p == p && l.c in pub.left then pub2.left == pub.left - {l.c}
          && pub2.reached == pub.reached + {l.c}
      else pub2 == pub
  {
    NextKeeps(encodable, s, l);
    var s2 := Next(encodable, s, l);
    assert SomeReader(s);
    assert PublisherOk(s2.clients, s2.publishers[p]) && PublisherOk(s.clients, s.publishers[p]);
    if !(l.Begin? || l.Send? || l.End?) && l.c < |s.clients| {
      ClientStepOk(encodable, s.clients[l.c], true, l);
      RegisteredKept(s.clients, l.c, s2.clients[l.c]);
    } else if l.Send? && l.p < |s.publishers| && s.publishers[l.p].Sending? && l.c in s.publishers[l.p].left {
      assert PublisherOk(s.clients, s.publishers[l.p]);
      assert l.c in Registered(s.clients);
      RegisteredKept(s.clients, l.c, s2.clients[l.c]);
    }
  }

  lemma {:induction false} RunPartWay(encodable: Event -> bool, s: Sys, labels: seq<Label>, p: nat, ev: Event, i: nat)
    requires Inv(encodable, s) && PartWay(s, p, ev, Registered(s.clients)) && s.publishers[p].reached == {}
    requires End(p) !in labels
    ensures var s2 := Run(encodable, s, labels);
      && Inv(encodable, s2) && PartWay(s2, p, ev, Registered(s.clients))
      && Sends(encodable, s, labels, p, i) == (if i in s2.publishers[p].reached then 1 else 0)
  {
    if labels != [] {
      var front, l := labels[..|labels| - 1], labels[|labels| - 1];
      RunPartWay(encodable, s, front, p, ev, i);
      var s1 := Run(encodable, s, front);
      NextKeeps(encodable, s1, l);
      StepPartWay(encodable, s1, l, p, ev, Registered(s.clients));
    }
  }

  /**
    A whole publish, whatever else goes on meanwhile: nobody joins or leaves the map, and when
    nothing is left to send, each client that was in the map has been sent to exactly once and no
    other has been sent to at all.
  */
  lemma WholePublish(encodable: Event -> bool, s: Sys, p: nat, ev: Event, mid: seq<Label>, i: nat)
    requires Inv(encodable, s) && p < |s.publishers| && s.publishers[p].Idle?
    requires End(p) !in mid && i < |s.clients|
    ensures var s1 := Next(encodable, s, Begin(p, ev));
      var s2 := Run(encodable, s1, mid);
      && p < |s2.publishers| && s2.publishers[p].Sending? && Registered(s2.clients) == Registered(s.clients)
      && (s2.publishers[p].left == {} ==>
            Sends(encodable, s1, mid, p, i) == (if InMap(s.clients[i]) then 1 else 0))
  {
    var s1 := Next(encodable, s, Begin(p, ev));
    NextKeeps(encodable, s, Begin(p, ev));
    RunPartWay(encodable, s1, mid, p, ev, i);
    assert i in Registered(s.clients) <==> InMap(s.clients[i]);
  }

  /**
    Publishing never blocks: while clients are left, sending to any one of them is a step, and there is one
    less left after it.
  */
  lemma PublishGoesOn(encodable: Event -> bool, s: Sys, p: nat, c: nat)
    requires Inv(encodable, s) && p < |s.publishers| && s.publishers[p].Sending? && c in s.publishers[p].left
    ensures var s2 := Next(encodable, s, Send(p, c));
      && s2.publishers[p] == s.publishers[p].(left := s.publishers[p].left - {c},
          reached := s.publishers[p].reached + {c})
      && |s2.publishers[p].left| == |s.publishers[p].left| - 1
      && c < |s.clients| && s2.clients[c] == Offer(s.clients[c], s.publishers[p].ev)
  {
    assert PublisherOk(s.clients, s.publishers[p]);
    assert c in Registered(s.clients);
    SendKeeps(encodable, s, p, c);
    assert ClientOk(encodable, s.clients[c]);
  }

  // ---- the hub ---------------------------------------------------------------------------

  class Channel {
    var queue: seq<Event>
    var closed: bool

    constructor ()
      ensures queue == [] && !closed
    {
      queue, closed := [], false;
    }

    method TrySend(ev: Event) returns (ok: bool)
      requires !closed
      modifies this`queue
      ensures queue == Offered(old(queue), ev) && (ok <==> |old(queue)| < CAPACITY)
    {
      ok := |queue| < CAPACITY;
      if ok { queue := queue + [ev]; }
    }

    method Receive() returns (ev: Event)
      requires queue != []
      modifies this`queue
      ensures [ev] + queue == old(queue)
    {
      ev := queue[0];
      queue := queue[1..];
    }

    method CloseIt()
      requires !closed
      modifies this`closed
      ensures closed
    {
      closed := true;
    }
  }

  class Hub {
    var clients: map<nat, Channel>

    /** The channels in the map are open, and no two clients share one. */
    ghost predicate Valid()
      reads this, clients.Values
    {
      && (forall c :: c in clients ==> !clients[c].closed)
      && (forall c, d :: c in clients && d in clients && c != d ==> clients[c] != clients[d])
    }

    /** What waits for each client. */
    ghost function Waiting(): (r: map<nat, seq<Event>>)
      reads this, clients.Values
    {
      map c | c in clients :: clients[c].queue
    }

    constructor ()
      ensures Valid() && clients == map[]
    {
      clients := map[];
    }

    /** Every client's channel is offered the event once, in whatever order. */
    method Publish(ev: Event)
      requires Valid()
      modifies clients.Values
      ensures Valid() && clients == old(clients)
      ensures forall c :: c in clients ==> Waiting()[c] == Offered(old(Waiting())[c], ev)
    {
      var left := clients.Keys;
      while left != {}
        invariant left <= clients.Keys && clients == old(clients) && Valid()
        invariant forall c :: c in clients ==>
          clients[c].queue == if c in left then old(clients[c].queue) else Offered(old(clients[c].queue), ev)
        decreases |left|
      {
        var c :| c in left;  // the order of a map is not determined
        var _ := clients[c].TrySend(ev);
        left := left - {c};
      }
    }

    /** The handler's registration, with a channel of its own. */
    method Register(c: nat) returns (ch: Channel)
      requires Valid() && c !in clients
      modifies this
      ensures Valid() && fresh(ch) && clients == old(clients)[c := ch]
      ensures Waiting() == old(Waiting())[c := []]
    {
      ch := new Channel();
      clients := clients[c := ch];
    }

    /** The deferred function: out of the map first, then closed. */
    method Unregister(c: nat)
      requires Valid() && c in clients
      modifies this, clients[c]
      ensures Valid() && clients == old(clients) - {c} && old(clients[c]).closed
      ensures Waiting() == old(Waiting()) - {c}
    {
      var ch := clients[c];
      clients := clients - {c};
      ch.CloseIt();
    }

    /** The pump takes the first event that waits for its client. */
    method TakeNext(c: nat) returns (ev: Event)
      requires Valid() && c in clients && Waiting()[c] != []
      modifies clients[c]
      ensures Valid() && clients == old(clients)
      ensures [ev] + Waiting()[c] == old(Waiting())[c]
      ensures forall d :: d in clients && d != c ==> Waiting()[d] == old(Waiting())[d]
    {
      ev := clients[c].Receive();
    }

    method ClientCount() returns (n: nat)
      ensures n == |clients.Keys|
    {
      n := |clients|;
    }
  }
}
