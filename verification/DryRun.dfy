/**
  The tool loop of internal/agent/client.go: runDiagnosis with its bounded conversation and its
  concurrent tool calls, and the dry run's interception of write tools.

  The model is any function from the conversation so far to a reply; the goroutines of a round
  run in any interleaving; the context may end at any moment.
*/
module DryRun {
  import opened Basics
  import opened AgentTools

  // ---- conversation ----------------------------------------------------------------------

  /** The input of a tool call: its text, and the string under "resource_id" if there is one. */
  datatype Input = Input(raw: string, resourceId: Option<string>)

  datatype ToolUse = ToolUse(id: string, name: string, input: Input)
  datatype Block = Text(text: string) | Use(use: ToolUse)

  /** The JSON or error text given back for a call. */
  datatype Content = NotImplemented(tool: string) | DryRunCaptured(tool: string) | NotAllowed(tool: string)
  datatype ToolResult = ToolResult(id: string, content: Content, isError: bool)

  datatype Message = User(prompt: string) | Assistant(blocks: seq<Block>) | Results(results: seq<ToolResult>)

  datatype Reply = ApiError | Reply(blocks: seq<Block>)
  type Model = seq<Message> -> Reply

  function ToolUses(blocks: seq<Block>): (r: seq<ToolUse>) {
    if blocks == [] then [] else (
      var front, b := ToolUses(blocks[..|blocks| - 1]), blocks[|blocks| - 1];
      if b.Use? then front + [b.use] else front)
  }

  /** The text blocks, joined with a newline once there is some text. */
  function TextOf(blocks: seq<Block>): (r: string) {
    if blocks == [] then "" else (
      var front, b := TextOf(blocks[..|blocks| - 1]), blocks[|blocks| - 1];
      if b.Text? then (if front != "" then front + "\n" + b.text else b.text) else front)
  }

  // ---- one tool call ---------------------------------------------------------------------

  datatype PlannedAction = PlannedAction(
    tool: string, command: string, target: string, risk: string, rollback: string, preconditions: seq<string>)

  /** The bookkeeping that the goroutines share under the mutex. */
  datatype Book = Book(planned: seq<PlannedAction>, blocked: seq<string>, observed: seq<string>)

  const NO_BOOK := Book([], [], [])

  predicate IsSpace(c: char) {
    c == ' ' || c == '\t' || c == '\n' || c == '\r'
  }

  function TrimLeft(s: string): (r: string) {
    if s != "" && IsSpace(s[0]) then TrimLeft(s[1..]) else s
  }

  function TrimSpace(s: string): (r: string)
    decreases |s|
  {
    if s == "" then s
    else if IsSpace(s[|s| - 1]) then TrimSpace(s[..|s| - 1])
    else TrimLeft(s)
  }

  function Command(input: Input): (r: string) {
    var c := TrimSpace(input.raw);
    if c == "" || c == "null" then "{}" else c
  }

  function BuildPlannedAction(tool: Tool, use: ToolUse, preconditions: seq<string>): (r: PlannedAction) {
    PlannedAction(use.name, Command(use.input), if use.input.resourceId.Some? then use.input.resourceId.value else "",
                  tool.risk, tool.rollback, preconditions)
  }

  function ReadOf(name: string): (r: string) { name + " called" }

  function Reason(name: string): (r: string) { "tool " + name + " not in WRITE_TOOLS whitelist" }

  predicate Permitted(dryRun: bool, name: string) {
    IsAllowed(name) || (dryRun && GetWriteTool(name).Some?)
  }

  /** The locked section of one call: log the read, record the write, or note the refusal once. */
  function Enter(dryRun: bool, b: Book, use: ToolUse): (r: Book) {
    if !dryRun then b
    else if IsAllowed(use.name) then b.(observed := b.observed + [ReadOf(use.name)])
    else (
      var tool := GetWriteTool(use.name);
      if tool.Some? then b.(planned := b.planned + [BuildPlannedAction(tool.value, use, b.observed)])
      else if Reason(use.name) in b.blocked then b
      else b.(blocked := b.blocked + [Reason(use.name)]))
  }

  function ResultOf(dryRun: bool, use: ToolUse): (r: ToolResult) {
    if IsAllowed(use.name) then ToolResult(use.id, NotImplemented(use.name), false)
    else if dryRun && GetWriteTool(use.name).Some? then ToolResult(use.id, DryRunCaptured(use.name), false)
    else ToolResult(use.id, NotAllowed(use.name), true)
  }

  /** Calls entering one after the other. */
  function Play(dryRun: bool, b: Book, uses: seq<ToolUse>): (r: Book) {
    if uses == [] then b else Enter(dryRun, Play(dryRun, b, uses[..|uses| - 1]), uses[|uses| - 1])
  }

  // ---- what the bookkeeping records ------------------------------------------------------

  /** A planned action without what it had seen. */
  function Strip(p: PlannedAction): (r: PlannedAction) { p.(preconditions := []) }

  function Stripped(ps: seq<PlannedAction>): (r: seq<PlannedAction>) {
    seq(|ps|, i requires 0 <= i < |ps| => Strip(ps[i]))
  }

  predicate IsWrite(use: ToolUse) { !IsAllowed(use.name) && GetWriteTool(use.name).Some? }

  predicate IsRefused(use: ToolUse) { !IsAllowed(use.name) && GetWriteTool(use.name).None? }

  /** The actions that the write calls among uses stand for, in order. */
  function Captures(uses: seq<ToolUse>): (r: seq<PlannedAction>) {
    if uses == [] then [] else (
      var front, u := Captures(uses[..|uses| - 1]), uses[|uses| - 1];
      if IsWrite(u) then front + [BuildPlannedAction(GetWriteTool(u.name).value, u, [])] else front)
  }

  function ReadsOf(uses: seq<ToolUse>): (r: seq<string>) {
    if uses == [] then [] else (
      var front, u := ReadsOf(uses[..|uses| - 1]), uses[|uses| - 1];
      if IsAllowed(u.name) then front + [ReadOf(u.name)] else front)
  }

  lemma EnterRecords(b: Book, u: ToolUse)
    ensures var b2 := Enter(true, b, u);
      && Stripped(b2.planned) == Stripped(b.planned)
           + (if IsWrite(u) then [BuildPlannedAction(GetWriteTool(u.name).value, u, [])] else [])
      && b2.observed == b.observed + (if IsAllowed(u.name) then [ReadOf(u.name)] else [])
  {
  }

  /** Played in any order, the plan is the write calls and the log is the reads, in that order. */
  lemma {:induction false} PlayRecords(b: Book, uses: seq<ToolUse>)
    ensures var b2 := Play(true, b, uses);
      && Stripped(b2.planned) == Stripped(b.planned) + Captures(uses)
      && b2.observed == b.observed + ReadsOf(uses)
  {
    if uses != [] {
      var front, u := uses[..|uses| - 1], uses[|uses| - 1];
      PlayRecords(b, front);
      EnterRecords(Play(true, b, front), u);
    }
  }

  lemma ReasonInjective(a: string, b: string)
    requires Reason(a) == Reason(b)
    ensures a == b
  {
    var n := |" not in WRITE_TOOLS whitelist"|;
    assert |a| == |b|;
    assert Reason(a)[5..5 + |a|] == a;
    assert Reason(b)[5..5 + |b|] == b;
  }

  ghost predicate Refused(uses: seq<ToolUse>, name: string) {
    exists i :: 0 <= i < |uses| && uses[i].name == name && IsRefused(uses[i])
  }

  /** The blocked list names each tool outside both whitelists that was called, once, and nothing else. */
  ghost predicate BlockedExactly(blocked: seq<string>, uses: seq<ToolUse>) {
    && NoRepeats(blocked)
    && (forall r :: r in blocked ==> exists name :: r == Reason(name))
    && (forall name :: Reason(name) in blocked <==> Refused(uses, name))
  }

  lemma RefusedExtend(front: seq<ToolUse>, u: ToolUse, name: string)
    ensures Refused(front + [u], name) <==> Refused(front, name) || (u.name == name && IsRefused(u))
  {
    var uses := front + [u];
    if Refused(front, name) {
      var i :| 0 <= i < |front| && front[i].name == name && IsRefused(front[i]);
      assert uses[i] == front[i];
    }
    if u.name == name && IsRefused(u) { assert uses[|front|] == u; }
    if Refused(uses, name) {
      var i :| 0 <= i < |uses| && uses[i].name == name && IsRefused(uses[i]);
      if i < |front| { assert front[i] == uses[i]; }
    }
  }

  lemma EnterBlocksName(b: Book, front: seq<ToolUse>, u: ToolUse, name: string)
    requires Reason(name) in b.blocked <==> Refused(front, name)
    ensures Reason(name) in Enter(true, b, u).blocked <==> Refused(front + [u], name)
  {
    RefusedExtend(front, u, name);
    if Reason(name) == Reason(u.name) { ReasonInjective(name, u.name); }
  }

  lemma EnterBlocks(b: Book, front: seq<ToolUse>, u: ToolUse)
    requires BlockedExactly(b.blocked, front)
    ensures BlockedExactly(Enter(true, b, u).blocked, front + [u])
  {
    var blocked := Enter(true, b, u).blocked;
    assert blocked == b.blocked || blocked == b.blocked + [Reason(u.name)];
    forall name ensures Reason(name) in blocked <==> Refused(front + [u], name) {
      EnterBlocksName(b, front, u, name);
    }
  }

  lemma NothingBlocked()
    ensures BlockedExactly([], [])
  {
  }

  lemma {:induction false} PlayBlocks(uses: seq<ToolUse>)
    ensures BlockedExactly(Play(true, NO_BOOK, uses).blocked, uses)
  {
    if uses == [] {
      NothingBlocked();
    } else {
      var front, u := uses[..|uses| - 1], uses[|uses| - 1];
      PlayBlocks(front);
      PlayBlocksStep(front, u);
      assert uses == front + [u];
    }
  }

  lemma PlayBlocksStep(front: seq<ToolUse>, u: ToolUse)
    requires BlockedExactly(Play(true, NO_BOOK, front).blocked, front)
    ensures BlockedExactly(Play(true, NO_BOOK, front + [u]).blocked, front + [u])
  {
    EnterBlocks(Play(true, NO_BOOK, front), front, u);
    assert (front + [u])[..|front|] == front;
  }

  /**
    Every action recorded by uses has seen all the reads logged before them, and nothing that is
    not in the log afterwards.
  */
  ghost predicate SeenBetween(b: Book, b2: Book) {
    && b.planned <= b2.planned && b.observed <= b2.observed
    && forall i :: |b.planned| <= i < |b2.planned| ==>
         b.observed <= b2.planned[i].preconditions <= b2.observed
  }

  lemma {:induction false} PlaySees(dryRun: bool, b: Book, uses: seq<ToolUse>)
    ensures SeenBetween(b, Play(dryRun, b, uses))
  {
    if uses != [] {
      PlaySees(dryRun, b, uses[..|uses| - 1]);
    }
  }

  // ---- goroutines ------------------------------------------------------------------------

  /** A goroutine: not begun, past its locked section, done, or ended by the context. */
  datatype Stage = Ready | Entered | Finished | Cancelled

  function StepsOf(st: Stage): (r: nat) {
    if st == Ready then 2 else if st == Entered then 1 else 0
  }

  function StepsLeft(stages: seq<Stage>): (r: nat) {
    if stages == [] then 0 else StepsLeft(stages[..|stages| - 1]) + StepsOf(stages[|stages| - 1])
  }

  lemma {:induction false} StepsUpdate(stages: seq<Stage>, i: nat, st: Stage)
    requires i < |stages|
    ensures StepsLeft(stages[i := st]) + StepsOf(stages[i]) == StepsLeft(stages) + StepsOf(st)
  {
    var front := stages[..|stages| - 1];
    if i < |front| {
      StepsUpdate(front, i, st);
      assert stages[i := st][..|stages| - 1] == front[i := st];
    } else {
      assert stages[i := st][..|stages| - 1] == front;
    }
  }

  lemma {:induction false} SomeStepLeft(stages: seq<Stage>)
    requires StepsLeft(stages) > 0
    ensures exists i :: 0 <= i < |stages| && StepsOf(stages[i]) > 0
  {
    if StepsOf(stages[|stages| - 1]) == 0 {
      SomeStepLeft(stages[..|stages| - 1]);
      var i :| 0 <= i < |stages| - 1 && StepsOf(stages[..|stages| - 1][i]) > 0;
      assert StepsOf(stages[i]) > 0;
    }
  }

  /** The calls whose goroutine is in the given stage class, as a multiset. */
  function Pending(uses: seq<ToolUse>, stages: seq<Stage>): (r: multiset<ToolUse>)
    requires |stages| == |uses|
  {
    if uses == [] then multiset{} else
      Pending(uses[..|uses| - 1], stages[..|uses| - 1])
      + (if stages[|uses| - 1] == Ready then multiset{uses[|uses| - 1]} else multiset{})
  }

  lemma {:induction false} PendingUpdate(uses: seq<ToolUse>, stages: seq<Stage>, i: nat, st: Stage)
    requires |stages| == |uses| && i < |uses| && st != Ready
    ensures Pending(uses, stages) ==
      Pending(uses, stages[i := st]) + (if stages[i] == Ready then multiset{uses[i]} else multiset{})
  {
    var n := |uses| - 1;
    if i < n {
      PendingUpdate(uses[..n], stages[..n], i, st);
      assert stages[i := st][..n] == stages[..n][i := st];
    } else {
      assert stages[i := st][..n] == stages[..n];
    }
  }

  lemma {:induction false} PendingAll(uses: seq<ToolUse>, stages: seq<Stage>)
    requires |stages| == |uses| && forall i :: 0 <= i < |stages| ==> stages[i] == Ready
    ensures Pending(uses, stages) == multiset(uses)
  {
    if uses != [] {
      var n := |uses| - 1;
      PendingAll(uses[..n], stages[..n]);
      assert uses == uses[..n] + [uses[n]];
    }
  }

  lemma {:induction false} PendingNone(uses: seq<ToolUse>, stages: seq<Stage>)
    requires |stages| == |uses| && forall i :: 0 <= i < |stages| ==> stages[i] != Ready
    ensures Pending(uses, stages) == multiset{}
  {
    if uses != [] {
      PendingNone(uses[..|uses| - 1], stages[..|uses| - 1]);
    }
  }

  lemma {:induction false} NoStepLeft(stages: seq<Stage>)
    requires StepsLeft(stages) == 0
    ensures forall i :: 0 <= i < |stages| ==> stages[i] == Finished || stages[i] == Cancelled
  {
    if stages != [] {
      NoStepLeft(stages[..|stages| - 1]);
      forall i | 0 <= i < |stages| ensures stages[i] == Finished || stages[i] == Cancelled {
        if i < |stages| - 1 { assert stages[..|stages| - 1][i] == stages[i]; }
      }
    }
  }

  /** Whether the context has ended by its n-th check. */
  type ContextDone = nat -> bool

  const NO_RESULT := ToolResult("", NotImplemented(""), false)

  /**
    A round under way.  entered and skipped are history: the calls in the order in which they
    took the mutex, and those that the context ended.
  */
  datatype Round = Round(
    stages: seq<Stage>, results: seq<ToolResult>, book: Book, failed: bool,
    entered: seq<ToolUse>, skipped: multiset<ToolUse>)

  function StartRound(uses: seq<ToolUse>, b: Book): (r: Round) {
    Round(seq(|uses|, _ => Ready), seq(|uses|, _ => NO_RESULT), b, false, [], multiset{})
  }

  /** The next step of goroutine i. */
  function StepRound(dryRun: bool, uses: seq<ToolUse>, t: Round, i: nat, done: bool): (r: Round)
    requires |t.stages| == |t.results| == |uses| && i < |uses|
  {
    if t.stages[i] == Ready then
      if done then t.(stages := t.stages[i := Cancelled], failed := true, skipped := t.skipped + multiset{uses[i]})
      else t.(stages := t.stages[i := Entered], book := Enter(dryRun, t.book, uses[i]),
          entered := t.entered + [uses[i]])
    else if t.stages[i] == Entered then
      t.(stages := t.stages[i := Finished], results := t.results[i := ResultOf(dryRun, uses[i])])
    else t
  }

  ghost predicate RoundOk(dryRun: bool, uses: seq<ToolUse>, b: Book, t: Round) {
    && |t.stages| == |t.results| == |uses|
    && (forall i :: 0 <= i < |uses| && t.stages[i] == Finished ==> t.results[i] == ResultOf(dryRun, uses[i]))
    && t.book == Play(dryRun, b, t.entered)
    && multiset(t.entered) + t.skipped + Pending(uses, t.stages) == multiset(uses)
    && (!t.failed ==> t.skipped == multiset{} && forall i :: 0 <= i < |uses| ==> t.stages[i] != Cancelled)
  }

  lemma StartRoundOk(dryRun: bool, uses: seq<ToolUse>, b: Book)
    ensures RoundOk(dryRun, uses, b, StartRound(uses, b))
  {
    PendingAll(uses, StartRound(uses, b).stages);
  }

  lemma CancelOk(dryRun: bool, uses: seq<ToolUse>, b: Book, t: Round, i: nat)
    requires RoundOk(dryRun, uses, b, t) && i < |uses| && t.stages[i] == Ready
    ensures RoundOk(dryRun, uses, b, StepRound(dryRun, uses, t, i, true))
  {
    PendingUpdate(uses, t.stages, i, Cancelled);
  }

  lemma EnterOk(dryRun: bool, uses: seq<ToolUse>, b: Book, t: Round, i: nat)
    requires RoundOk(dryRun, uses, b, t) && i < |uses| && t.stages[i] == Ready
    ensures RoundOk(dryRun, uses, b, StepRound(dryRun, uses, t, i, false))
  {
    var t2 := StepRound(dryRun, uses, t, i, false);
    PendingUpdate(uses, t.stages, i, Entered);
    assert t2.entered[..|t.entered|] == t.entered;
    assert multiset(t2.entered) == multiset(t.entered) + multiset{uses[i]};
  }

  lemma FinishOk(dryRun: bool, uses: seq<ToolUse>, b: Book, t: Round, i: nat, done: bool)
    requires RoundOk(dryRun, uses, b, t) && i < |uses| && t.stages[i] == Entered
    ensures RoundOk(dryRun, uses, b, StepRound(dryRun, uses, t, i, done))
  {
    PendingUpdate(uses, t.stages, i, Finished);
  }

  lemma StepRoundOk(dryRun: bool, uses: seq<ToolUse>, b: Book, t: Round, i: nat, done: bool)
    requires RoundOk(dryRun, uses, b, t) && i < |uses| && StepsOf(t.stages[i]) > 0
    ensures RoundOk(dryRun, uses, b, StepRound(dryRun, uses, t, i, done))
    ensures StepsLeft(StepRound(dryRun, uses, t, i, done).stages) < StepsLeft(t.stages)
  {
    StepsUpdate(t.stages, i, StepRound(dryRun, uses, t, i, done).stages[i]);
    if t.stages[i] == Entered {
      FinishOk(dryRun, uses, b, t, i, done);
    } else if done {
      CancelOk(dryRun, uses, b, t, i);
    } else {
      EnterOk(dryRun, uses, b, t, i);
    }
  }

  lemma RoundDone(dryRun: bool, uses: seq<ToolUse>, b: Book, t: Round)
    requires RoundOk(dryRun, uses, b, t) && StepsLeft(t.stages) == 0
    ensures multiset(t.entered) <= multiset(uses)
    ensures !t.failed ==> multiset(t.entered) == multiset(uses)
    ensures !t.failed ==> forall i :: 0 <= i < |uses| ==> t.results[i] == ResultOf(dryRun, uses[i])
  {
    NoStepLeft(t.stages);
    PendingNone(uses, t.stages);
  }

  /** One round: a goroutine per call, in any interleaving, until the group's Wait returns. */
  method RunTools(dryRun: bool, uses: seq<ToolUse>, b: Book, done: ContextDone, checks: nat)
    returns (b2: Book, results: seq<ToolResult>, failed: bool, checks2: nat, ghost entered: seq<ToolUse>)
    ensures b2 == Play(dryRun, b, entered)
    ensures multiset(entered) <= multiset(uses)
    ensures !failed ==> multiset(entered) == multiset(uses)
    ensures !failed ==> |results| == |uses| && forall i :: 0 <= i < |uses| ==> results[i] == ResultOf(dryRun, uses[i])
    ensures (forall n :: !done(n)) ==> !failed
  {
    var t := StartRound(uses, b);
    StartRoundOk(dryRun, uses, b);
    checks2 := checks;
    while StepsLeft(t.stages) > 0
      invariant RoundOk(dryRun, uses, b, t)
      invariant t.failed ==> exists n :: done(n)
      decreases StepsLeft(t.stages)
    {
      SomeStepLeft(t.stages);
      var i :| 0 <= i < |t.stages| && StepsOf(t.stages[i]) > 0;  // the scheduler's choice
      StepRoundOk(dryRun, uses, b, t, i, done(checks2));
      t := StepRound(dryRun, uses, t, i, done(checks2));
      checks2 := checks2 + 1;
    }
    RoundDone(dryRun, uses, b, t);
    b2, results, failed, entered := t.book, t.results, t.failed, t.entered;
  }

  // ---- the conversation ------------------------------------------------------------------

  const MAX_TOOL_ITERATIONS := 5

  datatype Outcome = Diagnosed(diagnosis: string) | InferenceFailed | Truncated

  /** parseDiagnosis: the diagnosis in a final text, if it is one. */
  type Parse = string -> Option<string>

  /**
    A tool-result turn answers the calls of the turn before it, by ID and in order, flagging exactly the
    forbidden ones.
  */
  ghost predicate Answers(dryRun: bool, results: seq<ToolResult>, uses: seq<ToolUse>) {
    && |results| == |uses|
    && forall i :: 0 <= i < |uses| ==>
         results[i].id == uses[i].id && (results[i].isError <==> !Permitted(dryRun, uses[i].name))
  }

  /** The message at index k is as the protocol wants it. */
  ghost predicate TurnOk(model: Model, dryRun: bool, prompt: string, msgs: seq<Message>, k: nat)
    requires k < |msgs|
  {
    if k == 0 then msgs[k] == User(prompt)
    else if k % 2 == 1 then msgs[k].Assistant? && model(msgs[..k]) == Reply(msgs[k].blocks)
    else
      && msgs[k].Results? && msgs[k - 1].Assistant?
      && ToolUses(msgs[k - 1].blocks) != []
      && Answers(dryRun, msgs[k].results, ToolUses(msgs[k - 1].blocks))
  }

  ghost predicate WellFormed(model: Model, dryRun: bool, prompt: string, msgs: seq<Message>) {
    forall k :: 0 <= k < |msgs| ==> TurnOk(model, dryRun, prompt, msgs, k)
  }

  lemma WellFormedExtend(model: Model, dryRun: bool, prompt: string, msgs: seq<Message>, m: Message)
    requires WellFormed(model, dryRun, prompt, msgs) && TurnOk(model, dryRun, prompt, msgs + [m], |msgs|)
    ensures WellFormed(model, dryRun, prompt, msgs + [m])
  {
    forall k | 0 <= k < |msgs| + 1 ensures TurnOk(model, dryRun, prompt, msgs + [m], k) {
      if k < |msgs| {
        assert TurnOk(model, dryRun, prompt, msgs, k);
        assert (msgs + [m])[..k] == msgs[..k];
      }
    }
  }

  lemma ResultsAnswer(dryRun: bool, results: seq<ToolResult>, uses: seq<ToolUse>)
    requires |results| == |uses| && forall i :: 0 <= i < |uses| ==> results[i] == ResultOf(dryRun, uses[i])
    ensures Answers(dryRun, results, uses)
  {
  }

  /** The calls of the i-th assistant turn. */
  function RoundCalls(msgs: seq<Message>, i: nat): (r: seq<ToolUse>) {
    if 2 * i + 1 < |msgs| && msgs[2 * i + 1].Assistant? then ToolUses(msgs[2 * i + 1].blocks) else []
  }

  /** Rounds played one after the other, each in its own order. */
  function PlayRounds(dryRun: bool, rounds: seq<seq<ToolUse>>): (r: Book) {
    if rounds == [] then NO_BOOK else Play(dryRun, PlayRounds(dryRun, rounds[..|rounds| - 1]), rounds[|rounds| - 1])
  }

  /** The i-th round entered calls of the i-th assistant turn: all of them, if it did not fail. */
  ghost predicate RoundsMatch(msgs: seq<Message>, rounds: seq<seq<ToolUse>>, failed: bool) {
    forall i :: 0 <= i < |rounds| ==>
      && multiset(rounds[i]) <= multiset(RoundCalls(msgs, i))
      && (!failed || i < |rounds| - 1 ==> multiset(rounds[i]) == multiset(RoundCalls(msgs, i)))
  }

  lemma RoundsMatchExtend(msgs: seq<Message>, rounds: seq<seq<ToolUse>>, round: seq<ToolUse>, failed: bool)
    requires RoundsMatch(msgs, rounds, false)
    requires multiset(round) <= multiset(RoundCalls(msgs, |rounds|))
    requires !failed ==> multiset(round) == multiset(RoundCalls(msgs, |rounds|))
    ensures RoundsMatch(msgs, rounds + [round], failed)
  {
    var all := rounds + [round];
    forall i | 0 <= i < |all|
      ensures multiset(all[i]) <= multiset(RoundCalls(msgs, i))
      ensures !failed || i < |all| - 1 ==> multiset(all[i]) == multiset(RoundCalls(msgs, i))
    {
      if i < |rounds| { assert all[i] == rounds[i]; }
    }
  }

  lemma RoundsMatchMore(msgs: seq<Message>, more: seq<Message>, rounds: seq<seq<ToolUse>>)
    requires RoundsMatch(msgs, rounds, false) && msgs <= more && |msgs| >= 2 * |rounds|
    ensures RoundsMatch(more, rounds, false)
  {
    forall i | 0 <= i < |rounds| ensures RoundCalls(more, i) == RoundCalls(msgs, i) {
      assert more[2 * i + 1] == msgs[2 * i + 1];
    }
  }

  /** The conversation and the bookkeeping after some answered rounds, with `extra` messages of the next one. */
  ghost predicate ChatOk(model: Model, dryRun: bool, prompt: string, msgs: seq<Message>, book: Book,
                         rounds: seq<seq<ToolUse>>, extra: nat) {
    && |msgs| == 2 * |rounds| + 1 + extra
    && WellFormed(model, dryRun, prompt, msgs)
    && book == PlayRounds(dryRun, rounds)
    && RoundsMatch(msgs, rounds, false)
  }

  /** The model's turn. */
  lemma ReplyKeeps(model: Model, dryRun: bool, prompt: string, msgs: seq<Message>, book: Book,
                   rounds: seq<seq<ToolUse>>, blocks: seq<Block>)
    requires ChatOk(model, dryRun, prompt, msgs, book, rounds, 0) && model(msgs) == Reply(blocks)
    ensures ChatOk(model, dryRun, prompt, msgs + [Assistant(blocks)], book, rounds, 1)
    ensures RoundCalls(msgs + [Assistant(blocks)], |rounds|) == ToolUses(blocks)
  {
    assert (msgs + [Assistant(blocks)])[..|msgs|] == msgs;
    WellFormedExtend(model, dryRun, prompt, msgs, Assistant(blocks));
    RoundsMatchMore(msgs, msgs + [Assistant(blocks)], rounds);
  }

  /** The tools' turn, answered or cut short by the context. */
  lemma AnswerKeeps(model: Model, dryRun: bool, prompt: string, msgs: seq<Message>, book: Book,
                    rounds: seq<seq<ToolUse>>, book2: Book, results: seq<ToolResult>, bad: bool, entered: seq<ToolUse>)
    requires ChatOk(model, dryRun, prompt, msgs, book, rounds, 1)
    requires var uses := RoundCalls(msgs, |rounds|);
      && uses != [] && book2 == Play(dryRun, book, entered) && multiset(entered) <= multiset(uses)
      && (!bad ==> multiset(entered) == multiset(uses) && |results| == |uses|
                   && forall i :: 0 <= i < |uses| ==> results[i] == ResultOf(dryRun, uses[i]))
    ensures book2 == PlayRounds(dryRun, rounds + [entered]) && RoundsMatch(msgs, rounds + [entered], bad)
    ensures !bad ==> ChatOk(model, dryRun, prompt, msgs + [Results(results)], book2, rounds + [entered], 0)
  {
    assert (rounds + [entered])[..|rounds|] == rounds;
    RoundsMatchExtend(msgs, rounds, entered, bad);
    if !bad {
      AnswerWellFormed(model, dryRun, prompt, msgs, |rounds|, results);
      RoundsMatchMore(msgs, msgs + [Results(results)], rounds + [entered]);
    }
  }

  lemma AnswerWellFormed(model: Model, dryRun: bool, prompt: string, msgs: seq<Message>, n: nat,
                         results: seq<ToolResult>)
    requires WellFormed(model, dryRun, prompt, msgs) && |msgs| == 2 * n + 2
    requires var uses := RoundCalls(msgs, n);
      uses != [] && |results| == |uses| && forall i :: 0 <= i < |uses| ==> results[i] == ResultOf(dryRun, uses[i])
    ensures WellFormed(model, dryRun, prompt, msgs + [Results(results)])
  {
    ResultsAnswer(dryRun, results, RoundCalls(msgs, n));
    var more := msgs + [Results(results)];
    assert more[|msgs|] == Results(results) && more[|msgs| - 1] == msgs[2 * n + 1];
    WellFormedExtend(model, dryRun, prompt, msgs, Results(results));
  }

  /** A round after the model's turn: run its calls and, unless the context ended one, append their results. */
  method RunRound(model: Model, dryRun: bool, prompt: string, msgs: seq<Message>, book: Book, done: ContextDone,
                  checks: nat, ghost rounds: seq<seq<ToolUse>>)
    returns (msgs2: seq<Message>, book2: Book, bad: bool, checks2: nat, ghost rounds2: seq<seq<ToolUse>>)
    requires ChatOk(model, dryRun, prompt, msgs, book, rounds, 1) && RoundCalls(msgs, |rounds|) != []
    ensures |rounds2| == |rounds| + 1
    ensures !bad ==> ChatOk(model, dryRun, prompt, msgs2, book2, rounds2, 0)
    ensures bad ==> msgs2 == msgs && book2 == PlayRounds(dryRun, rounds2) && RoundsMatch(msgs, rounds2, true)
    ensures (forall n :: !done(n)) ==> !bad
  {
    var last := msgs[|msgs| - 1];
    assert 2 * |rounds| + 1 == |msgs| - 1;
    var results;
    ghost var entered;
    book2, results, bad, checks2, entered := RunTools(dryRun, ToolUses(last.blocks), book, done, checks);
    AnswerKeeps(model, dryRun, prompt, msgs, book, rounds, book2, results, bad, entered);
    rounds2 := rounds + [entered];
    msgs2 := if bad then msgs else msgs + [Results(results)];
  }

  /** What a run leaves behind, however it ends. */
  ghost predicate Record(model: Model, dryRun: bool, prompt: string, book: Book, msgs: seq<Message>,
                         rounds: seq<seq<ToolUse>>, failed: bool) {
    && |msgs| > 0 && WellFormed(model, dryRun, prompt, msgs)
    && book == PlayRounds(dryRun, rounds) && RoundsMatch(msgs, rounds, failed)
    && forall i :: |rounds| <= i ==> RoundCalls(msgs, i) == []
  }

  lemma ChatRecord(model: Model, dryRun: bool, prompt: string, msgs: seq<Message>, book: Book,
                   rounds: seq<seq<ToolUse>>, extra: nat)
    requires ChatOk(model, dryRun, prompt, msgs, book, rounds, extra)
    requires extra == 0 || (extra == 1 && RoundCalls(msgs, |rounds|) == [])
    ensures Record(model, dryRun, prompt, book, msgs, rounds, false)
  {
  }

  /**
    The loop.  It calls the model at most five times; the conversation it keeps is well formed;
    and its bookkeeping is the calls of the answered rounds (and, when a round fails, some of that
    round's) played in some order within each round.
  */
  method RunDiagnosis(model: Model, parse: Parse, prompt: string, dryRun: bool, done: ContextDone)
    returns (outcome: Outcome, book: Book, msgs: seq<Message>, modelCalls: nat,
             failed: bool, ghost rounds: seq<seq<ToolUse>>)
    ensures modelCalls <= MAX_TOOL_ITERATIONS
    ensures Record(model, dryRun, prompt, book, msgs, rounds, failed)
    ensures (forall n :: !done(n)) ==> !failed
    ensures outcome.Truncated? ==> modelCalls == MAX_TOOL_ITERATIONS == |rounds|
    ensures outcome.Diagnosed? ==>
      && msgs[|msgs| - 1].Assistant? && ToolUses(msgs[|msgs| - 1].blocks) == []
      && parse(TextOf(msgs[|msgs| - 1].blocks)) == Some(outcome.diagnosis)
  {
    msgs, book, rounds, failed, modelCalls := [User(prompt)], NO_BOOK, [], false, 0;
    var checks := 0;
    while modelCalls < MAX_TOOL_ITERATIONS
      invariant modelCalls <= MAX_TOOL_ITERATIONS && modelCalls == |rounds|
      invariant ChatOk(model, dryRun, prompt, msgs, book, rounds, 0) && !failed
    {
      var reply := model(msgs);
      modelCalls := modelCalls + 1;
      if reply.ApiError? {
        ChatRecord(model, dryRun, prompt, msgs, book, rounds, 0);
        return InferenceFailed, book, msgs, modelCalls, failed, rounds;
      }
      ReplyKeeps(model, dryRun, prompt, msgs, book, rounds, reply.blocks);
      msgs := msgs + [Assistant(reply.blocks)];
      if ToolUses(reply.blocks) == [] {
        ChatRecord(model, dryRun, prompt, msgs, book, rounds, 1);
        var diagnosis := parse(TextOf(reply.blocks));
        outcome := if diagnosis.None? then InferenceFailed else Diagnosed(diagnosis.value);
        return;
      }
      msgs, book, failed, checks, rounds := RunRound(model, dryRun, prompt, msgs, book, done, checks, rounds);
      if failed { return InferenceFailed, book, msgs, modelCalls, failed, rounds; }
    }
    ChatRecord(model, dryRun, prompt, msgs, book, rounds, 0);
    outcome := Truncated;
  }

  // ---- what a dry run has captured -------------------------------------------------------

  function Flatten(rounds: seq<seq<ToolUse>>): (r: seq<ToolUse>) {
    if rounds == [] then [] else Flatten(rounds[..|rounds| - 1]) + rounds[|rounds| - 1]
  }

  /** All calls of the conversation's first n assistant turns. */
  function CallsOf(msgs: seq<Message>, n: nat): (r: seq<ToolUse>) {
    if n == 0 then [] else CallsOf(msgs, n - 1) + RoundCalls(msgs, n - 1)
  }

  lemma {:induction false} PlayConcat(dryRun: bool, b: Book, x: seq<ToolUse>, y: seq<ToolUse>)
    ensures Play(dryRun, b, x + y) == Play(dryRun, Play(dryRun, b, x), y)
  {
    if y == [] {
      assert x + y == x;
    } else {
      PlayConcat(dryRun, b, x, y[..|y| - 1]);
      assert (x + y)[..|x + y| - 1] == x + y[..|y| - 1];
    }
  }

  lemma {:induction false} RoundsAreFlat(dryRun: bool, rounds: seq<seq<ToolUse>>)
    ensures PlayRounds(dryRun, rounds) == Play(dryRun, NO_BOOK, Flatten(rounds))
  {
    if rounds != [] {
      RoundsAreFlat(dryRun, rounds[..|rounds| - 1]);
      PlayConcat(dryRun, NO_BOOK, Flatten(rounds[..|rounds| - 1]), rounds[|rounds| - 1]);
    }
  }

  lemma CapturesPush(x: seq<ToolUse>, u: ToolUse)
    ensures Captures(x + [u]) == Captures(x) + Captures([u])
  {
    assert (x + [u])[..|x|] == x;
    assert [u][..0] == [];
  }

  lemma CapturesRegroup(x: seq<ToolUse>, y: seq<ToolUse>, u: ToolUse)
    requires Captures(x + y) == Captures(x) + Captures(y)
    ensures Captures(x + (y + [u])) == Captures(x) + Captures(y + [u])
  {
    CapturesPush(x + y, u);
    CapturesPush(y, u);
    assert x + (y + [u]) == x + y + [u];
  }

  lemma {:induction false} CapturesConcat(x: seq<ToolUse>, y: seq<ToolUse>)
    ensures Captures(x + y) == Captures(x) + Captures(y)
  {
    if y == [] {
      assert x + y == x;
    } else {
      var y1, u := y[..|y| - 1], y[|y| - 1];
      CapturesConcat(x, y1);
      CapturesRegroup(x, y1, u);
      assert y == y1 + [u];
    }
  }

  lemma CapturesInsert(x: seq<ToolUse>, u: ToolUse, y: seq<ToolUse>)
    ensures multiset(Captures(x + [u] + y)) == multiset(Captures(x + y)) + multiset(Captures([u]))
  {
    CapturesConcat(x + [u], y);
    CapturesConcat(x, [u]);
    CapturesConcat(x, y);
  }

  lemma TakeOut(x: seq<ToolUse>, y: seq<ToolUse>, u: ToolUse) returns (y1: seq<ToolUse>, y2: seq<ToolUse>)
    requires multiset(x + [u]) <= multiset(y)
    ensures y == y1 + [u] + y2 && multiset(x) <= multiset(y1 + y2)
  {
    assert multiset(x + [u]) == multiset(x) + multiset{u};
    assert u in multiset(y);
    var j :| 0 <= j < |y| && y[j] == u;
    y1, y2 := y[..j], y[j + 1..];
    assert y == y1 + [u] + y2;
    assert multiset(y1 + y2) == multiset(y1) + multiset(y2);
    assert multiset(y1 + [u] + y2) == multiset(y1) + multiset{u} + multiset(y2);
    assert multiset(x) + multiset{u} <= multiset(y1 + y2) + multiset{u};
    Cancel(multiset(x), multiset(y1 + y2), multiset{u});
  }

  lemma Cancel(a: multiset<ToolUse>, b: multiset<ToolUse>, c: multiset<ToolUse>)
    requires a + c <= b + c
    ensures a <= b
  {
    forall x ensures a[x] <= b[x] {
      assert (a + c)[x] <= (b + c)[x];
    }
  }

  lemma {:induction false} CapturesMonotone(x: seq<ToolUse>, y: seq<ToolUse>)
    requires multiset(x) <= multiset(y)
    ensures multiset(Captures(x)) <= multiset(Captures(y))
  {
    if x != [] {
      var x1, u := x[..|x| - 1], x[|x| - 1];
      assert x == x1 + [u];
      var y1, y2 := TakeOut(x1, y, u);
      CapturesMonotone(x1, y1 + y2);
      CapturesInsert(y1, u, y2);
      CapturesInsert(x1, u, []);
      assert x1 + [u] + [] == x && x1 + [] == x1;
    }
  }

  /** Adding a round to each side, the other not smaller or the same. */
  lemma BagStep(x: seq<ToolUse>, y: seq<ToolUse>, u: seq<ToolUse>, v: seq<ToolUse>, same: bool)
    requires multiset(x) == multiset(y) && multiset(u) <= multiset(v) && (same ==> multiset(u) == multiset(v))
    ensures multiset(x + u) <= multiset(y + v) && (same ==> multiset(x + u) == multiset(y + v))
  {
    assert multiset(x + u) == multiset(x) + multiset(u);
    assert multiset(y + v) == multiset(y) + multiset(v);
  }

  lemma RoundsMatchFront(msgs: seq<Message>, rounds: seq<seq<ToolUse>>, failed: bool)
    requires RoundsMatch(msgs, rounds, failed) && rounds != []
    ensures RoundsMatch(msgs, rounds[..|rounds| - 1], false)
  {
    var front := rounds[..|rounds| - 1];
    forall i | 0 <= i < |front| ensures multiset(front[i]) == multiset(RoundCalls(msgs, i)) {
      assert front[i] == rounds[i];
    }
  }

  lemma {:induction false} RoundsBag(msgs: seq<Message>, rounds: seq<seq<ToolUse>>, failed: bool)
    requires RoundsMatch(msgs, rounds, failed)
    ensures multiset(Flatten(rounds)) <= multiset(CallsOf(msgs, |rounds|))
    ensures !failed ==> multiset(Flatten(rounds)) == multiset(CallsOf(msgs, |rounds|))
  {
    if rounds != [] {
      var n := |rounds| - 1;
      RoundsMatchFront(msgs, rounds, failed);
      RoundsBag(msgs, rounds[..n], false);
      BagStep(Flatten(rounds[..n]), CallsOf(msgs, n), rounds[n], RoundCalls(msgs, n), !failed);
    }
  }

  /**
    The planned actions of an uncancelled dry run are, as a multiset, exactly the actions of the
    write-tool calls made in the whole conversation; of a cancelled one, only such actions.
  */
  lemma PlannedExactly(model: Model, prompt: string, book: Book, msgs: seq<Message>, rounds: seq<seq<ToolUse>>,
                       failed: bool)
    requires Record(model, true, prompt, book, msgs, rounds, failed)
    ensures multiset(Stripped(book.planned)) <= multiset(Captures(CallsOf(msgs, |rounds|)))
    ensures !failed ==> multiset(Stripped(book.planned)) == multiset(Captures(CallsOf(msgs, |rounds|)))
  {
    PlannedInOrder(rounds);
    RoundsBag(msgs, rounds, failed);
    CapturesMonotone(Flatten(rounds), CallsOf(msgs, |rounds|));
    if !failed { CapturesMonotone(CallsOf(msgs, |rounds|), Flatten(rounds)); }
  }

  lemma PlannedInOrder(rounds: seq<seq<ToolUse>>)
    ensures Stripped(PlayRounds(true, rounds).planned) == Captures(Flatten(rounds))
  {
    RoundsAreFlat(true, rounds);
    PlayRecords(NO_BOOK, Flatten(rounds));
    assert Stripped([]) == [];
  }

  /** The blocked list of an uncancelled dry run names exactly the called tools that are in neither whitelist. */
  lemma BlockedList(model: Model, prompt: string, book: Book, msgs: seq<Message>, rounds: seq<seq<ToolUse>>)
    requires Record(model, true, prompt, book, msgs, rounds, false)
    ensures BlockedExactly(book.blocked, CallsOf(msgs, |rounds|))
  {
    RoundsAreFlat(true, rounds);
    RoundsBag(msgs, rounds, false);
    PlayBlocks(Flatten(rounds));
    forall name ensures Refused(Flatten(rounds), name) <==> Refused(CallsOf(msgs, |rounds|), name) {
      SameRefusals(Flatten(rounds), CallsOf(msgs, |rounds|), name);
      SameRefusals(CallsOf(msgs, |rounds|), Flatten(rounds), name);
    }
    assert BlockedExactly(book.blocked, Flatten(rounds));
  }

  lemma SameRefusals(x: seq<ToolUse>, y: seq<ToolUse>, name: string)
    requires multiset(x) == multiset(y)
    ensures Refused(x, name) ==> Refused(y, name)
  {
    if Refused(x, name) {
      var i :| 0 <= i < |x| && x[i].name == name && IsRefused(x[i]);
      assert x[i] in multiset(y);
      var j :| 0 <= j < |y| && y[j] == x[i];
    }
  }

  lemma ReadsPush(x: seq<ToolUse>, u: ToolUse)
    ensures ReadsOf(x + [u]) == ReadsOf(x) + ReadsOf([u])
  {
    assert (x + [u])[..|x|] == x;
    assert [u][..0] == [];
  }

  lemma ReadsRegroup(x: seq<ToolUse>, y: seq<ToolUse>, u: ToolUse)
    requires ReadsOf(x + y) == ReadsOf(x) + ReadsOf(y)
    ensures ReadsOf(x + (y + [u])) == ReadsOf(x) + ReadsOf(y + [u])
  {
    ReadsPush(x + y, u);
    ReadsPush(y, u);
    assert x + (y + [u]) == x + y + [u];
  }

  lemma {:induction false} ReadsConcat(x: seq<ToolUse>, y: seq<ToolUse>)
    ensures ReadsOf(x + y) == ReadsOf(x) + ReadsOf(y)
  {
    if y == [] {
      assert x + y == x;
    } else {
      var y1, u := y[..|y| - 1], y[|y| - 1];
      ReadsConcat(x, y1);
      ReadsRegroup(x, y1, u);
      assert y == y1 + [u];
    }
  }

  lemma ReadsInsert(x: seq<ToolUse>, u: ToolUse, y: seq<ToolUse>)
    ensures multiset(ReadsOf(x + [u] + y)) == multiset(ReadsOf(x + y)) + multiset(ReadsOf([u]))
  {
    ReadsConcat(x + [u], y);
    ReadsConcat(x, [u]);
    ReadsConcat(x, y);
  }

  lemma {:induction false} ReadsMonotone(x: seq<ToolUse>, y: seq<ToolUse>)
    requires multiset(x) <= multiset(y)
    ensures multiset(ReadsOf(x)) <= multiset(ReadsOf(y))
  {
    if x != [] {
      var x1, u := x[..|x| - 1], x[|x| - 1];
      assert x == x1 + [u];
      var y1, y2 := TakeOut(x1, y, u);
      ReadsMonotone(x1, y1 + y2);
      ReadsInsert(y1, u, y2);
      ReadsInsert(x1, u, []);
      assert x1 + [u] + [] == x && x1 + [] == x1;
    }
  }

  /** The reads logged before round k are, as a multiset, exactly the reads of the conversation's first k rounds. */
  lemma EarlierReads(msgs: seq<Message>, rounds: seq<seq<ToolUse>>, failed: bool, k: nat)
    requires RoundsMatch(msgs, rounds, failed) && k < |rounds|
    ensures multiset(PlayRounds(true, rounds[..k]).observed) == multiset(ReadsOf(CallsOf(msgs, k)))
  {
    forall i | 0 <= i < k ensures multiset(rounds[..k][i]) == multiset(RoundCalls(msgs, i)) {
      assert rounds[..k][i] == rounds[i];
    }
    RoundsBag(msgs, rounds[..k], false);
    RoundsAreFlat(true, rounds[..k]);
    PlayRecords(NO_BOOK, Flatten(rounds[..k]));
    assert [] + ReadsOf(Flatten(rounds[..k])) == ReadsOf(Flatten(rounds[..k]));
    ReadsMonotone(Flatten(rounds[..k]), CallsOf(msgs, k));
    ReadsMonotone(CallsOf(msgs, k), Flatten(rounds[..k]));
  }

  /**
    In a dry run, an action planned in round k has as preconditions a prefix of the final log of
    reads, and in it every read of the conversation's rounds before k.
  */
  lemma SeesEarlierRounds(model: Model, prompt: string, book: Book, msgs: seq<Message>, rounds: seq<seq<ToolUse>>,
                          failed: bool, k: nat, j: nat)
    requires Record(model, true, prompt, book, msgs, rounds, failed) && k < |rounds|
    requires |PlayRounds(true, rounds[..k]).planned| <= j < |PlayRounds(true, rounds[..k + 1]).planned|
    ensures var before := PlayRounds(true, rounds[..k]).observed;
      && j < |book.planned| && before <= book.planned[j].preconditions <= book.observed
      && multiset(before) == multiset(ReadsOf(CallsOf(msgs, k)))
  {
    EarlierReads(msgs, rounds, failed, k);
    SeesBetween(rounds, k, j);
  }

  lemma SeesBetween(rounds: seq<seq<ToolUse>>, k: nat, j: nat)
    requires k < |rounds|
    requires |PlayRounds(true, rounds[..k]).planned| <= j < |PlayRounds(true, rounds[..k + 1]).planned|
    ensures var book := PlayRounds(true, rounds);
      && j < |book.planned|
      && PlayRounds(true, rounds[..k]).observed <= book.planned[j].preconditions <= book.observed
  {
    assert rounds[..k + 1][..k] == rounds[..k];
    PlaySees(true, PlayRounds(true, rounds[..k]), rounds[k]);
    LaterRounds(rounds, k + 1);
  }

  lemma {:induction false} LaterRounds(rounds: seq<seq<ToolUse>>, k: nat)
    requires k <= |rounds|
    ensures PlayRounds(true, rounds[..k]).planned <= PlayRounds(true, rounds).planned
    ensures PlayRounds(true, rounds[..k]).observed <= PlayRounds(true, rounds).observed
    decreases |rounds|
  {
    if k < |rounds| {
      var front := rounds[..|rounds| - 1];
      assert front[..k] == rounds[..k];
      LaterRounds(front, k);
      PlaySees(true, PlayRounds(true, front), rounds[|rounds| - 1]);
    } else {
      assert rounds[..k] == rounds;
    }
  }

  /** Outside a dry run nothing is planned, blocked or logged. */
  lemma {:induction false} NothingWithoutDryRun(rounds: seq<seq<ToolUse>>)
    ensures PlayRounds(false, rounds) == NO_BOOK
  {
    RoundsAreFlat(false, rounds);
    PlayNothing(Flatten(rounds));
  }

  lemma {:induction false} PlayNothing(uses: seq<ToolUse>)
    ensures Play(false, NO_BOOK, uses) == NO_BOOK
  {
    if uses != [] { PlayNothing(uses[..|uses| - 1]); }
  }

  /**
    A well-formed conversation alternates: the prompt, then the model and the tools by turns, each
    tools' turn answering exactly the calls of the model's turn before it.
  */
  lemma Alternates(model: Model, dryRun: bool, prompt: string, msgs: seq<Message>, i: nat)
    requires WellFormed(model, dryRun, prompt, msgs)
    ensures 0 < |msgs| ==> msgs[0] == User(prompt)
    ensures 2 * i + 1 < |msgs| ==> msgs[2 * i + 1].Assistant?
    ensures 2 * i + 2 < |msgs| ==> msgs[2 * i + 2].Results? && Answers(dryRun, msgs[2 * i + 2].results,
        RoundCalls(msgs, i))
  {
    if 0 < |msgs| { assert TurnOk(model, dryRun, prompt, msgs, 0); }
    if 2 * i + 1 < |msgs| { assert TurnOk(model, dryRun, prompt, msgs, 2 * i + 1); }
    if 2 * i + 2 < |msgs| { assert TurnOk(model, dryRun, prompt, msgs, 2 * i + 2); }
  }
}
