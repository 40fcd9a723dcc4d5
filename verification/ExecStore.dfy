/**
  The execution store: the tables exec_plans and exec_audit, and the statements that
  internal/api/exec_store.go runs against them.

  Each SQL statement (and the one transaction, BeginExecution) is one atomic function on a
  database value.  The class PgExecStore keeps the same tables in mutable fields; its methods
  are proved to do to the fields what the functions do to the value.
*/
module ExecStore {
  import opened Basics

  type PlanId = nat
  type Time = int
  type Json = string

  /** One write-tool call of an approved plan (agent.PlannedAction). */
  datatype Action = Action(tool: string, command: string, target: string, risk: string, rollback: string)

  datatype Status = Planned | Approved | Rejected | Running | Completed | Failed | RolledBack

  /** A row of exec_plans. */
  datatype Plan = Plan(
    account: string, actions: seq<Action>, status: Status,
    createdBy: string, createdAt: Time,
    approvedBy: Option<string>, approverNote: Option<string>, approvedAt: Option<Time>,
    startedAt: Option<Time>, completedAt: Option<Time>,
    actionsTotal: nat, actionsCompleted: nat)

  datatype RowStatus = PendingRow | SuccessRow | FailedRow | RolledBackRow

  /** A row of exec_audit. */
  datatype AuditRow = AuditRow(
    seqNo: nat, action: Action, preState: Json, postState: Option<Json>,
    status: RowStatus, error: Option<string>, completedAt: Option<Time>)

  /** What an executor call returns: (post-state, error message, ok). */
  datatype Outcome = Outcome(post: Json, err: string, ok: bool)

  datatype Db = Db(lastId: PlanId, plans: map<PlanId, Plan>, audit: map<PlanId, seq<AuditRow>>)

  /** ErrExecNotFound, ErrExecConflict, or any other error of the database. */
  datatype StoreError = NotFound | Conflict | Fault

  const EMPTY_DB := Db(0, map[], map[])

  /** The pre-state every seeded audit row carries. */
  const STUB_PRE_STATE: Json := "{\"status\":\"captured\",\"source\":\"stub\"}"

  // ---- statements ------------------------------------------------------------------------

  function Rows(db: Db, id: PlanId): (r: seq<AuditRow>) {
    if id in db.audit then db.audit[id] else []
  }

  function NewPlan(account: string, actions: seq<Action>, author: string, now: Time): (r: Plan) {
    Plan(account, actions, Planned, author, now, None, None, None, None, None, |actions|, 0)
  }

  /** INSERT INTO exec_plans ... RETURNING id. */
  function Insert(db: Db, account: string, actions: seq<Action>, author: string, now: Time): (r: Db) {
    var id := db.lastId + 1;
    db.(lastId := id, plans := db.plans[id := NewPlan(account, actions, author, now)])
  }

  /** UPDATE ... SET status='approved' ... WHERE id=$1 AND status='planned'; None when no row matches. */
  function ApproveCas(db: Db, id: PlanId, who: string, note: string, now: Time): (r: Option<Db>) {
    if id in db.plans && db.plans[id].status == Planned then
      Some(db.(plans := db.plans[id :=
        db.plans[id].(status := Approved, approvedBy := Some(who), approverNote := Some(note),
            approvedAt := Some(now))]))
    else
      None
  }

  /** The separate SELECT that tells a missing row from one whose status forbids the change. */
  function ClassifyMiss(db: Db, id: PlanId): (r: StoreError) {
    if id in db.plans then Conflict else NotFound
  }

  function SeedRows(actions: seq<Action>): (rows: seq<AuditRow>)
    ensures |rows| == |actions|
  {
    seq(|actions|, i requires 0 <= i < |actions| =>
      AuditRow(i + 1, actions[i], STUB_PRE_STATE, None, PendingRow, None, None))
  }

  /** The transaction of BeginExecution; None when the guarded UPDATE matches no row. */
  function BeginTx(db: Db, id: PlanId, actions: seq<Action>, now: Time): (r: Option<Db>) {
    if id in db.plans && db.plans[id].status == Approved then
      Some(db.(
        plans := db.plans[id := db.plans[id].(status := Running, startedAt := Some(now), actionsTotal := |actions|)],
        audit := db.audit[id := Rows(db, id) + SeedRows(actions)]))
    else
      None
  }

  predicate HasRow(rows: seq<AuditRow>, seqNo: nat) {
    exists i :: 0 <= i < |rows| && rows[i].seqNo == seqNo
  }

  function NonEmpty(s: string): (r: Option<string>) {
    if s == "" then None else Some(s)
  }

  function ResultRow(row: AuditRow, out: Outcome, now: Time): (r: AuditRow) {
    row.(postState := NonEmpty(out.post), status := if out.ok then SuccessRow else FailedRow,
         error := NonEmpty(out.err), completedAt := Some(now))
  }

  /** UPDATE exec_audit SET post_state, status, error WHERE exec_id=$1 AND seq=$2. */
  function RecordRows(rows: seq<AuditRow>, seqNo: nat, out: Outcome, now: Time): (r: seq<AuditRow>)
    ensures |r| == |rows|
  {
    seq(|rows|, i requires 0 <= i < |rows| =>
      if rows[i].seqNo == seqNo then ResultRow(rows[i], out, now) else rows[i])
  }

  /** UPDATE exec_audit SET status='rolled_back' WHERE seq = ANY($2) AND status='success'. */
  function MarkRows(rows: seq<AuditRow>, seqs: seq<nat>, now: Time): (r: seq<AuditRow>)
    ensures |r| == |rows|
  {
    seq(|rows|, i requires 0 <= i < |rows| =>
      if rows[i].seqNo in seqs && rows[i].status == SuccessRow
      then rows[i].(status := RolledBackRow, completedAt := Some(now)) else rows[i])
  }

  function WithRows(db: Db, id: PlanId, rows: seq<AuditRow>): (r: Db) {
    if id in db.audit then db.(audit := db.audit[id := rows]) else db
  }

  /** UPDATE exec_plans SET status, actions_completed, completed_at WHERE id=$1: no guard on the status. */
  function FinishCas(db: Db, id: PlanId, status: Status, completed: nat, now: Time): (r: Option<Db>) {
    if id in db.plans then
      Some(db.(plans := db.plans[id :=
        db.plans[id].(status := status, actionsCompleted := completed, completedAt := Some(now))]))
    else
      None
  }

  predicate HasStarted(status: Status) {
    status == Running || status == Completed || status == Failed || status == RolledBack
  }

  /** The WHERE clause of CountExecutionsSince. */
  predicate Counts(p: Plan, account: string, since: Time) {
    && p.account == account
    && p.startedAt.Some? && p.startedAt.value >= since
    && HasStarted(p.status)
  }

  function StartedSince(db: Db, account: string, since: Time): (r: set<PlanId>) {
    set id | id in db.plans && Counts(db.plans[id], account, since)
  }

  // ---- the mutable store -----------------------------------------------------------------

  class PgExecStore {
    var lastId: PlanId
    var plans: map<PlanId, Plan>
    var audit: map<PlanId, seq<AuditRow>>

    function View(): (r: Db) reads this { Db(lastId, plans, audit) }

    constructor ()
      ensures View() == EMPTY_DB
    {
      lastId, plans, audit := 0, map[], map[];
    }

    // In every method `fault` says that the database fails the call without effect.

    method CreatePlan(account: string, actions: seq<Action>, author: string, now: Time, fault: bool)
      returns (r: Result<PlanId, StoreError>)
      modifies this
      ensures fault ==> r == Err(Fault) && View() == old(View())
      ensures !fault ==> r == Ok(old(lastId) + 1) && View() == Insert(old(View()), account, actions, author, now)
    {
      if fault { return Err(Fault); }
      lastId := lastId + 1;
      plans := plans[lastId := NewPlan(account, actions, author, now)];
      r := Ok(lastId);
    }

    method GetPlan(id: PlanId, fault: bool) returns (r: Result<Option<Plan>, StoreError>)
      ensures fault ==> r == Err(Fault)
      ensures !fault ==> r == Ok(if id in plans then Some(plans[id]) else None)
    {
      if fault { return Err(Fault); }
      if id in plans { r := Ok(Some(plans[id])); } else { r := Ok(None); }
    }

    /** With nobody between its update and its second read, which may fail on its own. */
    method ApprovePlan(id: PlanId, who: string, note: string, now: Time, fault: bool, readFault: bool)
      returns (r: Result<Plan, StoreError>)
      modifies this
      ensures var cas := ApproveCas(old(View()), id, who, note, now);
        if fault then r == Err(Fault) && View() == old(View())
        else if cas.Some? then View() == cas.value && r == Ok(cas.value.plans[id])
        else View() == old(View()) && r == Err(if readFault then Fault else ClassifyMiss(old(View()), id))
    {
      if fault { return Err(Fault); }
      if id !in plans || plans[id].status != Planned {
        var e := ReadMiss(id, readFault);
        return Err(e);
      }
      var p := plans[id];
      p := p.(status := Approved, approvedBy := Some(who), approverNote := Some(note), approvedAt := Some(now));
      plans := plans[id := p];
      r := Ok(p);
    }

    /** The transaction of BeginExecution; says whether the guarded update matched a row. */
    method BeginTransaction(id: PlanId, actions: seq<Action>, now: Time, fault: bool)
      returns (r: Result<bool, StoreError>)
      modifies this
      ensures var tx := BeginTx(old(View()), id, actions, now);
        if fault then r == Err(Fault) && View() == old(View())
        else r == Ok(tx.Some?) && View() == (if tx.Some? then tx.value else old(View()))
    {
      if fault { return Err(Fault); }
      if id !in plans { return Ok(false); }
      if plans[id].status != Approved { return Ok(false); }
      plans := plans[id := plans[id].(status := Running, startedAt := Some(now), actionsTotal := |actions|)];
      var rows := if id in audit then audit[id] else [];
      ghost var before := rows;
      for seqNo := 0 to |actions|
        invariant rows == before + SeedRows(actions)[..seqNo]
      {
        rows := rows + [AuditRow(seqNo + 1, actions[seqNo], STUB_PRE_STATE, None, PendingRow, None, None)];
      }
      assert SeedRows(actions)[..|actions|] == SeedRows(actions);
      audit := audit[id := rows];
      r := Ok(true);
    }

    /** The second read, which tells why the update matched no row. */
    method ReadMiss(id: PlanId, fault: bool) returns (e: StoreError)
      ensures e == if fault then Fault else ClassifyMiss(View(), id)
    {
      if fault { return Fault; }
      e := if id in plans then Conflict else NotFound;
    }

    /** With nobody between its transaction and its second read. */
    method BeginExecution(id: PlanId, actions: seq<Action>, now: Time, fault: bool, readFault: bool)
      returns (r: Result<(), StoreError>)
      modifies this
      ensures var tx := BeginTx(old(View()), id, actions, now);
        if fault then r == Err(Fault) && View() == old(View())
        else if tx.Some? then r == Ok(()) && View() == tx.value
        else r == Err(if readFault then Fault else ClassifyMiss(old(View()), id)) && View() == old(View())
    {
      var begun := BeginTransaction(id, actions, now, fault);
      if begun.Err? { return Err(begun.error); }
      if begun.value { return Ok(()); }
      var e := ReadMiss(id, readFault);
      r := Err(e);
    }

    method RecordActionResult(id: PlanId, seqNo: nat, out: Outcome, now: Time, fault: bool)
      returns (r: Result<(), StoreError>)
      modifies this
      ensures var rows := Rows(old(View()), id);
        if fault then r == Err(Fault) && View() == old(View())
        else if HasRow(rows, seqNo) then r == Ok(()) && View() == WithRows(old(View()), id,
            RecordRows(rows, seqNo, out, now))
        else r == Err(NotFound) && View() == old(View())
    {
      if fault { return Err(Fault); }
      if id !in audit { return Err(NotFound); }
      var rows := audit[id];
      var affected := 0;
      for i := 0 to |rows|
        invariant |rows| == |old(audit[id])|
        invariant rows[..i] == RecordRows(old(audit[id]), seqNo, out, now)[..i]
        invariant rows[i..] == old(audit[id])[i..]
        invariant affected > 0 <==> HasRow(old(audit[id])[..i], seqNo)
      {
        assert rows[i] == rows[i..][0] == old(audit[id])[i];
        if rows[i].seqNo == seqNo {
          rows := rows[i := ResultRow(rows[i], out, now)];
          affected := affected + 1;
        }
        assert old(audit[id])[..i + 1] == old(audit[id])[..i] + [old(audit[id])[i]];
      }
      assert old(audit[id])[..|rows|] == old(audit[id]);
      if affected == 0 { return Err(NotFound); }
      assert rows == RecordRows(old(audit[id]), seqNo, out, now);
      audit := audit[id := rows];
      r := Ok(());
    }

    /** Gives the number of rows changed; without sequence numbers the database is not asked. */
    method MarkAuditRolledBack(id: PlanId, seqs: seq<nat>, now: Time, fault: bool)
      returns (r: Result<nat, StoreError>)
      modifies this
      ensures fault && seqs != [] ==> r == Err(Fault) && View() == old(View())
      ensures !(fault && seqs != []) ==>
        && r == Ok(Marked(Rows(old(View()), id), seqs))
        && View() == WithRows(old(View()), id, MarkRows(Rows(old(View()), id), seqs, now))
    {
      if seqs == [] {
        NothingMarked(Rows(View(), id), now);
        return Ok(0);
      }
      if fault { return Err(Fault); }
      if id !in audit { return Ok(0); }
      var rows, n := audit[id], 0;
      ghost var before := rows;
      for i := 0 to |rows|
        invariant |rows| == |before| && n == Marked(before[..i], seqs)
        invariant forall k :: 0 <= k < i ==> rows[k] == MarkRows(before, seqs, now)[k]
        invariant forall k :: i <= k < |rows| ==> rows[k] == before[k]
      {
        assert before[..i + 1][..i] == before[..i];
        if rows[i].seqNo in seqs && rows[i].status == SuccessRow {
          rows := rows[i := rows[i].(status := RolledBackRow, completedAt := Some(now))];
          n := n + 1;
        }
      }
      assert before[..|before|] == before;
      assert rows == MarkRows(before, seqs, now);
      audit := audit[id := rows];
      r := Ok(n);
    }

    method FinishExecution(id: PlanId, status: Status, completed: nat, now: Time, fault: bool)
      returns (r: Result<(), StoreError>)
      modifies this
      ensures var cas := FinishCas(old(View()), id, status, completed, now);
        if fault then r == Err(Fault) && View() == old(View())
        else if cas.Some? then r == Ok(()) && View() == cas.value
        else r == Err(NotFound) && View() == old(View())
    {
      if fault { return Err(Fault); }
      if id !in plans { return Err(NotFound); }
      plans := plans[id := plans[id].(status := status, actionsCompleted := completed, completedAt := Some(now))];
      r := Ok(());
    }

    method CountExecutionsSince(account: string, since: Time, fault: bool) returns (r: Result<nat, StoreError>)
      ensures fault ==> r == Err(Fault)
      ensures !fault ==> r == Ok(|StartedSince(View(), account, since)|)
    {
      if fault { return Err(Fault); }
      var n, left := 0, plans.Keys;
      ghost var all := StartedSince(View(), account, since);
      while left != {}
        invariant left <= plans.Keys && n == |all - left|
        decreases |left|
      {
        var id :| id in left;  // the order of the rows is not determined
        OneLess(all, left, id);
        if Counts(plans[id], account, since) { n := n + 1; }
        left := left - {id};
      }
      r := Ok(n);
    }
  }

  lemma OneLess(all: set<PlanId>, left: set<PlanId>, id: PlanId)
    requires id in left
    ensures |all - (left - {id})| == |all - left| + (if id in all then 1 else 0)
    ensures all - {} == all
  {
    if id in all {
      assert all - (left - {id}) == (all - left) + {id};
    } else {
      assert all - (left - {id}) == all - left;
    }
  }

  // ---- what marking means ----------------------------------------------------------------

  /** The number of rows that marking changes. */
  function Marked(rows: seq<AuditRow>, seqs: seq<nat>): (n: nat) {
    if rows == [] then 0 else (
      var row := rows[|rows| - 1];
      Marked(rows[..|rows| - 1], seqs) + (if row.seqNo in seqs && row.status == SuccessRow then 1 else 0))
  }

  lemma {:induction false} NothingMarked(rows: seq<AuditRow>, now: Time)
    ensures Marked(rows, []) == 0 && MarkRows(rows, [], now) == rows
  {
    if rows != [] { NothingMarked(rows[..|rows| - 1], now); }
  }

  function CountRows(rows: seq<AuditRow>, status: RowStatus): (n: nat) {
    if rows == [] then 0
    else CountRows(rows[..|rows| - 1], status) + (if rows[|rows| - 1].status == status then 1 else 0)
  }

  /**
    Marking moves exactly the number it gives from success to rolled_back; failed and pending rows
    stay, and marking the same rows again changes nothing.
  */
  lemma {:induction false} MarkingMoves(rows: seq<AuditRow>, seqs: seq<nat>, now: Time, later: Time)
    ensures var marked := MarkRows(rows, seqs, now);
      && CountRows(marked, SuccessRow) + Marked(rows, seqs) == CountRows(rows, SuccessRow)
      && CountRows(marked, RolledBackRow) == CountRows(rows, RolledBackRow) + Marked(rows, seqs)
      && CountRows(marked, FailedRow) == CountRows(rows, FailedRow)
      && CountRows(marked, PendingRow) == CountRows(rows, PendingRow)
      && Marked(marked, seqs) == 0 && MarkRows(marked, seqs, later) == marked
  {
    if rows != [] {
      var front := rows[..|rows| - 1];
      MarkingMoves(front, seqs, now, later);
      assert MarkRows(rows, seqs, now)[..|rows| - 1] == MarkRows(front, seqs, now);
    }
  }
}
