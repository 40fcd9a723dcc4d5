/**
  The small compiler from request filters and updates to SQL text with numbered arguments:
  listResourcesHandler and listAlertsHandler of internal/api/router.go, listRulesHandler,
  updateRuleHandler and joinComma of internal/api/rules.go.

  The text is given a meaning by a parser for the SQL forms that these handlers write; a database
  row is a map from columns to values.
*/
module Queries {
  import opened Basics
  import opened Numerals

  datatype Value = Null | Text(s: string) | Number(n: int) | Real(r: real) | Json(j: string) | Bool(b: bool) | Now
  type Row = map<string, Value>

  /** A column, and the value that the request gives for it. */
  datatype Setting = Setting(col: string, value: Value)

  function Column(row: Row, col: string): (r: Value) { if col in row then row[col] else Null }

  // ---- scanning --------------------------------------------------------------------------

  predicate IsNameChar(c: char) { 'a' <= c <= 'z' || c == '_' }

  predicate IsName(s: string) { forall i :: 0 <= i < |s| ==> IsNameChar(s[i]) }

  function NameLength(s: string): (n: nat)
    ensures n <= |s| && IsName(s[..n])
  {
    if s != "" && IsNameChar(s[0]) then 1 + NameLength(s[1..]) else 0
  }

  function DigitsLength(s: string): (n: nat)
    ensures n <= |s| && AllDigits(s[..n])
  {
    if s != "" && IsDigit(s[0]) then 1 + DigitsLength(s[1..]) else 0
  }

  lemma {:induction false} NameLengthOf(name: string, rest: string)
    requires IsName(name) && (rest != "" ==> !IsNameChar(rest[0]))
    ensures NameLength(name + rest) == |name|
  {
    if name == "" {
      assert name + rest == rest;
    } else {
      NameLengthOf(name[1..], rest);
      assert (name + rest)[1..] == name[1..] + rest;
    }
  }

  lemma {:induction false} DigitsLengthOf(digits: string, rest: string)
    requires AllDigits(digits) && (rest != "" ==> !IsDigit(rest[0]))
    ensures DigitsLength(digits + rest) == |digits|
  {
    if digits == "" {
      assert digits + rest == rest;
    } else {
      DigitsLengthOf(digits[1..], rest);
      assert (digits + rest)[1..] == digits[1..] + rest;
    }
  }

  /** A column followed by a placeholder: "name=$12". */
  datatype Pair = Pair(col: string, arg: nat)

  /** Reading a pair: it, and the text after it. */
  function ReadPair(s: string): (r: Option<(Pair, string)>) {
    var n := NameLength(s);
    var s1 := s[n..];
    if |s1| < 2 || s1[..2] != "=$" then None else (
      var m := DigitsLength(s1[2..]);
      if m == 0 then None else Some((Pair(s[..n], Numerals.Value(s1[2..][..m])), s1[2..][m..])))
  }

  function PairText(col: string, arg: nat): (r: string) { col + "=$" + Numeral(arg) }

  lemma ReadPairOf(col: string, arg: nat, rest: string)
    requires IsName(col) && (rest != "" ==> !IsDigit(rest[0]))
    ensures ReadPair(PairText(col, arg) + rest) == Some((Pair(col, arg), rest))
  {
    var s, after := PairText(col, arg) + rest, "=$" + (Numeral(arg) + rest);
    assert s == col + after;
    NameLengthOf(col, after);
    assert s[|col|..] == after && s[..|col|] == col;
    assert after[..2] == "=$" && after[2..] == Numeral(arg) + rest;
    DigitsLengthOf(Numeral(arg), rest);
    assert (Numeral(arg) + rest)[..|Numeral(arg)|] == Numeral(arg);
    assert (Numeral(arg) + rest)[|Numeral(arg)|..] == rest;
    ValueOfNumeral(arg);
  }

  // ---- filters ---------------------------------------------------------------------------

  const AND := " AND "

  function Condition(col: string, arg: nat): (r: string) { AND + PairText(col, arg) }

  /** The text of the conditions for some settings, the first with argument i. */
  function WhereText(settings: seq<Setting>, i: nat): (r: string) {
    if settings == [] then "" else Condition(settings[0].col, i) + WhereText(settings[1..], i + 1)
  }

  /** Reading conditions as long as there are any. */
  function ReadWhere(s: string): (r: (seq<Pair>, string))
    decreases |s|
  {
    if AND <= s && ReadPair(s[5..]).Some? && |ReadPair(s[5..]).value.1| < |s| then (
      var (pair, rest) := ReadPair(s[5..]).value;
      var (more, end) := ReadWhere(rest);
      ([pair] + more, end))
    else ([], s)
  }

  /** The pairs of some settings, numbered from i. */
  function Pairs(settings: seq<Setting>, i: nat): (r: seq<Pair>) {
    seq(|settings|, j requires 0 <= j < |settings| => Pair(settings[j].col, i + j))
  }

  predicate NamesOk(settings: seq<Setting>) { forall j :: 0 <= j < |settings| ==> IsName(settings[j].col) }

  /** A text that conditions cannot run into. */
  predicate Stops(rest: string) { !(AND <= rest) && (rest != "" ==> !IsDigit(rest[0])) }

  lemma PairsFront(settings: seq<Setting>, i: nat)
    requires settings != []
    ensures Pairs(settings, i) == [Pair(settings[0].col, i)] + Pairs(settings[1..], i + 1)
  {
  }

  lemma ReadWhereStep(col: string, arg: nat, rest: string)
    requires IsName(col) && (rest != "" ==> !IsDigit(rest[0]))
    ensures var (more, end) := ReadWhere(rest);
      ReadWhere(AND + (PairText(col, arg) + rest)) == ([Pair(col, arg)] + more, end)
  {
    AfterAnd(PairText(col, arg) + rest);
    ReadPairOf(col, arg, rest);
  }

  lemma AfterAnd(s: string)
    ensures AND <= AND + s && (AND + s)[5..] == s
  {
  }

  lemma WhereFront(settings: seq<Setting>, i: nat, rest: string)
    requires settings != []
    ensures WhereText(settings, i) + rest ==
      AND + (PairText(settings[0].col, i) + (WhereText(settings[1..], i + 1) + rest))
  {
  }

  /** The conditions written are the conditions read, and the text after them is left. */
  lemma {:induction false} ReadWhereOf(settings: seq<Setting>, i: nat, rest: string)
    requires NamesOk(settings) && Stops(rest)
    ensures ReadWhere(WhereText(settings, i) + rest) == (Pairs(settings, i), rest)
  {
    if settings == [] {
      assert WhereText(settings, i) + rest == rest;
      EmptyPairs(i);
    } else {
      var tail := WhereText(settings[1..], i + 1) + rest;
      ReadWhereOf(settings[1..], i + 1, rest);
      TailStops(settings[1..], i + 1, rest);
      ReadWhereStep(settings[0].col, i, tail);
      WhereFront(settings, i, rest);
      PairsFront(settings, i);
    }
  }

  lemma EmptyPairs(i: nat)
    ensures Pairs([], i) == []
  {
  }

  lemma TailStops(settings: seq<Setting>, i: nat, rest: string)
    requires Stops(rest)
    ensures var tail := WhereText(settings, i) + rest; tail != "" ==> !IsDigit(tail[0])
  {
    if settings != [] { assert (WhereText(settings, i) + rest)[0] == AND[0]; }
  }

  lemma Assoc(a: string, b: string, c: string)
    ensures a + (b + c) == a + b + c
  {
  }

  lemma {:induction false} WherePush(settings: seq<Setting>, x: Setting, i: nat)
    ensures WhereText(settings + [x], i) == WhereText(settings, i) + Condition(x.col, i + |settings|)
  {
    if settings == [] {
      WhereOne(x, i);
      assert settings + [x] == [x];
    } else {
      WherePush(settings[1..], x, i + 1);
      assert (settings + [x])[1..] == settings[1..] + [x];
      Assoc(Condition(settings[0].col, i), WhereText(settings[1..], i + 1), Condition(x.col, i + |settings|));
    }
  }

  lemma WhereOne(x: Setting, i: nat)
    ensures WhereText([x], i) == Condition(x.col, i)
  {
    assert [x][1..] == [];
    assert WhereText([], i + 1) == "";
  }

  function Values(settings: seq<Setting>): (r: seq<Value>) {
    seq(|settings|, j requires 0 <= j < |settings| => settings[j].value)
  }

  /** The argument that placeholder n names. */
  function Arg(args: seq<Value>, n: nat): (r: Option<Value>) {
    if 1 <= n <= |args| then Some(args[n - 1]) else None
  }

  /** A row passes conditions whose placeholders are filled in from args. */
  predicate Passes(pairs: seq<Pair>, args: seq<Value>, row: Row) {
    forall j :: 0 <= j < |pairs| ==> Arg(args, pairs[j].arg) == Some(Column(row, pairs[j].col))
  }

  predicate Meets(settings: seq<Setting>, row: Row) {
    forall j :: 0 <= j < |settings| ==> Column(row, settings[j].col) == settings[j].value
  }

  lemma PassesIsMeets(settings: seq<Setting>, extra: seq<Value>, row: Row)
    ensures Passes(Pairs(settings, 1), Values(settings) + extra, row) <==> Meets(settings, row)
  {
    var args := Values(settings) + extra;
    forall j | 0 <= j < |settings| ensures Arg(args, Pairs(settings, 1)[j].arg) == Some(settings[j].value) {
    }
    if Meets(settings, row) {
      forall j | 0 <= j < |settings| ensures Arg(args, Pairs(settings, 1)[j].arg)
          == Some(Column(row, Pairs(settings, 1)[j].col)) {
      }
    }
    if Passes(Pairs(settings, 1), args, row) {
      forall j | 0 <= j < |settings| ensures Column(row, settings[j].col) == settings[j].value {
        assert Arg(args, Pairs(settings, 1)[j].arg) == Some(Column(row, Pairs(settings, 1)[j].col));
      }
    }
  }

  /** The settings that a list of optional filters leaves: an empty string is no filter. */
  function Given(filters: seq<(string, string)>): (r: seq<Setting>) {
    if filters == [] then [] else (
      var front, f := Given(filters[..|filters| - 1]), filters[|filters| - 1];
      if f.1 == "" then front else front + [Setting(f.0, Text(f.1))])
  }

  predicate FilterNamesOk(filters: seq<(string, string)>) { forall k :: 0 <= k < |filters| ==> IsName(filters[k].0) }

  predicate MeetsAll(filters: seq<(string, string)>, row: Row) {
    forall k :: 0 <= k < |filters| && filters[k].1 != "" ==> Column(row, filters[k].0) == Text(filters[k].1)
  }

  lemma MeetsPush(settings: seq<Setting>, x: Setting, row: Row)
    ensures Meets(settings + [x], row) <==> Meets(settings, row) && Column(row, x.col) == x.value
  {
    var all := settings + [x];
    assert all[|settings|] == x;
    assert forall j :: 0 <= j < |settings| ==> all[j] == settings[j];
  }

  lemma {:induction false} MeetsGiven(filters: seq<(string, string)>, row: Row)
    ensures Meets(Given(filters), row) <==> MeetsAll(filters, row)
  {
    if filters != [] {
      var front, f := filters[..|filters| - 1], filters[|filters| - 1];
      MeetsGiven(front, row);
      MeetsPush(Given(front), Setting(f.0, Text(f.1)), row);
      assert MeetsAll(filters, row) <==> MeetsAll(front, row) && (f.1 != "" ==> Column(row, f.0) == Text(f.1)) by {
        assert forall k :: 0 <= k < |front| ==> front[k] == filters[k];
      }
    }
  }

  lemma {:induction false} GivenNamesOk(filters: seq<(string, string)>)
    requires FilterNamesOk(filters)
    ensures NamesOk(Given(filters))
  {
    if filters != [] {
      assert FilterNamesOk(filters[..|filters| - 1]);
      GivenNamesOk(filters[..|filters| - 1]);
    }
  }

  /** A query part of the way: the text and the arguments so far. */
  ghost predicate Built(head: string, sql: string, args: seq<Value>, filters: seq<(string, string)>) {
    sql == head + WhereText(Given(filters), 1) && args == Values(Given(filters))
  }

  /** One optional filter of a list handler. */
  method AddFilter(head: string, sql: string, args: seq<Value>, col: string, value: string,
                   ghost filters: seq<(string, string)>)
    returns (sql2: string, args2: seq<Value>)
    requires Built(head, sql, args, filters) && |args| < LIMIT - 1
    ensures Built(head, sql2, args2, filters + [(col, value)]) && |args2| <= |args| + 1
  {
    sql2, args2 := sql, args;
    assert (filters + [(col, value)])[..|filters|] == filters;
    if value != "" {
      args2 := args2 + [Text(value)];
      var n := Itoa(|args2|);
      sql2 := sql2 + " AND " + col + "=$" + n;
      BuiltPush(head, sql, args, filters, col, value);
      assert sql2 == sql + Condition(col, |args| + 1);
    }
  }

  lemma BuiltPush(head: string, sql: string, args: seq<Value>, filters: seq<(string, string)>, col: string,
                  value: string)
    requires Built(head, sql, args, filters) && value != ""
    ensures Built(head, sql + Condition(col, |args| + 1), args + [Text(value)], filters + [(col, value)])
  {
    assert (filters + [(col, value)])[..|filters|] == filters;
    var st, x := Given(filters), Setting(col, Text(value));
    WherePush(st, x, 1);
    Assoc(head, WhereText(st, 1), Condition(col, |args| + 1));
    assert Values(st + [x]) == Values(st) + [x.value];
  }

  // ---- list handlers ---------------------------------------------------------------------

  const RESOURCES_HEAD :=
    "SELECT account_alias, region, resource_type, resource_id, name, fetched_at\n\t\t\tFROM resources WHERE 1=1"
  const RESOURCES_TAIL := " ORDER BY fetched_at DESC LIMIT 500"

  const ALERTS_HEAD :=
    "SELECT id, alert_id, account_alias, region, severity, status,\n" +
    "\t\t\tCOALESCE(name,''), created_at\n\t\t\tFROM alerts WHERE 1=1"
  const ALERTS_TAIL := " ORDER BY created_at DESC LIMIT $"

  const RULES_HEAD :=
    "SELECT id, account_alias, name, severity, metric, threshold, channel, enabled,\n" +
    "\t\t\tcreated_at::text, updated_at::text FROM alert_rules WHERE 1=1"
  const RULES_TAIL := " ORDER BY id DESC LIMIT 500"

  /** The conditions read after a query's fixed head, and the text after them. */
  function ReadSelect(head: string, sql: string): (r: Option<(seq<Pair>, string)>) {
    if head <= sql then Some(ReadWhere(sql[|head|..])) else None
  }

  /** Placeholders are numbered from one, each used once. */
  predicate NumberedFromOne(pairs: seq<Pair>) {
    forall j :: 0 <= j < |pairs| ==> pairs[j].arg == j + 1
  }

  /** What a finished query means: read back, it is conditions that exactly the wanted rows pass, and then rest. */
  ghost predicate Selects(head: string, sql: string, args: seq<Value>, filters: seq<(string, string)>, rest: string,
                          extra: nat) {
    var q := ReadSelect(head, sql);
    && q.Some? && q.value.1 == rest
    && NumberedFromOne(q.value.0) && |args| == |q.value.0| + extra
    && forall row :: Passes(q.value.0, args, row) <==> MeetsAll(filters, row)
  }

  lemma AfterHead(head: string, body: string, rest: string)
    ensures head <= head + body + rest && (head + body + rest)[|head|..] == body + rest
  {
  }

  lemma BuiltReads(head: string, sql: string, args: seq<Value>, filters: seq<(string, string)>, rest: string)
    requires Built(head, sql, args, filters) && FilterNamesOk(filters) && Stops(rest)
    ensures ReadSelect(head, sql + rest) == Some((Pairs(Given(filters), 1), rest))
  {
    GivenNamesOk(filters);
    ReadWhereOf(Given(filters), 1, rest);
    AfterHead(head, WhereText(Given(filters), 1), rest);
  }

  lemma BuiltSelects(head: string, sql: string, args: seq<Value>, filters: seq<(string, string)>, rest: string,
                     extra: seq<Value>)
    requires Built(head, sql, args, filters) && FilterNamesOk(filters) && Stops(rest)
    ensures Selects(head, sql + rest, args + extra, filters, rest, |extra|)
  {
    BuiltReads(head, sql, args, filters, rest);
    forall row ensures Passes(Pairs(Given(filters), 1), args + extra, row) <==> MeetsAll(filters, row) {
      PassesIsMeets(Given(filters), extra, row);
      MeetsGiven(filters, row);
    }
  }

  /** The filters of each handler: the column, and the request's parameter. */
  function ResourceFilters(account: string, region: string, rtype: string): (r: seq<(string, string)>) {
    [("account_alias", account), ("region", region), ("resource_type", rtype)]
  }

  function AlertFilters(account: string, status: string): (r: seq<(string, string)>) {
    [("account_alias", account), ("status", status)]
  }

  function RuleFilters(account: string): (r: seq<(string, string)>) { [("account_alias", account)] }

  lemma FilterFacts(account: string, region: string, rtype: string, status: string)
    ensures FilterNamesOk(ResourceFilters(account, region, rtype))
    ensures FilterNamesOk(AlertFilters(account, status)) && FilterNamesOk(RuleFilters(account))
    ensures Stops(RESOURCES_TAIL) && Stops(RULES_TAIL)
  {
    assert RESOURCES_TAIL[1] == 'O' && RULES_TAIL[1] == 'O' && AND[1] == 'A';
  }

  method ListResourcesQuery(account: string, region: string, rtype: string) returns (sql: string, args: seq<Value>)
    ensures Selects(RESOURCES_HEAD, sql, args, ResourceFilters(account, region, rtype), RESOURCES_TAIL, 0)
  {
    FilterFacts(account, region, rtype, "");
    sql, args := RESOURCES_HEAD, [];
    ghost var f1, f2 := [("account_alias", account)], [("account_alias", account), ("region", region)];
    assert [] + f1 == f1 && f1 + [("region", region)] == f2;
    assert f2 + [("resource_type", rtype)] == ResourceFilters(account, region, rtype);
    sql, args := AddFilter(RESOURCES_HEAD, sql, args, "account_alias", account, []);
    sql, args := AddFilter(RESOURCES_HEAD, sql, args, "region", region, f1);
    sql, args := AddFilter(RESOURCES_HEAD, sql, args, "resource_type", rtype, f2);
    sql := FinishSelect(RESOURCES_HEAD, sql, args, ResourceFilters(account, region, rtype), RESOURCES_TAIL);
  }

  method FinishSelect(head: string, sql: string, args: seq<Value>, ghost filters: seq<(string, string)>,
                      tail: string) returns (sql2: string)
    requires Built(head, sql, args, filters) && FilterNamesOk(filters) && Stops(tail)
    ensures Selects(head, sql2, args, filters, tail, 0)
  {
    BuiltSelects(head, sql, args, filters, tail, []);
    assert args + [] == args;
    sql2 := sql + tail;
  }

  /** The placeholder at the end of an alerts query. */
  function ReadLimit(rest: string): (r: Option<nat>) {
    if ALERTS_TAIL <= rest && AllDigits(rest[|ALERTS_TAIL|..]) then Some(Numerals.Value(rest[|ALERTS_TAIL|..]))
        else None
  }

  /** The last argument, which the text's last placeholder names, is the limit: the number asked for, or 50. */
  method ListAlertsQuery(account: string, status: string, limit: string) returns (sql: string, args: seq<Value>)
    ensures Selects(ALERTS_HEAD, sql, args, AlertFilters(account, status), ALERTS_TAIL + Numeral(|args|), 1)
    ensures ReadLimit(ALERTS_TAIL + Numeral(|args|)) == Some(|args|)
    ensures Arg(args, |args|) == Some(Number(Parsed(limit, 50)))
  {
    var n := AtoiDefault(limit, 50);
    FilterFacts(account, "", "", status);
    sql, args := ALERTS_HEAD, [];
    ghost var f1 := [("account_alias", account)];
    assert [] + f1 == f1 && f1 + [("status", status)] == AlertFilters(account, status);
    sql, args := AddFilter(ALERTS_HEAD, sql, args, "account_alias", account, []);
    sql, args := AddFilter(ALERTS_HEAD, sql, args, "status", status, f1);
    sql, args := AddLimit(sql, args, n, AlertFilters(account, status));
  }

  method AddLimit(sql: string, args: seq<Value>, n: int, ghost filters: seq<(string, string)>)
      returns (sql2: string, args2: seq<Value>)
    requires Built(ALERTS_HEAD, sql, args, filters) && FilterNamesOk(filters) && |args| < LIMIT - 1
    ensures Selects(ALERTS_HEAD, sql2, args2, filters, ALERTS_TAIL + Numeral(|args2|), 1)
    ensures args2 == args + [Number(n)] && ReadLimit(ALERTS_TAIL + Numeral(|args2|)) == Some(|args2|)
  {
    args2 := args + [Number(n)];
    var last := Itoa(|args2|);
    LimitOf(|args2|);
    BuiltSelects(ALERTS_HEAD, sql, args, filters, ALERTS_TAIL + last, [Number(n)]);
    Assoc(sql, ALERTS_TAIL, last);
    sql2 := sql + ALERTS_TAIL + last;
  }

  lemma LimitOf(n: nat)
    ensures ReadLimit(ALERTS_TAIL + Numeral(n)) == Some(n) && Stops(ALERTS_TAIL + Numeral(n))
  {
    var rest := ALERTS_TAIL + Numeral(n);
    assert rest[|ALERTS_TAIL|..] == Numeral(n);
    ValueOfNumeral(n);
    assert rest[1] == 'O' && AND[1] == 'A';
  }

  method ListRulesQuery(account: string) returns (sql: string, args: seq<Value>)
    ensures Selects(RULES_HEAD, sql, args, RuleFilters(account), RULES_TAIL, 0)
  {
    assert [] + [("account_alias", account)] == RuleFilters(account);
    FilterFacts(account, "", "", "");
    sql, args := RULES_HEAD, [];
    sql, args := AddFilter(RULES_HEAD, sql, args, "account_alias", account, []);
    sql := FinishSelect(RULES_HEAD, sql, args, RuleFilters(account), RULES_TAIL);
  }

  // ---- updates ---------------------------------------------------------------------------

  const UPDATE_HEAD := "UPDATE alert_rules SET "
  const TOUCH := "updated_at=now()"
  const WHERE := " WHERE "
  const SEPARATOR := ", "

  /** One assignment of a SET clause: from an argument, or the current time. */
  datatype Assign = FromArg(col: string, arg: nat) | Current(col: string)

  function ReadAssign(s: string): (r: Option<(Assign, string)>) {
    var n := NameLength(s);
    if ReadPair(s).Some? then Some((FromArg(ReadPair(s).value.0.col, ReadPair(s).value.0.arg), ReadPair(s).value.1))
    else if "=now()" <= s[n..] then Some((Current(s[..n]), s[n..][6..]))
    else None
  }

  /** Reading assignments between separators. */
  function ReadAssigns(s: string): (r: Option<(seq<Assign>, string)>)
    decreases |s|
  {
    var a := ReadAssign(s);
    if a.None? then None
    else if SEPARATOR <= a.value.1 && |a.value.1| < |s| then (
      var more := ReadAssigns(a.value.1[2..]);
      if more.None? then None else Some(([a.value.0] + more.value.0, more.value.1)))
    else Some(([a.value.0], a.value.1))
  }

  /** An update read back: its assignments and the placeholder of the id. */
  function ReadUpdate(sql: string): (r: Option<(seq<Assign>, nat)>) {
    if !(UPDATE_HEAD <= sql) then None else (
      var sets := ReadAssigns(sql[|UPDATE_HEAD|..]);
      if sets.None? || !(WHERE <= sets.value.1) then None else (
        var id := ReadPair(sets.value.1[7..]);
        if id.None? || id.value.0.col != "id" || id.value.1 != "" then None
        else Some((sets.value.0, id.value.0.arg))))
  }

  /** A row after some assignments, or None when one names an argument that is not there. */
  function Assigned(assigns: seq<Assign>, args: seq<Value>, row: Row): (r: Option<Row>) {
    if assigns == [] then Some(row) else (
      var front, a := Assigned(assigns[..|assigns| - 1], args, row), assigns[|assigns| - 1];
      if front.None? then None
      else if a.Current? then Some(front.value[a.col := Now])
      else if Arg(args, a.arg).None? then None
      else Some(front.value[a.col := Arg(args, a.arg).value]))
  }

  /** What an update makes of a row. */
  function Updated(sql: string, args: seq<Value>, row: Row): (r: Option<Row>) {
    var u := ReadUpdate(sql);
    if u.None? || Arg(args, u.value.1).None? then None
    else if Arg(args, u.value.1).value == Column(row, "id") then Assigned(u.value.0, args, row)
    else Some(row)
  }

  // ---- writing an update -----------------------------------------------------------------

  function Joined(parts: seq<string>): (r: string) {
    if parts == [] then "" else if |parts| == 1 then parts[0] else parts[0] + SEPARATOR + Joined(parts[1..])
  }

  lemma {:induction false} JoinedPush(parts: seq<string>, p: string)
    requires parts != []
    ensures Joined(parts + [p]) == Joined(parts) + SEPARATOR + p
  {
    assert (parts + [p])[0] == parts[0];
    if |parts| == 1 {
      assert (parts + [p])[1..] == [p];
    } else {
      JoinedPush(parts[1..], p);
      assert (parts + [p])[1..] == parts[1..] + [p];
      JoinedRegroup(parts[0], Joined(parts[1..]), p);
    }
  }

  lemma JoinedRegroup(a: string, b: string, c: string)
    ensures a + SEPARATOR + (b + SEPARATOR + c) == a + SEPARATOR + b + SEPARATOR + c
  {
  }

  method JoinComma(parts: seq<string>) returns (out: string)
    ensures out == Joined(parts)
  {
    out := "";
    var i := 0;
    while i < |parts|
      invariant i <= |parts| && out == Joined(parts[..i])
    {
      assert parts[..i + 1] == parts[..i] + [parts[i]];
      if i > 0 {
        JoinedPush(parts[..i], parts[i]);
        out := out + ", ";
      }
      out := out + parts[i];
      i := i + 1;
    }
    assert parts[..i] == parts;
  }

  /** The pieces of a SET clause for some settings, numbered from i. */
  function SetTexts(settings: seq<Setting>, i: nat): (r: seq<string>) {
    seq(|settings|, j requires 0 <= j < |settings| => PairText(settings[j].col, i + j))
  }

  function Assigns(settings: seq<Setting>, i: nat): (r: seq<Assign>) {
    seq(|settings|, j requires 0 <= j < |settings| => FromArg(settings[j].col, i + j))
  }

  lemma ReadAssignOf(col: string, arg: nat, rest: string)
    requires IsName(col) && (rest != "" ==> !IsDigit(rest[0]))
    ensures ReadAssign(PairText(col, arg) + rest) == Some((FromArg(col, arg), rest))
  {
    ReadPairOf(col, arg, rest);
  }

  lemma ReadTouch(rest: string)
    ensures ReadAssign(TOUCH + rest) == Some((Current("updated_at"), rest))
  {
    var name, after := "updated_at", "=now()" + rest;
    assert TOUCH + rest == name + after;
    NameLengthOf(name, after);
    assert (name + after)[|name|..] == after && (name + after)[..|name|] == name;
    assert after[1] == 'n' && after[..2] != "=$";
    assert after[6..] == rest;
  }

  lemma ReadLast(rest: string)
    requires !(SEPARATOR <= rest)
    ensures ReadAssigns(TOUCH + rest) == Some(([Current("updated_at")], rest))
  {
    ReadTouch(rest);
  }

  /** An assignment, a separator, and more assignments. */
  lemma ReadAssignsStep(col: string, arg: nat, tail: string)
    requires IsName(col) && ReadAssigns(tail).Some?
    ensures ReadAssigns(PairText(col, arg) + (SEPARATOR + tail))
      == Some(([FromArg(col, arg)] + ReadAssigns(tail).value.0, ReadAssigns(tail).value.1))
  {
    var rest := SEPARATOR + tail;
    assert rest[0] == ',' && rest[..2] == SEPARATOR && rest[2..] == tail;
    ReadAssignOf(col, arg, rest);
  }

  lemma AssignsFront(settings: seq<Setting>, i: nat)
    requires settings != []
    ensures Assigns(settings, i) == [FromArg(settings[0].col, i)] + Assigns(settings[1..], i + 1)
    ensures SetTexts(settings, i) == [PairText(settings[0].col, i)] + SetTexts(settings[1..], i + 1)
  {
  }

  function SetsTail(rest: string): (r: string) { SEPARATOR + (TOUCH + rest) }

  lemma JoinedFront(a: string, b: string, c: string)
    ensures a + SEPARATOR + b + c == a + (SEPARATOR + (b + c))
  {
  }

  lemma JoinedSets(settings: seq<Setting>, i: nat, tail: string)
    requires |settings| > 1
    ensures Joined(SetTexts(settings, i)) + tail
      == PairText(settings[0].col, i) + (SEPARATOR + (Joined(SetTexts(settings[1..], i + 1)) + tail))
  {
    AssignsFront(settings, i);
    assert SetTexts(settings, i)[1..] == SetTexts(settings[1..], i + 1);
    JoinedFront(PairText(settings[0].col, i), Joined(SetTexts(settings[1..], i + 1)), tail);
  }

  lemma AssignsThen(settings: seq<Setting>, i: nat, last: Assign)
    requires settings != []
    ensures [FromArg(settings[0].col, i)] + (Assigns(settings[1..], i + 1) + [last]) == Assigns(settings, i) + [last]
  {
    AssignsFront(settings, i);
  }

  lemma ReadAssignsOne(x: Setting, i: nat, rest: string)
    requires IsName(x.col) && !(SEPARATOR <= rest)
    ensures ReadAssigns(Joined(SetTexts([x], i)) + SetsTail(rest))
        == Some((Assigns([x], i) + [Current("updated_at")], rest))
  {
    ReadLast(rest);
    ReadAssignsStep(x.col, i, TOUCH + rest);
    OneText(x, i);
  }

  lemma OneText(x: Setting, i: nat)
    ensures Joined(SetTexts([x], i)) == PairText(x.col, i)
    ensures Assigns([x], i) == [FromArg(x.col, i)]
  {
    assert SetTexts([x], i) == [PairText(x.col, i)];
  }

  /** The assignments written are the assignments read, and then the time. */
  lemma {:induction false} ReadAssignsOf(settings: seq<Setting>, i: nat, rest: string)
    requires NamesOk(settings) && settings != [] && !(SEPARATOR <= rest)
    ensures ReadAssigns(Joined(SetTexts(settings, i)) + SetsTail(rest))
      == Some((Assigns(settings, i) + [Current("updated_at")], rest))
  {
    if |settings| == 1 {
      assert settings == [settings[0]];
      ReadAssignsOne(settings[0], i, rest);
    } else {
      ReadAssignsOf(settings[1..], i + 1, rest);
      ReadAssignsStep(settings[0].col, i, Joined(SetTexts(settings[1..], i + 1)) + SetsTail(rest));
      JoinedSets(settings, i, SetsTail(rest));
      AssignsThen(settings, i, Current("updated_at"));
    }
  }

  function UpdateText(settings: seq<Setting>): (r: string) {
    UPDATE_HEAD + Joined(SetTexts(settings, 1)) + ", updated_at=now() WHERE id=$" + Numeral(|settings| + 1)
  }

  lemma IdText(n: nat)
    ensures ", updated_at=now() WHERE id=$" + Numeral(n) == SetsTail(WHERE + PairText("id", n))
  {
    assert ", updated_at=now() WHERE id=$" == SEPARATOR + TOUCH + WHERE + "id" + "=$";
  }

  lemma ReadIdOf(n: nat)
    ensures var rest := WHERE + PairText("id", n);
      WHERE <= rest && !(SEPARATOR <= rest) && ReadPair(rest[7..]) == Some((Pair("id", n), ""))
  {
    var rest := WHERE + PairText("id", n);
    assert rest[7..] == PairText("id", n) == PairText("id", n) + "";
    ReadPairOf("id", n, "");
    assert rest[0] == ' ' && SEPARATOR[0] == ',';
  }

  /** The whole text read back. */
  lemma ReadUpdateOf(settings: seq<Setting>)
    requires NamesOk(settings) && settings != []
    ensures ReadUpdate(UpdateText(settings)) == Some((Assigns(settings, 1) + [Current("updated_at")], |settings| + 1))
  {
    var n := |settings| + 1;
    var rest := WHERE + PairText("id", n);
    IdText(n);
    ReadIdOf(n);
    ReadAssignsOf(settings, 1, rest);
    UpdateSplit(UPDATE_HEAD, Joined(SetTexts(settings, 1)), ", updated_at=now() WHERE id=$", Numeral(n));
  }

  lemma UpdateSplit(a: string, b: string, c: string, d: string)
    ensures a <= a + b + c + d && (a + b + c + d)[|a|..] == b + (c + d)
  {
  }

  // ---- what an update does ---------------------------------------------------------------

  /** The value that the settings give a column, if they do. */
  function Supplied(settings: seq<Setting>, col: string): (r: Option<Value>) {
    if settings == [] then None else (
      var x := settings[|settings| - 1];
      if x.col == col then Some(x.value) else Supplied(settings[..|settings| - 1], col))
  }

  /** A row whose supplied columns have changed, and whose others have not. */
  ghost predicate Changed(settings: seq<Setting>, row: Row, row2: Row) {
    forall col :: Column(row2, col) == if Supplied(settings, col).Some? then Supplied(settings, col).value
        else Column(row, col)
  }

  lemma AssignsPush(settings: seq<Setting>, n: nat)
    requires n < |settings|
    ensures Assigns(settings[..n + 1], 1) == Assigns(settings[..n], 1) + [FromArg(settings[n].col, n + 1)]
  {
  }

  lemma {:induction false} AssignedSupplied(settings: seq<Setting>, n: nat, args: seq<Value>, row: Row)
    requires n <= |settings| <= |args| && forall j :: 0 <= j < |settings| ==> args[j] == settings[j].value
    ensures var r := Assigned(Assigns(settings[..n], 1), args, row);
      r.Some? && Changed(settings[..n], row, r.value)
  {
    if n > 0 {
      AssignedSupplied(settings, n - 1, args, row);
      OneMoreAssigned(settings, n - 1, args, row);
    }
  }

  lemma OneMoreAssigned(settings: seq<Setting>, n: nat, args: seq<Value>, row: Row)
    requires n < |settings| <= |args| && args[n] == settings[n].value
    requires var r := Assigned(Assigns(settings[..n], 1), args, row); r.Some? && Changed(settings[..n], row, r.value)
    ensures var r := Assigned(Assigns(settings[..n + 1], 1), args, row);
      r.Some? && Changed(settings[..n + 1], row, r.value)
  {
    var r := Assigned(Assigns(settings[..n], 1), args, row);
    AssignsPush(settings, n);
    AssignedStep(Assigns(settings[..n], 1), settings[n].col, n + 1, args, row);
    ChangedStep(settings[..n], settings[n], row, r.value);
    assert settings[..n + 1] == settings[..n] + [settings[n]];
  }

  lemma AssignedStep(assigns: seq<Assign>, col: string, n: nat, args: seq<Value>, row: Row)
    requires 1 <= n <= |args| && Assigned(assigns, args, row).Some?
    ensures Assigned(assigns + [FromArg(col, n)], args, row)
        == Some(Assigned(assigns, args, row).value[col := args[n - 1]])
  {
    assert (assigns + [FromArg(col, n)])[..|assigns|] == assigns;
  }

  lemma ChangedStep(settings: seq<Setting>, x: Setting, row: Row, row1: Row)
    requires Changed(settings, row, row1)
    ensures Changed(settings + [x], row, row1[x.col := x.value])
  {
    assert (settings + [x])[..|settings|] == settings;
    forall col ensures Column(row1[x.col := x.value], col)
        == if Supplied(settings + [x], col).Some? then Supplied(settings + [x], col).value else Column(row, col) {
    }
  }

  /**
    What the update's text and arguments do to a row: nothing unless it has the id, and then exactly the
    supplied columns and the time.
  */
  lemma UpdateMeans(settings: seq<Setting>, id: int, row: Row)
    requires NamesOk(settings) && settings != []
    ensures var row2 := Updated(UpdateText(settings), Values(settings) + [Number(id)], row);
      && row2.Some?
      && (Column(row, "id") != Number(id) ==> row2.value == row)
      && (Column(row, "id") == Number(id) ==> Changed(settings + [Setting("updated_at", Now)], row, row2.value))
  {
    ReadUpdateOf(settings);
    AssignedAll(settings, id, row);
    assert Arg(Values(settings) + [Number(id)], |settings| + 1) == Some(Number(id));
  }

  lemma AssignedAll(settings: seq<Setting>, id: int, row: Row)
    ensures var r := Assigned(Assigns(settings, 1) + [Current("updated_at")], Values(settings) + [Number(id)], row);
      r.Some? && Changed(settings + [Setting("updated_at", Now)], row, r.value)
  {
    var args, assigns := Values(settings) + [Number(id)], Assigns(settings, 1);
    assert settings[..|settings|] == settings;
    AssignedSupplied(settings, |settings|, args, row);
    assert (assigns + [Current("updated_at")])[..|assigns|] == assigns;
    ChangedStep(settings, Setting("updated_at", Now), row, Assigned(assigns, args, row).value);
  }

  // ---- the update handler ----------------------------------------------------------------

  datatype UpdateReq = UpdateReq(
    name: Option<string>, severity: Option<string>, metric: Option<string>,
    threshold: Option<real>, channel: Option<string>, enabled: Option<bool>)

  /** What a request gives the column, if it gives it anything. */
  function Requested(req: UpdateReq, col: string): (r: Option<Value>) {
    match col
    case "name" => if req.name.Some? then Some(Text(req.name.value)) else None
    case "severity" => if req.severity.Some? then Some(Text(req.severity.value)) else None
    case "metric" => if req.metric.Some? then Some(Text(req.metric.value)) else None
    case "threshold" => if req.threshold.Some? then Some(Real(req.threshold.value)) else None
    case "channel" => if req.channel.Some? then Some(Json(req.channel.value)) else None
    case "enabled" => if req.enabled.Some? then Some(Bool(req.enabled.value)) else None
    case _ => None
  }

  const UPDATE_COLUMNS := ["name", "severity", "metric", "threshold", "channel", "enabled"]

  /** The settings that a request supplies, over the first n columns. */
  function SettingsOf(req: UpdateReq, n: nat): (r: seq<Setting>)
    requires n <= |UPDATE_COLUMNS|
  {
    if n == 0 then [] else (
      var col := UPDATE_COLUMNS[n - 1];
      var v := Requested(req, col);
      SettingsOf(req, n - 1) + (if v.Some? then [Setting(col, v.value)] else []))
  }

  lemma {:induction false} SuppliedIsRequested(req: UpdateReq, n: nat, col: string)
    requires n <= |UPDATE_COLUMNS|
    ensures Supplied(SettingsOf(req, n), col) == if col in UPDATE_COLUMNS[..n] then Requested(req, col) else None
  {
    if n > 0 {
      SuppliedIsRequested(req, n - 1, col);
      assert UPDATE_COLUMNS[..n] == UPDATE_COLUMNS[..n - 1] + [UPDATE_COLUMNS[n - 1]];
      SuppliedPush(SettingsOf(req, n - 1), UPDATE_COLUMNS[n - 1], Requested(req, UPDATE_COLUMNS[n - 1]), col);
    }
  }

  lemma SuppliedPush(settings: seq<Setting>, c: string, v: Option<Value>, col: string)
    ensures Supplied(settings + (if v.Some? then [Setting(c, v.value)] else []), col)
      == if v.Some? && c == col then v else Supplied(settings, col)
  {
    if v.Some? {
      assert (settings + [Setting(c, v.value)])[..|settings|] == settings;
    } else {
      assert settings + [] == settings;
    }
  }

  lemma AllColumns(req: UpdateReq, col: string)
    ensures Requested(req, col).Some? ==> col in UPDATE_COLUMNS
  {
    assert UPDATE_COLUMNS[0] == "name" && UPDATE_COLUMNS[1] == "severity" && UPDATE_COLUMNS[2] == "metric";
    assert UPDATE_COLUMNS[3] == "threshold" && UPDATE_COLUMNS[4] == "channel" && UPDATE_COLUMNS[5] == "enabled";
  }

  lemma SuppliedExactly(req: UpdateReq, col: string)
    ensures Supplied(SettingsOf(req, |UPDATE_COLUMNS|), col) == Requested(req, col)
  {
    SuppliedIsRequested(req, |UPDATE_COLUMNS|, col);
    AllColumns(req, col);
    assert UPDATE_COLUMNS[..|UPDATE_COLUMNS|] == UPDATE_COLUMNS;
  }

  lemma {:induction false} SettingNames(req: UpdateReq, n: nat)
    requires n <= |UPDATE_COLUMNS|
    ensures NamesOk(SettingsOf(req, n)) && |SettingsOf(req, n)| <= n
  {
    if n > 0 {
      SettingNames(req, n - 1);
      ColumnNames(n - 1);
    }
  }

  lemma ColumnNames(k: nat)
    requires k < |UPDATE_COLUMNS|
    ensures IsName(UPDATE_COLUMNS[k])
  {
    assert UPDATE_COLUMNS[0] == "name" && UPDATE_COLUMNS[1] == "severity" && UPDATE_COLUMNS[2] == "metric";
    assert UPDATE_COLUMNS[3] == "threshold" && UPDATE_COLUMNS[4] == "channel" && UPDATE_COLUMNS[5] == "enabled";
    assert IsName("name") && IsName("severity") && IsName("metric");
    assert IsName("threshold") && IsName("channel") && IsName("enabled");
  }

  /** The pieces and arguments of the first n columns. */
  ghost predicate Collected(req: UpdateReq, n: nat, sets: seq<string>, args: seq<Value>)
    requires n <= |UPDATE_COLUMNS|
  {
    sets == SetTexts(SettingsOf(req, n), 1) && args == Values(SettingsOf(req, n))
  }

  /** One optional field. */
  method AddSet(sets: seq<string>, args: seq<Value>, col: string, value: Option<Value>, ghost req: UpdateReq,
                ghost n: nat)
    returns (sets2: seq<string>, args2: seq<Value>)
    requires n < |UPDATE_COLUMNS| && col == UPDATE_COLUMNS[n] && value == Requested(req, col)
    requires Collected(req, n, sets, args)
    ensures Collected(req, n + 1, sets2, args2)
  {
    sets2, args2 := sets, args;
    SettingNames(req, n);
    if value.Some? {
      args2 := args2 + [value.value];
      var k := Itoa(|args2|);
      sets2 := sets2 + [col + "=$" + k];
      assert sets2[|sets|] == PairText(col, 1 + |sets|);
    }
  }

  /** What a column of the updated row must hold. */
  function Asked(req: UpdateReq, row: Row, col: string): (r: Value) {
    if col == "updated_at" then Now
    else if Requested(req, col).Some? then Requested(req, col).value
    else Column(row, col)
  }

  /** What the update a request asks for must do to a row. */
  ghost predicate UpdatedAsAsked(req: UpdateReq, id: int, row: Row, row2: Row) {
    if Column(row, "id") != Number(id) then row2 == row else forall col :: Column(row2, col) == Asked(req, row, col)
  }

  lemma ChangedIsAsked(req: UpdateReq, id: int, row: Row, row2: Row)
    requires Changed(SettingsOf(req, |UPDATE_COLUMNS|) + [Setting("updated_at", Now)], row, row2)
    requires Column(row, "id") == Number(id)
    ensures UpdatedAsAsked(req, id, row, row2)
  {
    var st := SettingsOf(req, |UPDATE_COLUMNS|);
    forall col ensures Column(row2, col) == Asked(req, row, col) {
      SuppliedExactly(req, col);
      SuppliedPush(st, "updated_at", Some(Now), col);
    }
  }

  /** The fields in the handler's order. */
  method CollectSets(req: UpdateReq) returns (sets: seq<string>, args: seq<Value>)
    ensures Collected(req, |UPDATE_COLUMNS|, sets, args)
  {
    sets := [];
    args := [];
    assert UPDATE_COLUMNS[0] == "name" && UPDATE_COLUMNS[1] == "severity" && UPDATE_COLUMNS[2] == "metric";
    assert UPDATE_COLUMNS[3] == "threshold" && UPDATE_COLUMNS[4] == "channel" && UPDATE_COLUMNS[5] == "enabled";
    sets, args := AddSet(sets, args, "name", if req.name.Some? then Some(Text(req.name.value)) else None, req, 0);
    sets, args := AddSet(sets, args, "severity", if req.severity.Some? then Some(Text(req.severity.value))
        else None, req, 1);
    sets, args := AddSet(sets, args, "metric", if req.metric.Some? then Some(Text(req.metric.value)) else None, req, 2);
    sets, args := AddSet(sets, args, "threshold", if req.threshold.Some? then Some(Real(req.threshold.value))
        else None, req, 3);
    sets, args := AddSet(sets, args, "channel", if req.channel.Some? then Some(Json(req.channel.value)) else None,
        req, 4);
    sets, args := AddSet(sets, args, "enabled", if req.enabled.Some? then Some(Bool(req.enabled.value)) else None,
        req, 5);
  }

  /** No statement exactly when nothing is supplied; otherwise one that, read back, changes exactly what was asked. */
  method UpdateRuleQuery(req: UpdateReq, id: int) returns (ok: bool, sql: string, args: seq<Value>)
    ensures ok <==> exists col :: Requested(req, col).Some?
    ensures ok ==> forall row ::
      Updated(sql, args, row).Some? && UpdatedAsAsked(req, id, row, Updated(sql, args, row).value)
  {
    var sets;
    sets, args := CollectSets(req);
    ghost var settings := SettingsOf(req, |UPDATE_COLUMNS|);
    SomethingSupplied(req);
    ok := |sets| != 0;
    sql := "";
    if !ok { return; }
    args := args + [Number(id)];
    sql := BuildUpdate(sets, |args|, req);
    forall row ensures Updated(sql, args, row).Some? && UpdatedAsAsked(req, id, row, Updated(sql, args, row).value) {
      UpdateAsAsked(req, id, row);
    }
  }

  method BuildUpdate(sets: seq<string>, n: nat, ghost req: UpdateReq) returns (sql: string)
    requires sets == SetTexts(SettingsOf(req, |UPDATE_COLUMNS|), 1) && n == |sets| + 1
    ensures sql == UpdateText(SettingsOf(req, |UPDATE_COLUMNS|))
  {
    SettingNames(req, |UPDATE_COLUMNS|);
    var joined := JoinComma(sets);
    var k := Itoa(n);
    sql := "UPDATE alert_rules SET " + joined + ", updated_at=now() WHERE id=$" + k;
  }

  lemma UpdateAsAsked(req: UpdateReq, id: int, row: Row)
    requires SettingsOf(req, |UPDATE_COLUMNS|) != []
    ensures var settings := SettingsOf(req, |UPDATE_COLUMNS|);
      var row2 := Updated(UpdateText(settings), Values(settings) + [Number(id)], row);
      row2.Some? && UpdatedAsAsked(req, id, row, row2.value)
  {
    SettingNames(req, |UPDATE_COLUMNS|);
    UpdateMeans(SettingsOf(req, |UPDATE_COLUMNS|), id, row);
    var settings := SettingsOf(req, |UPDATE_COLUMNS|);
    var row2 := Updated(UpdateText(settings), Values(settings) + [Number(id)], row).value;
    if Column(row, "id") == Number(id) { ChangedIsAsked(req, id, row, row2); }
  }

  lemma SomethingSupplied(req: UpdateReq)
    ensures SettingsOf(req, |UPDATE_COLUMNS|) != [] <==> exists col :: Requested(req, col).Some?
  {
    var settings := SettingsOf(req, |UPDATE_COLUMNS|);
    if settings != [] {
      var x := settings[|settings| - 1];
      SuppliedExactly(req, x.col);
      assert Requested(req, x.col).Some?;
    }
    if col :| Requested(req, col).Some? {
      SuppliedExactly(req, col);
    }
  }
}
