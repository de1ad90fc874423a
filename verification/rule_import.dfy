/** The `import_rules` management command: read the rule sheet and
    `get_or_create` one chatbot row per sheet row, counting the rows that
    were new. The command does not run in a transaction: rows created
    before an exception stay in the table. */
module RuleImport {
  import opened Wrappers
  import opened Text
  import opened Chatbot

  /** One sheet row as `str(row[...])` renders its cells; `None` is a
      missing column, which raises `KeyError` when the row is read. */
  datatype SheetRow = SheetRow(rule: Option<string>, response: Option<string>)

  /** What the command finds at the sheet's path. */
  datatype Source = NoFile | Unreadable | Sheet(rows: seq<SheetRow>)

  datatype ImportError = ReadFailed | MissingColumn | MultipleObjectsReturned(rule: string)

  /** The line the command writes. */
  datatype Report = FileNotFound | Imported(count: nat) | Failed(error: ImportError)

  /** How many rows of the table have this rule. */
  function Count(table: seq<Rule>, rule: string): nat {
    if table == [] then 0
    else Count(table[..|table| - 1], rule) + (if table[|table| - 1].rule == rule then 1 else 0)
  }

  lemma CountAppend(table: seq<Rule>, x: Rule, rule: string)
    ensures Count(table + [x], rule) == Count(table, rule) + (if x.rule == rule then 1 else 0)
  {
    assert (table + [x])[..|table|] == table;
  }

  /** A rule occurs in the table exactly when it is counted. */
  lemma {:induction false} CountPositive(table: seq<Rule>, rule: string)
    ensures Count(table, rule) > 0 <==> exists i :: 0 <= i < |table| && table[i].rule == rule
  {
    if table != [] {
      var init := table[..|table| - 1];
      CountPositive(init, rule);
      if exists i :: 0 <= i < |init| && init[i].rule == rule {
        var i :| 0 <= i < |init| && init[i].rule == rule;
        assert table[i].rule == rule;
      }
      if exists i :: 0 <= i < |table| && table[i].rule == rule {
        var i :| 0 <= i < |table| && table[i].rule == rule;
        if i < |init| {
          assert init[i].rule == rule;
        }
      }
    }
  }

  /** The state after one `get_or_create`, and whether a row was created. */
  datatype Step = Step(table: seq<Rule>, created: bool)

  /** `Chatbot.objects.get_or_create(rule=rule, defaults={'response': response})`:
      no row with the rule — append one; exactly one — return it; more than
      one — `MultipleObjectsReturned`. */
  function GetOrCreate(table: seq<Rule>, rule: string, response: string): (r: Result<Step, ImportError>)
    ensures r.Ok? <==> Count(table, rule) <= 1
    ensures r.Ok? ==> Count(r.value.table, rule) == 1
    ensures r.Ok? ==> (r.value.created <==> Count(table, rule) == 0)
    ensures r.Ok? && r.value.created ==> r.value.table == table + [Rule(rule, response)]
    ensures r.Ok? && !r.value.created ==> r.value.table == table
  {
    var n := Count(table, rule);
    if n == 0 then
      CountAppend(table, Rule(rule, response), rule);
      Ok(Step(table + [Rule(rule, response)], true))
    else if n == 1 then Ok(Step(table, false))
    else Err(MultipleObjectsReturned(rule))
  }

  /** The loop's effect: the final table, the number of rows created, and
      the exception that stopped it, if any. */
  datatype Outcome = Outcome(table: seq<Rule>, created: nat, error: Option<ImportError>)

  /** Reads one sheet row: both cells stripped, or the `KeyError`. */
  function ReadRow(row: SheetRow): Result<Rule, ImportError> {
    if row.rule.None? || row.response.None? then Err(MissingColumn)
    else Ok(Rule(Strip(row.rule.value), Strip(row.response.value)))
  }

  /** The import of `rows` into `table`, row by row. */
  function ImportRows(table: seq<Rule>, rows: seq<SheetRow>): Outcome
    decreases |rows|
  {
    if rows == [] then Outcome(table, 0, None)
    else match ReadRow(rows[0])
      case Err(e) => Outcome(table, 0, Some(e))
      case Ok(r) =>
        match GetOrCreate(table, r.rule, r.response)
        case Err(e) => Outcome(table, 0, Some(e))
        case Ok(step) =>
          var rest := ImportRows(step.table, rows[1..]);
          Outcome(rest.table, rest.created + (if step.created then 1 else 0), rest.error)
  }

  /** Helper: a row that reads and whose `get_or_create` succeeds is
      followed by the import of the remaining rows. */
  lemma ImportStep(table: seq<Rule>, rows: seq<SheetRow>)
    requires rows != [] && ReadRow(rows[0]).Ok?
    requires GetOrCreate(table, ReadRow(rows[0]).value.rule, ReadRow(rows[0]).value.response).Ok?
    ensures var step := GetOrCreate(table, ReadRow(rows[0]).value.rule, ReadRow(rows[0]).value.response).value;
            var rest := ImportRows(step.table, rows[1..]);
            ImportRows(table, rows) == Outcome(rest.table, rest.created + (if step.created then 1 else 0), rest.error)
  {
  }

  /** The command's line for an outcome. */
  function ReportOf(o: Outcome): (rep: Report)
    ensures rep.Imported? <==> o.error.None?
  {
    match o.error
    case None => Imported(o.created)
    case Some(e) => Failed(e)
  }

  // ---------------------------------------------------------------------
  // Properties of the import

  /** Existing rows are never changed or removed; exactly `created` rows are
      appended, none of them with a rule the table already had. */
  lemma {:induction false} ImportAppendsNewRules(table: seq<Rule>, rows: seq<SheetRow>)
    ensures var o := ImportRows(table, rows);
            && table <= o.table
            && |o.table| == |table| + o.created
            && (forall i :: |table| <= i < |o.table| ==> Count(table, o.table[i].rule) == 0)
            && (forall i, j :: |table| <= i < j < |o.table| ==> o.table[i].rule != o.table[j].rule)
    decreases |rows|
  {
    if rows != [] && ReadRow(rows[0]).Ok? {
      var r := ReadRow(rows[0]).value;
      var g := GetOrCreate(table, r.rule, r.response);
      if g.Ok? {
        var t := g.value.table;
        ImportStep(table, rows);
        ImportAppendsNewRules(t, rows[1..]);
        assert table <= t && |t| == |table| + (if g.value.created then 1 else 0);
        StepKeepsAppendedFresh(table, t, ImportRows(t, rows[1..]).table, Rule(r.rule, r.response));
      }
    }
  }

  /** Helper: one `get_or_create` (which either left the table alone or
      appended `x`, a rule the table lacked) followed by appended fresh,
      distinct rules is itself an append of fresh, distinct rules. */
  lemma StepKeepsAppendedFresh(table: seq<Rule>, t: seq<Rule>, ot: seq<Rule>, x: Rule)
    requires t == table || (t == table + [x] && Count(table, x.rule) == 0)
    requires Count(t, x.rule) == 1
    requires t <= ot
    requires forall i :: |t| <= i < |ot| ==> Count(t, ot[i].rule) == 0
    requires forall i, j :: |t| <= i < j < |ot| ==> ot[i].rule != ot[j].rule
    ensures forall i :: |table| <= i < |ot| ==> Count(table, ot[i].rule) == 0
    ensures forall i, j :: |table| <= i < j < |ot| ==> ot[i].rule != ot[j].rule
  {
    forall i | |table| <= i < |ot|
      ensures Count(table, ot[i].rule) == 0
    {
      if i < |t| {
        assert ot[i] == t[i] == x;
      } else if t != table {
        CountAppend(table, x, ot[i].rule);
      }
    }
    forall i, j | |table| <= i < j < |ot|
      ensures ot[i].rule != ot[j].rule
    {
      if i < |t| {
        assert ot[i] == t[i] == x;
      }
    }
  }

  /** A successful import of a non-empty sheet is its first row's
      `get_or_create` followed by a successful import of the rest. */
  lemma SuccessfulStep(table: seq<Rule>, rows: seq<SheetRow>)
    requires rows != [] && ImportRows(table, rows).error.None?
    ensures ReadRow(rows[0]).Ok?
    ensures var r := ReadRow(rows[0]).value;
            var g := GetOrCreate(table, r.rule, r.response);
            && g.Ok?
            && ImportRows(g.value.table, rows[1..]).error.None?
            && ImportRows(g.value.table, rows[1..]).table == ImportRows(table, rows).table
  {
  }

  /** The exception one sheet row raises against table `t`, if any: its
      read, then its `get_or_create`. */
  function RowError(t: seq<Rule>, row: SheetRow): (e: Option<ImportError>)
    ensures e.None? <==> ReadRow(row).Ok? && Count(t, ReadRow(row).value.rule) <= 1
  {
    match ReadRow(row)
    case Err(e) => Some(e)
    case Ok(r) =>
      match GetOrCreate(t, r.rule, r.response)
      case Err(e) => Some(e)
      case Ok(_) => None
  }

  /** The import stopped at row `k`: the rows before it import without an
      exception into exactly the table the whole run leaves, and row `k`
      raises the run's exception against that table. */
  predicate StoppedAt(table: seq<Rule>, rows: seq<SheetRow>, k: nat)
    requires k < |rows|
  {
    var before := ImportRows(table, rows[..k]);
    && before.error.None?
    && before.table == ImportRows(table, rows).table
    && RowError(before.table, rows[k]) == ImportRows(table, rows).error
  }

  /** Helper: a failing import stops at some row. */
  lemma {:induction false} FailedImportStops(table: seq<Rule>, rows: seq<SheetRow>)
    requires ImportRows(table, rows).error.Some?
    ensures exists k :: 0 <= k < |rows| && StoppedAt(table, rows, k)
    decreases |rows|
  {
    var r := ReadRow(rows[0]);
    if r.Err? || GetOrCreate(table, r.value.rule, r.value.response).Err? {
      assert rows[..0] == [];
      assert StoppedAt(table, rows, 0);
    } else {
      var t := GetOrCreate(table, r.value.rule, r.value.response).value.table;
      ImportStep(table, rows);
      FailedImportStops(t, rows[1..]);
      var k :| 0 <= k < |rows[1..]| && StoppedAt(t, rows[1..], k);
      var pre := rows[..k + 1];
      assert pre[0] == rows[0] && pre[1..] == rows[1..][..k];
      ImportStep(table, pre);
      assert rows[k + 1] == rows[1..][k];
      assert StoppedAt(table, rows, k + 1);
    }
  }

  /** A failing import is not rolled back: it stops at some row, and every
      rule read before that row is in the table it leaves, exactly once. */
  lemma FailedImportKeepsPrefix(table: seq<Rule>, rows: seq<SheetRow>)
    requires ImportRows(table, rows).error.Some?
    ensures exists k :: 0 <= k < |rows| && StoppedAt(table, rows, k)
              && forall j :: 0 <= j < k ==>
                   ReadRow(rows[j]).Ok? && Count(ImportRows(table, rows).table, ReadRow(rows[j]).value.rule) == 1
  {
    FailedImportStops(table, rows);
    var k :| 0 <= k < |rows| && StoppedAt(table, rows, k);
    ImportedRulesAreSingle(table, rows[..k]);
    forall j | 0 <= j < k
      ensures ReadRow(rows[j]).Ok? && Count(ImportRows(table, rows).table, ReadRow(rows[j]).value.rule) == 1
    {
      assert rows[..k][j] == rows[j];
    }
  }

  /** A rule counted once stays counted once through a successful import. */
  lemma {:induction false} ImportKeepsSingles(table: seq<Rule>, rows: seq<SheetRow>, rule: string)
    requires Count(table, rule) == 1
    requires ImportRows(table, rows).error.None?
    ensures Count(ImportRows(table, rows).table, rule) == 1
    decreases |rows|
  {
    if rows != [] {
      SuccessfulStep(table, rows);
      var r := ReadRow(rows[0]).value;
      var t := GetOrCreate(table, r.rule, r.response).value.table;
      if t != table {
        CountAppend(table, Rule(r.rule, r.response), rule);
      }
      ImportKeepsSingles(t, rows[1..], rule);
    }
  }

  /** After a successful import every stripped sheet rule is in the table
      exactly once. */
  lemma {:induction false} ImportedRulesAreSingle(table: seq<Rule>, rows: seq<SheetRow>)
    requires ImportRows(table, rows).error.None?
    ensures forall k :: 0 <= k < |rows| ==>
      ReadRow(rows[k]).Ok? && Count(ImportRows(table, rows).table, ReadRow(rows[k]).value.rule) == 1
    decreases |rows|
  {
    if rows != [] {
      SuccessfulStep(table, rows);
      var r := ReadRow(rows[0]).value;
      var t := GetOrCreate(table, r.rule, r.response).value.table;
      var final := ImportRows(table, rows).table;
      ImportedRulesAreSingle(t, rows[1..]);
      ImportKeepsSingles(t, rows[1..], r.rule);
      assert final == ImportRows(t, rows[1..]).table;
      forall k | 0 <= k < |rows|
        ensures ReadRow(rows[k]).Ok? && Count(final, ReadRow(rows[k]).value.rule) == 1
      {
        if k == 0 {
          assert Count(final, r.rule) == 1;
        } else {
          assert rows[k] == rows[1..][k - 1];
        }
      }
    }
  }

  /** Rows whose rules are all already present exactly once create nothing
      and change nothing. */
  lemma {:induction false} ImportOfPresentRulesIsNoop(table: seq<Rule>, rows: seq<SheetRow>)
    requires forall k :: 0 <= k < |rows| ==> ReadRow(rows[k]).Ok? && Count(table, ReadRow(rows[k]).value.rule) == 1
    ensures ImportRows(table, rows) == Outcome(table, 0, None)
    decreases |rows|
  {
    if rows != [] {
      forall k | 0 <= k < |rows[1..]|
        ensures ReadRow(rows[1..][k]).Ok? && Count(table, ReadRow(rows[1..][k]).value.rule) == 1
      {
        assert rows[1..][k] == rows[k + 1];
      }
      ImportOfPresentRulesIsNoop(table, rows[1..]);
    }
  }

  /** Running the command twice on the same sheet: the second run reports
      zero new rules and leaves the table as the first run left it. */
  lemma ImportIsIdempotent(table: seq<Rule>, rows: seq<SheetRow>)
    requires ImportRows(table, rows).error.None?
    ensures var t := ImportRows(table, rows).table;
            ImportRows(t, rows) == Outcome(t, 0, None)
  {
    ImportedRulesAreSingle(table, rows);
    ImportOfPresentRulesIsNoop(ImportRows(table, rows).table, rows);
  }

  /** A table with no repeated rule keeps that property, so a later
      `get_or_create` never meets `MultipleObjectsReturned`. */
  lemma ImportKeepsRulesUnique(table: seq<Rule>, rows: seq<SheetRow>)
    requires forall x :: Count(table, x) <= 1
    ensures forall x :: Count(ImportRows(table, rows).table, x) <= 1
  {
    var o := ImportRows(table, rows);
    ImportAppendsNewRules(table, rows);
    forall x ensures Count(o.table, x) <= 1 {
      UniqueAfterAppend(table, o.table, x);
    }
  }

  /** Helper: appending rows with rules the prefix lacks, each rule once
      across the appended part, keeps every count at most one. */
  lemma {:induction false} UniqueAfterAppend(table: seq<Rule>, t: seq<Rule>, x: string)
    requires table <= t
    requires forall y :: Count(table, y) <= 1
    requires forall i :: |table| <= i < |t| ==> Count(table, t[i].rule) == 0
    requires forall i, j :: |table| <= i < j < |t| ==> t[i].rule != t[j].rule
    ensures Count(t, x) <= 1
    decreases |t|
  {
    if |t| > |table| {
      var init := t[..|t| - 1];
      UniqueAfterAppend(table, init, x);
      assert t == init + [t[|t| - 1]];
      CountAppend(init, t[|t| - 1], x);
      if t[|t| - 1].rule == x && Count(init, x) == 1 {
        CountPositive(init, x);
        var i :| 0 <= i < |init| && init[i].rule == x;
        assert t[i] == init[i];
        if i < |table| {
          assert table[i].rule == x;
          CountPositive(table, x);
        }
      }
    } else {
      assert t == table;
    }
  }

  /** The `CHATBOT` table, rows in primary-key order. */
  class ChatbotTable {
    var rows: seq<Rule>

    constructor (rows: seq<Rule>)
      ensures this.rows == rows
    {
      this.rows := rows;
    }

    /** `Command.handle`: a missing file is reported and nothing else
        happens; otherwise the sheet's rows are imported one by one until
        the end or the first exception, whose message is reported instead of
        the count. */
    method Handle(source: Source) returns (report: Report)
      modifies this
      ensures source.NoFile? ==> report == FileNotFound && rows == old(rows)
      ensures source.Unreadable? ==> report == Failed(ReadFailed) && rows == old(rows)
      ensures source.Sheet? ==>
                var o := ImportRows(old(rows), source.rows);
                rows == o.table && report == ReportOf(o)
    {
      match source
      case NoFile =>
        return FileNotFound;
      case Unreadable =>
        return Failed(ReadFailed);
      case Sheet(sheet) =>
        ghost var whole := ImportRows(rows, sheet);
        var count := 0;
        var i := 0;
        while i < |sheet|
          invariant 0 <= i <= |sheet|
          invariant ImportRows(rows, sheet[i..]).table == whole.table
          invariant ImportRows(rows, sheet[i..]).error == whole.error
          invariant ImportRows(rows, sheet[i..]).created + count == whole.created
        {
          assert sheet[i..][1..] == sheet[i + 1..];
          var cells := sheet[i];
          if cells.rule.None? || cells.response.None? {
            return Failed(MissingColumn);
          }
          var rule := Strip(cells.rule.value);
          var response := Strip(cells.response.value);
          var step := GetOrCreate(rows, rule, response);
          if step.Err? {
            return Failed(step.error);
          }
          rows := step.value.table;
          if step.value.created {
            count := count + 1;
          }
          i := i + 1;
        }
        report := Imported(count);
    }
  }
}
