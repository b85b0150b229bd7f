/** What a batch of projects is told about its rows before any of them is created. */
module BatchPreview {
  import opened Contracts
  import opened Ledgers
  import opened ProjectValidation
  import opened Results

  /** A row of the batch, as far as the preview looks at it. */
  datatype Row = Row(valid: bool, id: Id)

  datatype Code = BadSize | IllegalRow | AlreadyExists(id: Id)

  datatype RowError = RowError(row: nat, code: Code)

  /** The ids of the valid rows. */
  function ValidIds(rows: seq<Row>): set<Id> {
    set row | row in rows && row.valid :: row.id
  }

  /** What is wrong with a row: it is invalid, repeats the id of a valid row before it, or names an existing order. */
  function Problem(before: seq<Row>, row: Row, existing: seq<Id>): Option<Code> {
    if !row.valid || row.id in ValidIds(before) then Some(IllegalRow)
    else if row.id in existing then Some(AlreadyExists(row.id))
    else None
  }

  /** One error for every bad row, in the order of the rows, which count from 1. */
  function Problems(rows: seq<Row>, existing: seq<Id>): seq<RowError> {
    if rows == [] then []
    else
      var before := rows[..|rows| - 1];
      match Problem(before, rows[|rows| - 1], existing)
      case None => Problems(before, existing)
      case Some(code) => Problems(before, existing) + [RowError(|rows|, code)]
  }

  /** Every bad row is reported once, with its own problem, and no other row is. */
  lemma {:induction false} ProblemsByRow(rows: seq<Row>, existing: seq<Id>, e: RowError)
    ensures e in Problems(rows, existing) <==>
            1 <= e.row <= |rows| && Problem(rows[..e.row - 1], rows[e.row - 1], existing) == Some(e.code)
  {
    if rows != [] {
      var before := rows[..|rows| - 1];
      ProblemsByRow(before, existing, e);
      if 1 <= e.row < |rows| {
        assert before[..e.row - 1] == rows[..e.row - 1];
      }
    }
  }

  predicate DistinctRows(rows: seq<Row>) {
    forall j, k :: 0 <= j < k < |rows| ==> rows[j].id != rows[k].id
  }

  /** Nothing is reported exactly if all rows are valid, have different ids, and name no existing order. */
  lemma {:induction false} NoProblems(rows: seq<Row>, existing: seq<Id>)
    ensures Problems(rows, existing) == [] <==>
            DistinctRows(rows) && forall row :: row in rows ==> row.valid && row.id !in existing
  {
    if rows != [] {
      var before, last := rows[..|rows| - 1], rows[|rows| - 1];
      NoProblems(before, existing);
      assert rows == before + [last];
      assert forall row :: row in rows <==> row in before || row == last;
      if Problems(before, existing) == [] {
        LastIsNew(before, last);
      }
    }
  }

  lemma LastIsNew(before: seq<Row>, last: Row)
    requires DistinctRows(before) && forall row :: row in before ==> row.valid
    ensures last.id !in ValidIds(before) <==> DistinctRows(before + [last])
  {
    var rows := before + [last];
    if DistinctRows(rows) {
      forall row | row in before
        ensures row.id != last.id
      {
        var j :| 0 <= j < |before| && before[j] == row;
        assert rows[j].id != rows[|before|].id;
      }
    } else {
      var j, k :| 0 <= j < k < |rows| && rows[j].id == rows[k].id;
      assert k == |before|;
      assert before[j] in before;
    }
  }

  ghost function RowsOf(inputs: seq<ProjectInput>): (rows: seq<Row>)
    ensures |rows| == |inputs|
    ensures forall k :: 0 <= k < |rows| ==> rows[k] == Row(ValidProject(inputs[k]), inputs[k].id)
  {
    seq(|inputs|, k requires 0 <= k < |inputs| => Row(ValidProject(inputs[k]), inputs[k].id))
  }

  lemma NoProblemsMeansValid(inputs: seq<ProjectInput>, existing: seq<Id>)
    requires 1 <= |inputs| <= MAX_BATCH
    ensures Problems(RowsOf(inputs), existing) == [] <==>
            BatchValid(inputs) && forall p :: p in inputs ==> p.id !in existing
  {
    var rows := RowsOf(inputs);
    NoProblems(rows, existing);
    RowsMeanInputs(inputs, existing, rows);
  }

  lemma RowsMeanInputs(inputs: seq<ProjectInput>, existing: seq<Id>, rows: seq<Row>)
    requires rows == RowsOf(inputs)
    ensures DistinctRows(rows) <==> DistinctProjects(inputs)
    ensures (forall row :: row in rows ==> row.valid && row.id !in existing) <==>
            (forall p :: p in inputs ==> ValidProject(p) && p.id !in existing)
  {
    forall row | row in rows
      ensures exists p :: p in inputs && row == Row(ValidProject(p), p.id)
    {
      var k :| 0 <= k < |rows| && rows[k] == row;
      assert inputs[k] in inputs;
    }
    forall p | p in inputs
      ensures Row(ValidProject(p), p.id) in rows
    {
      var k :| 0 <= k < |inputs| && inputs[k] == p;
      assert rows[k] in rows;
    }
  }

  /** All errors of a batch; it is valid if there are none. */
  method PreviewProjectBatch(inputs: seq<ProjectInput>, existing: seq<Id>) returns (valid: bool, errors: seq<RowError>)
    ensures valid <==> BatchValid(inputs) && forall p :: p in inputs ==> p.id !in existing
    ensures valid <==> errors == []
    ensures errors ==
            if 1 <= |inputs| <= MAX_BATCH then Problems(RowsOf(inputs), existing) else [RowError(0, BadSize)]
  {
    if !(1 <= |inputs| <= MAX_BATCH) {
      return false, [RowError(0, BadSize)];
    }
    ghost var rows := RowsOf(inputs);
    errors := [];
    var ids: set<Id> := {};
    for i := 0 to |inputs|
      invariant ids == ValidIds(rows[..i]) && errors == Problems(rows[..i], existing)
    {
      var p := inputs[i];
      var ok := ValidateProject(p);
      OneMoreRow(rows, existing, i);
      if !ok || p.id in ids {
        errors := errors + [RowError(i + 1, IllegalRow)];
      } else {
        ids := ids + {p.id};
        if p.id in existing {
          errors := errors + [RowError(i + 1, AlreadyExists(p.id))];
        }
      }
    }
    assert rows[..|inputs|] == rows;
    valid := errors == [];
    NoProblemsMeansValid(inputs, existing);
  }

  lemma OneMoreRow(rows: seq<Row>, existing: seq<Id>, i: nat)
    requires i < |rows|
    ensures ValidIds(rows[..i + 1]) ==
            if rows[i].valid && rows[i].id !in ValidIds(rows[..i]) then ValidIds(rows[..i]) + {rows[i].id}
            else ValidIds(rows[..i])
    ensures Problems(rows[..i + 1], existing) ==
            match Problem(rows[..i], rows[i], existing)
            case None => Problems(rows[..i], existing)
            case Some(code) => Problems(rows[..i], existing) + [RowError(i + 1, code)]
  {
    var longer := rows[..i + 1];
    assert longer == rows[..i] + [rows[i]] && longer[..|longer| - 1] == rows[..i];
    forall id
      ensures id in ValidIds(longer) <==> id in ValidIds(rows[..i]) || (rows[i].valid && id == rows[i].id)
    {
      if rows[i].valid && id == rows[i].id {
        assert rows[i] in longer;
      }
    }
  }
}
