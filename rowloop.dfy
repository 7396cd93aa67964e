/** What `main` does with the operator's inputs and the rows it fetched, stated on values. */
module RowLoop {
  import opened Wrappers
  import opened Dates
  import opened Keystrokes
  import opened Sending

  /** Everything fixed before the first row is processed. `parse` stands for
      `datetime.strptime(_, "%d/%m/%Y")`, `fails` for the rows whose search box or message
      box never appears, and `now(i)` for the timestamp taken when row i is written back. */
  datatype Env = Env(from: Date, to: Date, message: string, parse: string -> Option<Date>,
                     fails: map<int, Failure>, now: int -> string)

  /** How the run ends. A bound that does not parse, an unreadable message file and a bad
      row all reach the handler at the end of main, which logs them and does not re-raise. */
  datatype Exit = Completed | InvalidRange | MessageUnreadable | InvalidRow(row: int)

  datatype Outcome = Outcome(state: State, exit: Exit)

  /** What the loop body does with one row. */
  datatype RowAction = Skip | Abort | Send(contact: string)

  function FailureAt(env: Env, row: int): Option<Failure> {
    if row in env.fails then Some(env.fails[row]) else None
  }

  /** The loop body before the call: `row[3]` and `row[1]` raise on a row of fewer than four
      cells, an empty date skips, a date that does not parse raises, and only a date inside
      the inclusive range leads to a dispatch. */
  function Classify(row: seq<string>, env: Env): (r: RowAction)
    ensures r.Abort? <==> |row| < 4 || (row[1] != "" && env.parse(row[1]).None?)
    ensures r.Send? ==> r.contact == row[3] && row[1] != "" && InRange(env.parse(row[1]).value, env.from, env.to)
  {
    if |row| < 4 then Abort
    else if row[1] == "" then Skip
    else match env.parse(row[1])
      case None => Abort
      case Some(d) => if InRange(d, env.from, env.to) then Send(row[3]) else Skip
  }

  /** The loop from row index i on; row index i is `data[i - 1]`. */
  function RunFrom(s: State, data: seq<seq<string>>, i: int, env: Env): (r: Outcome)
    requires 1 <= i
    ensures r.exit.Completed? || (r.exit.InvalidRow? && i <= r.exit.row <= |data|)
    decreases |data| + 1 - i
  {
    if i > |data| then Outcome(s, Completed)
    else match Classify(data[i - 1], env)
      case Skip => RunFrom(s, data, i + 1, env)
      case Abort => Outcome(s, InvalidRow(i))
      case Send(contact) =>
        RunFrom(Dispatch(s, i, contact, env.message, FailureAt(env, i), env.now(i)), data, i + 1, env)
  }

  /** main after the spreadsheet is open: parse the range, read the message, then run the
      rows from index 2 (row 1 is the header). */
  function Main(s: State, fromText: string, toText: string, message: Option<string>,
                data: seq<seq<string>>, parse: string -> Option<Date>,
                fails: map<int, Failure>, now: int -> string): (r: Outcome)
    ensures r.exit == InvalidRange <==> parse(fromText).None? || parse(toText).None?
    ensures r.exit == MessageUnreadable <==> parse(fromText).Some? && parse(toText).Some? && message.None?
  {
    match (parse(fromText), parse(toText))
    case (Some(from), Some(to)) =>
      if message.None? then Outcome(s, MessageUnreadable)
      else RunFrom(s, data, 2, Env(from, to, message.value, parse, fails, now))
    case _ => Outcome(s, InvalidRange)
  }

  // ---------------------------------------------------------------------------------
  // Reference definitions of which rows are dispatched

  /** No row from index i up to (not including) r raises. */
  predicate Reaches(data: seq<seq<string>>, i: int, r: int, env: Env)
    requires 1 <= i
  {
    forall k :: i - 1 <= k < r - 1 && k < |data| ==> !Classify(data[k], env).Abort?
  }

  /** Row r is dispatched by the loop started at row index i. */
  predicate SendsFrom(data: seq<seq<string>>, i: int, r: int, env: Env)
    requires 1 <= i
  {
    i <= r <= |data| && Classify(data[r - 1], env).Send? && Reaches(data, i, r, env)
  }

  /** A dispatch that gets through the gate and both UI waits. */
  predicate Succeeds(cells: Sheet, r: int, env: Env) {
    !AlreadySent(cells, r) && FailureAt(env, r).None?
  }

  /** The value a cell should have after the loop from row index i. */
  function FinalCell(init: Sheet, data: seq<seq<string>>, i: int, env: Env, c: Coord): Option<string>
    requires 1 <= i
  {
    if c.1 == StatusColumn && SendsFrom(data, i, c.0, env) && Succeeds(init, c.0, env)
    then Some(SentPrefix + env.now(c.0))
    else Get(init, c)
  }

  datatype Target = Target(row: int, contact: string)

  /** The dispatches the loop from row index i makes, in order. */
  function Plan(data: seq<seq<string>>, i: int, env: Env): seq<Target>
    requires 1 <= i
    decreases |data| + 1 - i
  {
    if i > |data| then []
    else match Classify(data[i - 1], env)
      case Skip => Plan(data, i + 1, env)
      case Abort => []
      case Send(contact) => [Target(i, contact)] + Plan(data, i + 1, env)
  }

  function Rows(p: seq<Target>): seq<int> {
    seq(|p|, k requires 0 <= k < |p| => p[k].row)
  }

  /** The keystrokes of a plan, every gate read from the sheet as it was before the loop. */
  function PlanKeys(cells: Sheet, p: seq<Target>, env: Env): seq<Key> {
    if p == [] then []
    else DispatchKeys(AlreadySent(cells, p[0].row), p[0].contact, env.message, FailureAt(env, p[0].row))
         + PlanKeys(cells, p[1..], env)
  }

  // ---------------------------------------------------------------------------------
  // The loop against the reference definitions

  /** Reaching row r from row index i means row i does not raise and r is reached from i + 1. */
  lemma ReachesStep(data: seq<seq<string>>, i: int, r: int, env: Env)
    requires 1 <= i < r && i <= |data|
    ensures Reaches(data, i, r, env) <==> !Classify(data[i - 1], env).Abort? && Reaches(data, i + 1, r, env)
  {
  }

  /** A row that does not raise and is not dispatched changes nothing about the later rows. */
  lemma SendsFromStep(data: seq<seq<string>>, i: int, r: int, env: Env)
    requires 1 <= i <= |data| && i != r
    requires !Classify(data[i - 1], env).Abort?
    ensures SendsFrom(data, i, r, env) <==> SendsFrom(data, i + 1, r, env)
  {
  }

  /** Nothing after a row that raises is reached. */
  lemma AbortBlocks(data: seq<seq<string>>, i: int, r: int, env: Env)
    requires 1 <= i <= |data| && Classify(data[i - 1], env).Abort?
    ensures !SendsFrom(data, i, r, env)
  {
  }

  /** Every planned dispatch is a row from index i to |data| with at least four cells, and
      its contact is that row's fourth cell. */
  lemma {:induction false} PlanTargets(data: seq<seq<string>>, i: int, env: Env)
    requires 1 <= i
    ensures forall t :: t in Plan(data, i, env) ==>
              i <= t.row <= |data| && |data[t.row - 1]| >= 4 && t.contact == data[t.row - 1][3]
    decreases |data| + 1 - i
  {
    if i <= |data| && !Classify(data[i - 1], env).Abort? {
      PlanTargets(data, i + 1, env);
    }
  }

  /** The plan visits rows in strictly increasing order, so no row is dispatched twice. */
  lemma {:induction false} PlanIncreasing(data: seq<seq<string>>, i: int, env: Env)
    requires 1 <= i
    ensures forall a, b :: 0 <= a < b < |Plan(data, i, env)| ==> Plan(data, i, env)[a].row < Plan(data, i, env)[b].row
    decreases |data| + 1 - i
  {
    if i <= |data| {
      var rest := Plan(data, i + 1, env);
      match Classify(data[i - 1], env)
      case Skip =>
        PlanIncreasing(data, i + 1, env);
      case Abort =>
      case Send(contact) =>
        PlanIncreasing(data, i + 1, env);
        PlanTargets(data, i + 1, env);
        var p := Plan(data, i, env);
        assert p == [Target(i, contact)] + rest;
        forall a, b | 0 <= a < b < |p| ensures p[a].row < p[b].row {
          assert p[b] == rest[b - 1] && p[b] in rest;
          if a > 0 { assert p[a] == rest[a - 1]; }
        }
    }
  }

  /** One dispatch step of PlanIsSendsFrom, for one row r. */
  lemma PlanSendStep(data: seq<seq<string>>, i: int, env: Env, contact: string, r: int)
    requires 1 <= i <= |data| && Classify(data[i - 1], env) == Send(contact)
    requires r in Rows(Plan(data, i + 1, env)) <==> SendsFrom(data, i + 1, r, env)
    ensures r in Rows(Plan(data, i, env)) <==> SendsFrom(data, i, r, env)
  {
    var rest := Plan(data, i + 1, env);
    var p := Plan(data, i, env);
    assert p == [Target(i, contact)] + rest;
    assert Rows(p) == [i] + Rows(rest);
    if r == i {
      assert Reaches(data, i, i, env);
    } else {
      SendsFromStep(data, i, r, env);
    }
  }

  /** The plan holds exactly the rows SendsFrom names. */
  lemma {:induction false} PlanIsSendsFrom(data: seq<seq<string>>, i: int, env: Env)
    requires 1 <= i
    ensures forall r :: r in Rows(Plan(data, i, env)) <==> SendsFrom(data, i, r, env)
    decreases |data| + 1 - i
  {
    if i <= |data| {
      var rest := Plan(data, i + 1, env);
      match Classify(data[i - 1], env)
      case Skip =>
        PlanIsSendsFrom(data, i + 1, env);
        forall r ensures SendsFrom(data, i, r, env) <==> SendsFrom(data, i + 1, r, env) {
          if r != i { SendsFromStep(data, i, r, env); }
        }
      case Abort =>
        forall r ensures !SendsFrom(data, i, r, env) { AbortBlocks(data, i, r, env); }
      case Send(contact) =>
        PlanIsSendsFrom(data, i + 1, env);
        forall r ensures r in Rows(Plan(data, i, env)) <==> SendsFrom(data, i, r, env) {
          PlanSendStep(data, i, env, contact, r);
        }
    }
  }

  /** One dispatch of row i: FinalCell from i is FinalCell from i + 1 over the sheet it leaves. */
  lemma FinalCellSendStep(s: State, data: seq<seq<string>>, i: int, env: Env, contact: string, c: Coord)
    requires 1 <= i <= |data| && Classify(data[i - 1], env) == Send(contact)
    ensures var s' := Dispatch(s, i, contact, env.message, FailureAt(env, i), env.now(i));
      FinalCell(s'.cells, data, i + 1, env, c) == FinalCell(s.cells, data, i, env, c)
  {
    var s' := Dispatch(s, i, contact, env.message, FailureAt(env, i), env.now(i));
    if c == (i, StatusColumn) {
      assert Reaches(data, i, i, env);
      assert SendsFrom(data, i, i, env);
    } else {
      assert Get(s'.cells, c) == Get(s.cells, c);
      if c.1 == StatusColumn {
        assert Get(s'.cells, (c.0, StatusColumn)) == Get(s.cells, (c.0, StatusColumn));
        SendsFromStep(data, i, c.0, env);
      }
    }
  }

  /** After the loop every cell holds FinalCell: the status cell of each dispatched row
      whose gate was open and whose UI steps succeeded holds that row's timestamped
      marker, and every other cell of the sheet is unchanged. */
  lemma {:induction false} RunCells(s: State, data: seq<seq<string>>, i: int, env: Env)
    requires 1 <= i
    ensures forall c :: Get(RunFrom(s, data, i, env).state.cells, c) == FinalCell(s.cells, data, i, env, c)
    decreases |data| + 1 - i
  {
    if i <= |data| {
      match Classify(data[i - 1], env)
      case Skip =>
        RunCells(s, data, i + 1, env);
        forall c ensures FinalCell(s.cells, data, i, env, c) == FinalCell(s.cells, data, i + 1, env, c) {
          if c.0 != i { SendsFromStep(data, i, c.0, env); }
        }
      case Abort =>
        forall c ensures FinalCell(s.cells, data, i, env, c) == Get(s.cells, c) { AbortBlocks(data, i, c.0, env); }
      case Send(contact) =>
        var s' := Dispatch(s, i, contact, env.message, FailureAt(env, i), env.now(i));
        RunCells(s', data, i + 1, env);
        forall c ensures FinalCell(s'.cells, data, i + 1, env, c) == FinalCell(s.cells, data, i, env, c) {
          FinalCellSendStep(s, data, i, env, contact, c);
        }
    }
  }

  lemma {:induction false} PlanKeysFrame(a: Sheet, b: Sheet, p: seq<Target>, env: Env)
    requires forall k :: 0 <= k < |p| ==> AlreadySent(a, p[k].row) == AlreadySent(b, p[k].row)
    ensures PlanKeys(a, p, env) == PlanKeys(b, p, env)
    decreases |p|
  {
    if p != [] {
      PlanKeysFrame(a, b, p[1..], env);
    }
  }

  /** Dispatching row i leaves the gates of the rows planned after it as they were. */
  lemma DispatchKeepsLaterGates(s: State, data: seq<seq<string>>, i: int, env: Env, contact: string)
    requires 1 <= i
    ensures var s' := Dispatch(s, i, contact, env.message, FailureAt(env, i), env.now(i));
      PlanKeys(s'.cells, Plan(data, i + 1, env), env) == PlanKeys(s.cells, Plan(data, i + 1, env), env)
  {
    var s' := Dispatch(s, i, contact, env.message, FailureAt(env, i), env.now(i));
    var rest := Plan(data, i + 1, env);
    PlanTargets(data, i + 1, env);
    forall k | 0 <= k < |rest| ensures AlreadySent(s'.cells, rest[k].row) == AlreadySent(s.cells, rest[k].row) {
      assert rest[k] in rest;
    }
    PlanKeysFrame(s'.cells, s.cells, rest, env);
  }

  /** One dispatch step of RunKeys. */
  lemma RunKeysSendStep(s: State, data: seq<seq<string>>, i: int, env: Env, contact: string)
    requires 1 <= i <= |data| && Classify(data[i - 1], env) == Send(contact)
    requires var s' := Dispatch(s, i, contact, env.message, FailureAt(env, i), env.now(i));
      RunFrom(s', data, i + 1, env).state.keys == s'.keys + PlanKeys(s'.cells, Plan(data, i + 1, env), env)
    ensures RunFrom(s, data, i, env).state.keys == s.keys + PlanKeys(s.cells, Plan(data, i, env), env)
  {
    var d := DispatchKeys(AlreadySent(s.cells, i), contact, env.message, FailureAt(env, i));
    var s' := Dispatch(s, i, contact, env.message, FailureAt(env, i), env.now(i));
    var rest := Plan(data, i + 1, env);
    var p := Plan(data, i, env);
    assert s'.keys == s.keys + d;
    assert RunFrom(s, data, i, env) == RunFrom(s', data, i + 1, env);
    assert p == [Target(i, contact)] + rest;
    assert p[0] == Target(i, contact) && p[1..] == rest;
    assert PlanKeys(s.cells, p, env) == d + PlanKeys(s.cells, rest, env);
    DispatchKeepsLaterGates(s, data, i, env, contact);
    AppendAssoc(s.keys, d, PlanKeys(s.cells, rest, env));
  }

  /** The keystrokes of the whole loop are the plan's dispatches one after the other, with
      every gate decided by the sheet as it was before the loop: no write-back of one row
      affects the gate of another. */
  lemma {:induction false} RunKeys(s: State, data: seq<seq<string>>, i: int, env: Env)
    requires 1 <= i
    ensures RunFrom(s, data, i, env).state.keys == s.keys + PlanKeys(s.cells, Plan(data, i, env), env)
    decreases |data| + 1 - i
  {
    if i > |data| {
      assert s.keys + [] == s.keys;
    } else {
      match Classify(data[i - 1], env)
      case Skip =>
        RunKeys(s, data, i + 1, env);
      case Abort =>
        assert s.keys + [] == s.keys;
      case Send(contact) =>
        RunKeys(Dispatch(s, i, contact, env.message, FailureAt(env, i), env.now(i)), data, i + 1, env);
        RunKeysSendStep(s, data, i, env, contact);
    }
  }

  /** How the loop ends, from row index i: normally or at row index `row`. */
  predicate ExitFrom(data: seq<seq<string>>, i: int, env: Env, e: Exit)
    requires 1 <= i
  {
    && (e.Completed? || e.InvalidRow?)
    && (e.Completed? <==> Reaches(data, i, |data| + 1, env))
    && (e.InvalidRow? ==> i <= e.row <= |data| && Classify(data[e.row - 1], env).Abort? && Reaches(data, i, e.row, env))
  }

  /** A row that does not raise passes the loop's ending back to the row before it. */
  lemma ExitStep(data: seq<seq<string>>, i: int, env: Env, e: Exit)
    requires 1 <= i <= |data| && !Classify(data[i - 1], env).Abort?
    requires ExitFrom(data, i + 1, env, e)
    ensures ExitFrom(data, i, env, e)
  {
    ReachesStep(data, i, |data| + 1, env);
    if e.InvalidRow? { ReachesStep(data, i, e.row, env); }
  }

  /** The loop ends normally exactly when no row from i on raises; otherwise it ends at the
      first row that raises. */
  lemma {:induction false} RunExit(s: State, data: seq<seq<string>>, i: int, env: Env)
    requires 1 <= i
    ensures ExitFrom(data, i, env, RunFrom(s, data, i, env).exit)
    decreases |data| + 1 - i
  {
    if i <= |data| {
      match Classify(data[i - 1], env)
      case Skip =>
        RunExit(s, data, i + 1, env);
        ExitStep(data, i, env, RunFrom(s, data, i + 1, env).exit);
      case Abort =>
        assert Reaches(data, i, i, env);
      case Send(contact) =>
        var s' := Dispatch(s, i, contact, env.message, FailureAt(env, i), env.now(i));
        RunExit(s', data, i + 1, env);
        ExitStep(data, i, env, RunFrom(s', data, i + 1, env).exit);
    }
  }

  // ---------------------------------------------------------------------------------
  // Row selection, in the loop's own terms

  /** A row with an empty date cell is never dispatched. */
  lemma EmptyDateNeverDispatched(data: seq<seq<string>>, env: Env, r: int)
    requires 2 <= r <= |data| && |data[r - 1]| >= 4 && data[r - 1][1] == ""
    ensures r !in Rows(Plan(data, 2, env))
  {
    PlanIsSendsFrom(data, 2, env);
  }

  /** A reached row whose date parses is dispatched exactly when the date lies in the range,
      both ends included. */
  lemma DateFilterInclusive(data: seq<seq<string>>, env: Env, r: int, d: Date)
    requires 2 <= r <= |data| && |data[r - 1]| >= 4 && data[r - 1][1] != ""
    requires env.parse(data[r - 1][1]) == Some(d)
    requires Reaches(data, 2, r, env)
    ensures r in Rows(Plan(data, 2, env)) <==> LessEq(env.from, d) && LessEq(d, env.to)
  {
    PlanIsSendsFrom(data, 2, env);
  }

  /** A row that raises, a row of fewer than four cells or a non-empty date that does not
      parse, stops the loop: no later row is dispatched. */
  lemma NothingAfterBadRow(data: seq<seq<string>>, env: Env, j: int, r: int)
    requires 2 <= j <= |data| && j < r
    requires |data[j - 1]| < 4 || (data[j - 1][1] != "" && env.parse(data[j - 1][1]).None?)
    ensures r !in Rows(Plan(data, 2, env))
  {
    PlanIsSendsFrom(data, 2, env);
    if r <= |data| {
      assert Classify(data[j - 1], env).Abort?;
      assert !Reaches(data, 2, r, env);
    }
  }

  /** A range bound that does not parse, or a message file that cannot be read, ends main
      before any row is read: no keystroke and no write. */
  lemma EarlyExitTouchesNothing(s: State, fromText: string, toText: string, message: Option<string>,
                                data: seq<seq<string>>, parse: string -> Option<Date>,
                                fails: map<int, Failure>, now: int -> string)
    requires parse(fromText).None? || parse(toText).None? || message.None?
    ensures var o := Main(s, fromText, toText, message, data, parse, fails, now);
      o.state == s && (o.exit == InvalidRange || o.exit == MessageUnreadable)
      && (o.exit == InvalidRange <==> parse(fromText).None? || parse(toText).None?)
  {
  }
}
