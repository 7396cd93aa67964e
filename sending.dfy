/** What one call of `send_whatsapp_message` does, stated on values: the worksheet's
    cells and the keystrokes sent so far. */
module Sending {
  import opened Wrappers
  import opened Lines
  import opened Keystrokes

  /** (row, column), both 1-based as gspread numbers them. */
  type Coord = (int, int)

  /** The live worksheet: a cell absent from the map is empty. */
  type Sheet = map<Coord, string>

  const StatusColumn: int := 15
  const Sentinel: string := "Message Sent"
  const SentPrefix: string := "Message Sent at "

  /** Why a dispatch stops early: a `WebDriverWait` for one of the two boxes timed out. */
  datatype Failure = SearchBoxAbsent | MessageBoxAbsent

  datatype State = State(cells: Sheet, keys: seq<Key>)

  function Get(cells: Sheet, c: Coord): Option<string> {
    if c in cells then Some(cells[c]) else None
  }

  /** The gate: the status cell holds exactly the sentinel. */
  predicate AlreadySent(cells: Sheet, row: int)
    ensures AlreadySent(cells, row) <==> (row, StatusColumn) in cells && cells[(row, StatusColumn)] == Sentinel
  {
    Get(cells, (row, StatusColumn)) == Some(Sentinel)
  }

  /** The keystrokes one dispatch sends. */
  function DispatchKeys(sent: bool, contact: string, message: string, failure: Option<Failure>): (r: seq<Key>)
    ensures sent ==> r == []
    ensures r == [] || (|r| >= 4 && r[..4] == SearchKeys(contact))
    ensures |r| > 4 ==> failure.None? && r[4..] == ComposeKeys(message)
  {
    if sent then []
    else match failure
      case Some(SearchBoxAbsent) => []
      case Some(MessageBoxAbsent) => SearchKeys(contact)
      case None => SearchKeys(contact) + ComposeKeys(message)
  }

  /** One call of send_whatsapp_message for `row`, with the UI outcome and the send time given. */
  function Dispatch(s: State, row: int, contact: string, message: string,
                    failure: Option<Failure>, now: string): (r: State)
    ensures |r.keys| >= |s.keys| && r.keys[..|s.keys|] == s.keys
  {
    var sent := AlreadySent(s.cells, row);
    State(if !sent && failure.None? then s.cells[(row, StatusColumn) := SentPrefix + now] else s.cells,
          s.keys + DispatchKeys(sent, contact, message, failure))
  }

  /** A status cell equal to the sentinel: no keystrokes and no write. */
  lemma GateSkips(s: State, row: int, contact: string, message: string,
                  failure: Option<Failure>, now: string)
    requires AlreadySent(s.cells, row)
    ensures Dispatch(s, row, contact, message, failure, now) == s
  {
  }

  /** The gate is exact equality: the stamp the program itself writes never closes it. */
  lemma StampDoesNotCloseGate(cells: Sheet, row: int, now: string)
    ensures !AlreadySent(cells[(row, StatusColumn) := SentPrefix + now], row)
  {
  }

  /** So dispatching a row that was just sent successfully sends the whole message again. */
  lemma RedispatchSendsAgain(s: State, row: int, contact: string, message: string, now: string, later: string)
    requires !AlreadySent(s.cells, row)
    ensures var once := Dispatch(s, row, contact, message, None, now);
            var twice := Dispatch(once, row, contact, message, None, later);
            twice.keys == s.keys + (SearchKeys(contact) + ComposeKeys(message)) + (SearchKeys(contact) + ComposeKeys(message))
  {
  }

  /** Success changes exactly one cell, the row's status cell, to the timestamped marker:
      every other cell keeps its value or stays empty. */
  lemma SuccessWritesOneCell(s: State, row: int, contact: string, message: string, now: string)
    requires !AlreadySent(s.cells, row)
    ensures var r := Dispatch(s, row, contact, message, None, now);
      && Get(r.cells, (row, StatusColumn)) == Some(SentPrefix + now)
      && (forall c :: c != (row, StatusColumn) ==> Get(r.cells, c) == Get(s.cells, c))
  {
  }

  /** A missing search box or message box leaves every cell as it was. */
  lemma FailureWritesNothing(s: State, row: int, contact: string, message: string, f: Failure, now: string)
    ensures Dispatch(s, row, contact, message, Some(f), now).cells == s.cells
  {
  }

  /** What reaches the browser, in order: nothing when the gate closes or the search box is
      missing; only the search sequence when the message box is missing; otherwise the search
      sequence, then the message line by line, then the single ENTER that sends it. In every
      case the trace only grows. */
  lemma {:induction false} DispatchTrace(s: State, row: int, contact: string, message: string,
                                         failure: Option<Failure>, now: string)
    ensures var r := Dispatch(s, row, contact, message, failure, now);
      && |r.keys| >= |s.keys| && r.keys[..|s.keys|] == s.keys
      && (AlreadySent(s.cells, row) || failure == Some(SearchBoxAbsent) ==> r.keys == s.keys)
      && (!AlreadySent(s.cells, row) && failure == Some(MessageBoxAbsent) ==>
            r.keys == s.keys + [ControlA, Delete, Text(contact), Enter])
      && (!AlreadySent(s.cells, row) && failure.None? ==>
            && r.keys[|s.keys|..|s.keys| + 4] == [ControlA, Delete, Text(contact), Enter]
            && r.keys[|s.keys| + 4..] == ComposeKeys(message)
            && Typed(r.keys[|s.keys| + 4..]) == Split(message)
            && Occurrences(r.keys[|s.keys| + 4..], Enter) == 1
            && r.keys[|r.keys| - 1] == Enter)
  {
    var r := Dispatch(s, row, contact, message, failure, now);
    assert r.keys[..|s.keys|] == s.keys;
    if !AlreadySent(s.cells, row) && failure.None? {
      ComposeShape(message);
      assert r.keys[|s.keys| + 4..] == ComposeKeys(message);
    } else if AlreadySent(s.cells, row) || failure == Some(SearchBoxAbsent) {
      assert s.keys + [] == s.keys;
    }
  }
}
