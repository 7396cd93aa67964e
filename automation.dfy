/** The program itself: the worksheet and the browser are objects updated in place,
    `send_whatsapp_message` and the loop of `main` are methods proved against the
    functions Sending.Dispatch and RowLoop.Main. */
module Automation {
  import opened Wrappers
  import opened Dates
  import opened Lines
  import opened Keystrokes
  import opened Sending
  import opened RowLoop

  /** The first worksheet of the spreadsheet, cell by cell. */
  class Worksheet {
    var cells: Sheet

    constructor (initial: Sheet)
      ensures cells == initial
    {
      cells := initial;
    }

    /** `worksheet.cell(row, col).value`: None for an empty cell. */
    method CellValue(row: int, col: int) returns (value: Option<string>)
      ensures value.Some? <==> (row, col) in cells
      ensures value.Some? ==> value.value == cells[(row, col)]
    {
      value := if (row, col) in cells then Some(cells[(row, col)]) else None;
    }

    /** `worksheet.update_cell(row, col, value)`: that one cell changes. */
    method UpdateCell(row: int, col: int, value: string)
      modifies this
      ensures cells == old(cells)[(row, col) := value]
    {
      cells := cells[(row, col) := value];
    }
  }

  datatype Session = NotStarted | Open | Closed

  /** The Chrome session: the keystrokes it has received, in order, and its lifecycle. */
  class Browser {
    var keys: seq<Key>
    var session: Session

    constructor ()
      ensures keys == [] && session == NotStarted
    {
      keys, session := [], NotStarted;
    }

    /** `webdriver.Chrome()` and `driver.get("https://web.whatsapp.com/")`. */
    method Launch()
      modifies this
      ensures session == Open && keys == old(keys)
    {
      session := Open;
    }

    /** `send_keys` on the located element. */
    method SendKeys(k: Key)
      modifies this
      ensures keys == old(keys) + [k] && session == old(session)
    {
      keys := keys + [k];
    }

    /** `driver.quit()`. */
    method Quit()
      modifies this
      ensures session == Closed && keys == old(keys)
    {
      session := Closed;
    }
  }

  /** Typing the message into the compose box: each line of `message.split('\n')`
      followed by SHIFT+ENTER, then the ENTER that sends it. */
  method ComposeMessage(browser: Browser, message: string)
    modifies browser
    ensures browser.keys == old(browser.keys) + ComposeKeys(message)
    ensures browser.session == old(browser.session)
  {
    var lines := Split(message);
    for j := 0 to |lines|
      invariant browser.keys == old(browser.keys) + ComposeLines(lines[..j])
      invariant browser.session == old(browser.session)
    {
      ComposeLinesAppend(lines[..j], [lines[j]]);
      assert lines[..j + 1] == lines[..j] + [lines[j]];
      browser.SendKeys(Text(lines[j]));
      browser.SendKeys(ShiftEnter);
    }
    assert lines[..|lines|] == lines;
    browser.SendKeys(Enter);
  }

  /** `send_whatsapp_message(driver, contact, message, worksheet, row)`. `failure` is the UI's
      behaviour for this call and `now` the timestamp the write-back would use. */
  method SendWhatsAppMessage(browser: Browser, contact: string, message: string, sheet: Worksheet,
                             row: int, failure: Option<Failure>, now: string)
    modifies browser, sheet
    ensures browser.session == old(browser.session)
    ensures State(sheet.cells, browser.keys)
         == Dispatch(State(old(sheet.cells), old(browser.keys)), row, contact, message, failure, now)
  {
    ghost var before := State(sheet.cells, browser.keys);
    var status := sheet.CellValue(row, StatusColumn);
    assert AlreadySent(before.cells, row) <==> status == Some(Sentinel);
    if status == Some(Sentinel) {
      assert DispatchKeys(true, contact, message, failure) == [];
      assert before.keys + [] == before.keys;
      return;
    }
    if failure == Some(SearchBoxAbsent) {
      assert DispatchKeys(false, contact, message, failure) == [];
      assert before.keys + [] == before.keys;
      return;
    }
    browser.SendKeys(ControlA);
    browser.SendKeys(Delete);
    browser.SendKeys(Text(contact));
    browser.SendKeys(Enter);
    assert browser.keys == before.keys + SearchKeys(contact);
    if failure == Some(MessageBoxAbsent) {
      assert DispatchKeys(false, contact, message, failure) == SearchKeys(contact);
      return;
    }
    ComposeMessage(browser, message);
    assert DispatchKeys(false, contact, message, None) == SearchKeys(contact) + ComposeKeys(message);
    AppendAssoc(before.keys, SearchKeys(contact), ComposeKeys(message));
    sheet.UpdateCell(row, StatusColumn, SentPrefix + now);
  }

  /** `main` from the operator's answers on. `message` is the contents of message.txt (None
      when it cannot be read), `data` what `get_all_values()` returns, `fails` the rows whose
      search box or message box never appears, `now(i)` the timestamp of row i's write-back.
      The browser is launched only once the range and the message are in hand, and it is
      closed on every path that launched it. */
  method Run(sheet: Worksheet, browser: Browser, fromText: string, toText: string,
             message: Option<string>, data: seq<seq<string>>, parse: string -> Option<Date>,
             fails: map<int, Failure>, now: int -> string) returns (exit: Exit)
    modifies sheet, browser
    ensures var o := Main(State(old(sheet.cells), old(browser.keys)), fromText, toText, message, data, parse, fails, now);
      State(sheet.cells, browser.keys) == o.state && exit == o.exit
    ensures browser.session == if exit == InvalidRange || exit == MessageUnreadable then old(browser.session) else Closed
  {
    var fromDate := parse(fromText);
    var toDate := parse(toText);
    if fromDate.None? || toDate.None? {
      return InvalidRange;
    }
    if message.None? {
      return MessageUnreadable;
    }
    var env := Env(fromDate.value, toDate.value, message.value, parse, fails, now);
    browser.Launch();
    ghost var start := State(sheet.cells, browser.keys);
    exit := Completed;
    var i := 2;
    while i <= |data|
      invariant 2 <= i
      invariant RunFrom(State(sheet.cells, browser.keys), data, i, env) == RunFrom(start, data, 2, env)
      invariant browser.session == Open
      decreases |data| + 1 - i
    {
      var row := data[i - 1];
      if |row| < 4 {
        exit := InvalidRow(i);
        break;
      }
      var contact := row[3];
      var dateText := row[1];
      if dateText == "" {
        i := i + 1;
        continue;
      }
      var date := parse(dateText);
      if date.None? {
        exit := InvalidRow(i);
        break;
      }
      if InRange(date.value, env.from, env.to) {
        SendWhatsAppMessage(browser, contact, env.message, sheet, i, FailureAt(env, i), now(i));
      }
      i := i + 1;
    }
    browser.Quit();
  }
}
