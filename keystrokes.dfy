/** What the program sends to the browser: one `Key` per `send_keys` call. */
module Keystrokes {
  import opened Lines

  datatype Key =
    | ControlA            // send_keys(Keys.CONTROL + "a"): select all
    | Delete              // send_keys(Keys.DELETE)
    | Enter               // send_keys(Keys.ENTER): submit
    | ShiftEnter          // send_keys(Keys.SHIFT, Keys.ENTER): line break inside the compose box
    | Text(text: string)  // send_keys(text)

  /** Clear the search box, type the contact, open the first match. */
  function SearchKeys(contact: string): (r: seq<Key>)
    ensures |r| == 4 && r[0] == ControlA && r[1] == Delete && r[2] == Text(contact) && r[3] == Enter
    ensures forall j :: 0 <= j < |r| && r[j].Text? ==> j == 2 && r[j].text == contact
  {
    [ControlA, Delete, Text(contact), Enter]
  }

  /** Each line typed and followed by a line break. */
  function ComposeLines(lines: seq<string>): (r: seq<Key>)
    ensures |r| == 2 * |lines|
  {
    if lines == [] then [] else [Text(lines[0]), ShiftEnter] + ComposeLines(lines[1..])
  }

  /** The compose sequence for a whole message, ended by the one ENTER that sends it. */
  function ComposeKeys(message: string): (r: seq<Key>)
    ensures |r| == 2 * |Split(message)| + 1 && r[|r| - 1] == Enter
  {
    ComposeLines(Split(message)) + [Enter]
  }

  /** The texts typed, in order. */
  function Typed(keys: seq<Key>): seq<string> {
    if keys == [] then []
    else (if keys[0].Text? then [keys[0].text] else []) + Typed(keys[1..])
  }

  /** How often key k occurs in keys. */
  function Occurrences(keys: seq<Key>, k: Key): nat {
    if keys == [] then 0 else (if keys[0] == k then 1 else 0) + Occurrences(keys[1..], k)
  }

  lemma {:induction false} TypedAppend(a: seq<Key>, b: seq<Key>)
    ensures Typed(a + b) == Typed(a) + Typed(b)
    decreases |a|
  {
    if a == [] {
      assert a + b == b;
    } else {
      assert (a + b)[1..] == a[1..] + b;
      TypedAppend(a[1..], b);
    }
  }

  lemma {:induction false} OccurrencesAppend(a: seq<Key>, b: seq<Key>, k: Key)
    ensures Occurrences(a + b, k) == Occurrences(a, k) + Occurrences(b, k)
    decreases |a|
  {
    if a == [] {
      assert a + b == b;
    } else {
      assert (a + b)[1..] == a[1..] + b;
      OccurrencesAppend(a[1..], b, k);
    }
  }

  /** Appending is associative; stated once so that proofs about long traces need not
      rediscover it. */
  lemma AppendAssoc<T>(a: seq<T>, b: seq<T>, c: seq<T>)
    ensures a + (b + c) == (a + b) + c
  {
  }

  /** A key that occurs nowhere is at no position. */
  lemma {:induction false} OccurrencesZero(keys: seq<Key>, k: Key)
    requires Occurrences(keys, k) == 0
    ensures forall j :: 0 <= j < |keys| ==> keys[j] != k
    decreases |keys|
  {
    if keys != [] {
      OccurrencesZero(keys[1..], k);
      forall j | 1 <= j < |keys| ensures keys[j] != k { assert keys[j] == keys[1..][j - 1]; }
    }
  }

  /** Composing line by line: the loop at each step appends one line's keys. */
  lemma {:induction false} ComposeLinesAppend(a: seq<string>, b: seq<string>)
    ensures ComposeLines(a + b) == ComposeLines(a) + ComposeLines(b)
    decreases |a|
  {
    if a == [] {
      assert a + b == b;
    } else {
      assert (a + b)[1..] == a[1..] + b;
      ComposeLinesAppend(a[1..], b);
    }
  }

  /** Position by position: line k at 2k, a line break at 2k + 1. */
  lemma {:induction false} ComposeLinesAt(lines: seq<string>, k: nat)
    requires k < |lines|
    ensures ComposeLines(lines)[2 * k] == Text(lines[k])
    ensures ComposeLines(lines)[2 * k + 1] == ShiftEnter
    decreases |lines|
  {
    if k > 0 {
      ComposeLinesAt(lines[1..], k - 1);
    }
  }

  /** The pieces of ComposeLines: the typed texts are the lines, and there is one
      line break per line and no plain ENTER. */
  lemma {:induction false} ComposeLinesCounts(lines: seq<string>)
    ensures Typed(ComposeLines(lines)) == lines
    ensures Occurrences(ComposeLines(lines), ShiftEnter) == |lines|
    ensures Occurrences(ComposeLines(lines), Enter) == 0
    decreases |lines|
  {
    if lines != [] {
      var head: seq<Key> := [Text(lines[0]), ShiftEnter];
      ComposeLinesCounts(lines[1..]);
      TypedAppend(head, ComposeLines(lines[1..]));
      OccurrencesAppend(head, ComposeLines(lines[1..]), ShiftEnter);
      OccurrencesAppend(head, ComposeLines(lines[1..]), Enter);
      assert head[1..][1..] == [];
      assert lines == [lines[0]] + lines[1..];
    }
  }

  /** The compose trace of a message: one SHIFT+ENTER per line (newlines + 1 of them),
      exactly one plain ENTER and it comes last, the typed lines are the message's split,
      and joining them with newlines gives the message back. */
  lemma ComposeShape(message: string)
    ensures var ks := ComposeKeys(message);
      && Occurrences(ks, ShiftEnter) == Count(message) + 1
      && Occurrences(ks, Enter) == 1
      && ks[|ks| - 1] == Enter
      && (forall j :: 0 <= j < |ks| - 1 ==> ks[j] != Enter)
      && Typed(ks) == Split(message)
      && Join(Typed(ks)) == message
  {
    var lines := Split(message);
    var ks := ComposeKeys(message);
    ComposeLinesCounts(lines);
    SplitLength(message);
    JoinSplit(message);
    OccurrencesAppend(ComposeLines(lines), [Enter], ShiftEnter);
    OccurrencesAppend(ComposeLines(lines), [Enter], Enter);
    TypedAppend(ComposeLines(lines), [Enter]);
    OccurrencesZero(ComposeLines(lines), Enter);
    assert ks[..|ks| - 1] == ComposeLines(lines);
  }
}
