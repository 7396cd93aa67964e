/** `message.split('\n')` and its inverse, `'\n'.join(lines)`. */
module Lines {
  const Newline: char := '\n'

  /** Python's `str.split('\n')`: the pieces between newlines, never an empty list,
      an empty piece for an empty string, a leading or a trailing newline. */
  function Split(s: string): (r: seq<string>)
    ensures |r| >= 1
    ensures forall k :: 0 <= k < |r| ==> Newline !in r[k]
    decreases |s|
  {
    if s == [] then [""]
    else
      var rest := Split(s[1..]);
      if s[0] == Newline then [""] + rest
      else [[s[0]] + rest[0]] + rest[1..]
  }

  /** `'\n'.join(lines)`. */
  function Join(lines: seq<string>): string
    requires |lines| >= 1
    decreases |lines|
  {
    if |lines| == 1 then lines[0] else lines[0] + [Newline] + Join(lines[1..])
  }

  /** The number of newline characters in s. */
  function Count(s: string): nat {
    if s == [] then 0 else (if s[0] == Newline then 1 else 0) + Count(s[1..])
  }

  /** Joining the typed lines with newlines gives the message back. */
  lemma {:induction false} JoinSplit(s: string)
    ensures Join(Split(s)) == s
    decreases |s|
  {
    if s != [] {
      var rest := Split(s[1..]);
      JoinSplit(s[1..]);
      if s[0] == Newline {
        assert Split(s) == [""] + rest;
        assert ([""] + rest)[1..] == rest;
        assert s == [Newline] + s[1..];
      } else {
        var r := Split(s);
        assert r == [[s[0]] + rest[0]] + rest[1..];
        if |rest| == 1 {
          assert s == [s[0]] + s[1..];
        } else {
          assert r[1..] == rest[1..];
          assert Join(rest) == rest[0] + [Newline] + Join(rest[1..]);
          assert s == [s[0]] + s[1..];
        }
      }
    }
  }

  /** The message has one more line than it has newlines. */
  lemma {:induction false} SplitLength(s: string)
    ensures |Split(s)| == Count(s) + 1
    decreases |s|
  {
    if s != [] {
      SplitLength(s[1..]);
    }
  }

  lemma {:induction false} SplitSingle(l: string)
    requires Newline !in l
    ensures Split(l) == [l]
    decreases |l|
  {
    if l != [] {
      assert Newline !in l[1..] by {
        forall k | 0 <= k < |l[1..]| ensures l[1..][k] != Newline { assert l[1..][k] == l[k + 1]; }
      }
      SplitSingle(l[1..]);
      assert l == [l[0]] + l[1..];
    }
  }

  lemma {:induction false} SplitCons(l: string, t: string)
    requires Newline !in l
    ensures Split(l + [Newline] + t) == [l] + Split(t)
    decreases |l|
  {
    var s := l + [Newline] + t;
    if l == [] {
      assert s == [Newline] + t && s[1..] == t;
    } else {
      assert s[1..] == l[1..] + [Newline] + t;
      assert Newline !in l[1..] by {
        forall k | 0 <= k < |l[1..]| ensures l[1..][k] != Newline { assert l[1..][k] == l[k + 1]; }
      }
      SplitCons(l[1..], t);
      assert l == [l[0]] + l[1..];
    }
  }

  /** Splitting a join of newline-free lines gives those lines back. */
  lemma {:induction false} SplitJoin(lines: seq<string>)
    requires |lines| >= 1
    requires forall k :: 0 <= k < |lines| ==> Newline !in lines[k]
    ensures Split(Join(lines)) == lines
    decreases |lines|
  {
    if |lines| == 1 {
      SplitSingle(lines[0]);
    } else {
      SplitJoin(lines[1..]);
      SplitCons(lines[0], Join(lines[1..]));
      assert lines == [lines[0]] + lines[1..];
    }
  }
}
