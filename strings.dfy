/**
 * The two JavaScript string operations the prompt relies on, for the
 * separator '\n': `Array.prototype.join` and, as its partner for reading a
 * prompt back, `String.prototype.split`.
 */
module Strings {
  import opened Wrappers

  /** `lines.join('\n')`: the lines with one separator between neighbours. */
  function JoinLines(lines: seq<string>): (s: string)
    ensures lines == [] ==> s == ""
    decreases |lines|
  {
    if |lines| == 0 then ""
    else if |lines| == 1 then lines[0]
    else lines[0] + "\n" + JoinLines(lines[1..])
  }

  /** The middle of `s` when it starts with `head` and ends with `tail` (not overlapping). */
  function StripFrame<T(==)>(s: seq<T>, head: seq<T>, tail: seq<T>): Option<seq<T>> {
    if |s| < |head| + |tail| then None
    else if s[..|head|] != head || s[|s| - |tail|..] != tail then None
    else Some(s[|head|..|s| - |tail|])
  }

  /** Framing a middle and stripping the same frame gives the middle back. */
  lemma StripFrameConcat<T>(head: seq<T>, middle: seq<T>, tail: seq<T>)
    ensures StripFrame(head + middle + tail, head, tail) == Some(middle)
  {
    var s := head + middle + tail;
    assert s[..|head|] == head;
    assert s[|s| - |tail|..] == tail;
    assert s[|head|..|s| - |tail|] == middle;
  }

  /** A join starts with the first line and ends with the last one: no separator is added after it. */
  lemma {:induction false} JoinLinesEnds(lines: seq<string>)
    requires lines != []
    ensures lines[0] <= JoinLines(lines)
    ensures var s, last := JoinLines(lines), lines[|lines| - 1];
      |last| <= |s| && s[|s| - |last|..] == last
    decreases |lines|
  {
    if |lines| > 1 {
      JoinLinesEnds(lines[1..]);
    }
  }

  /** `s.split('\n')`: never empty; the empty string splits into one empty line. */
  function SplitLines(s: string): (lines: seq<string>)
    ensures |lines| > 0
    decreases |s|
  {
    if s == [] then [""]
    else
      var rest := SplitLines(s[1..]);
      if s[0] == '\n' then [""] + rest else [[s[0]] + rest[0]] + rest[1..]
  }

  lemma {:induction false} SplitSingleLine(a: string)
    requires '\n' !in a
    ensures SplitLines(a) == [a]
    decreases |a|
  {
    if a != [] {
      SplitSingleLine(a[1..]);
      assert [a[0]] + a[1..] == a;
    }
  }

  lemma {:induction false} SplitFirstLine(a: string, b: string)
    requires '\n' !in a
    ensures SplitLines(a + "\n" + b) == [a] + SplitLines(b)
    decreases |a|
  {
    if a == [] {
      assert a + "\n" + b == "\n" + b;
      assert ("\n" + b)[1..] == b;
    } else {
      var s := a + "\n" + b;
      assert s[1..] == a[1..] + "\n" + b;
      SplitFirstLine(a[1..], b);
      assert [a[0]] + a[1..] == a;
    }
  }

  /** Splitting a join gives back the lines, as long as no line holds a separator. */
  lemma {:induction false} SplitJoin(lines: seq<string>)
    requires lines != []
    requires forall i | 0 <= i < |lines| :: '\n' !in lines[i]
    ensures SplitLines(JoinLines(lines)) == lines
    decreases |lines|
  {
    if |lines| == 1 {
      SplitSingleLine(lines[0]);
    } else {
      SplitFirstLine(lines[0], JoinLines(lines[1..]));
      SplitJoin(lines[1..]);
    }
  }
}
