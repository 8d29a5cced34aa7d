/**
 * Lines of a text: the pieces between newline characters, as Python's
 * `str.split("\n")` returns them ("a\nb" has the lines "a" and "b", "a\n"
 * has "a" and ""). Used to state the line structure of generated prompts.
 */
module Lines {

  predicate NoNewline(s: string) {
    '\n' !in s
  }

  function SplitLines(s: string): (lines: seq<string>)
    ensures |lines| >= 1
    ensures forall i :: 0 <= i < |lines| ==> NoNewline(lines[i])
  {
    if s == [] then [""]
    else
      var rest := SplitLines(s[1..]);
      if s[0] == '\n' then [""] + rest
      else [[s[0]] + rest[0]] + rest[1..]
  }

  /** The inverse of SplitLines: the lines glued back with one newline between each two. */
  function JoinLines(lines: seq<string>): string
    requires |lines| >= 1
  {
    if |lines| == 1 then lines[0] else lines[0] + "\n" + JoinLines(lines[1..])
  }

  /** Concatenation regroups; stated once so that callers need not re-prove it by extensionality. */
  lemma Assoc<T>(a: seq<T>, b: seq<T>, c: seq<T>)
    ensures (a + b) + c == a + (b + c)
  {
  }

  /** A text without newlines is one line. */
  lemma {:induction false} SplitSingle(a: string)
    requires NoNewline(a)
    ensures SplitLines(a) == [a]
  {
    if a != [] {
      assert a[0] in a;
      assert forall c :: c in a[1..] ==> c in a;
      SplitSingle(a[1..]);
      assert [a[0]] + a[1..] == a;
    }
  }

  /** A newline-free text followed by a newline is the first line of what it starts. */
  lemma {:induction false} SplitFirstLine(a: string, b: string)
    requires NoNewline(a)
    ensures SplitLines(a + "\n" + b) == [a] + SplitLines(b)
  {
    if a == [] {
      assert a + "\n" + b == ['\n'] + b;
      assert (['\n'] + b)[1..] == b;
    } else {
      assert (a + "\n" + b)[1..] == a[1..] + "\n" + b;
      SplitFirstLine(a[1..], b);
      assert [a[0]] + a[1..] == a;
    }
  }

  lemma {:induction false} JoinSplit(s: string)
    ensures JoinLines(SplitLines(s)) == s
  {
    if s != [] {
      JoinSplit(s[1..]);
      var rest := SplitLines(s[1..]);
      if s[0] == '\n' {
        assert ([""] + rest)[1..] == rest;
      } else {
        var lines := [[s[0]] + rest[0]] + rest[1..];
        if |rest| == 1 {
          assert JoinLines(lines) == [s[0]] + rest[0];
        } else {
          assert lines[1..] == rest[1..];
          assert JoinLines(rest) == rest[0] + "\n" + JoinLines(rest[1..]);
          assert JoinLines(lines) == [s[0]] + JoinLines(rest);
        }
        assert s == [s[0]] + s[1..];
      }
    }
  }

  lemma {:induction false} SplitJoin(lines: seq<string>)
    requires |lines| >= 1
    requires forall i :: 0 <= i < |lines| ==> NoNewline(lines[i])
    ensures SplitLines(JoinLines(lines)) == lines
  {
    if |lines| == 1 {
      SplitSingle(lines[0]);
    } else {
      SplitJoin(lines[1..]);
      SplitFirstLine(lines[0], JoinLines(lines[1..]));
      assert [lines[0]] + lines[1..] == lines;
    }
  }

  /** Each element's line followed by a newline, in order. */
  function Terminated<T>(line: T -> string, xs: seq<T>): string {
    if xs == [] then "" else Terminated(line, xs[..|xs| - 1]) + (line(xs[|xs| - 1]) + "\n")
  }

  /** The lines of the elements, in order. */
  function LinesOf<T>(line: T -> string, xs: seq<T>): (r: seq<string>)
    ensures |r| == |xs|
    ensures forall i :: 0 <= i < |xs| ==> r[i] == line(xs[i])
  {
    seq(|xs|, i requires 0 <= i < |xs| => line(xs[i]))
  }

  lemma {:induction false} TerminatedConcat<T>(line: T -> string, xs: seq<T>, ys: seq<T>)
    ensures Terminated(line, xs + ys) == Terminated(line, xs) + Terminated(line, ys)
    decreases |ys|
  {
    if ys == [] {
      assert xs + ys == xs;
    } else {
      var init, last := ys[..|ys| - 1], ys[|ys| - 1];
      var zs := xs + ys;
      assert zs[..|zs| - 1] == xs + init;
      assert zs[|zs| - 1] == last;
      TerminatedConcat(line, xs, init);
      Assoc(Terminated(line, xs), Terminated(line, init), line(last) + "\n");
    }
  }

  lemma TerminatedSingle<T>(line: T -> string, x: T)
    ensures Terminated(line, [x]) == line(x) + "\n"
  {
    assert [x][..0] == [];
  }

  lemma TerminatedAround<T>(line: T -> string, pre: seq<T>, x: T, post: seq<T>)
    ensures Terminated(line, (pre + [x]) + post) == Terminated(line, pre) + line(x) + "\n" + Terminated(line, post)
  {
    TerminatedConcat(line, pre + [x], post);
    TerminatedConcat(line, pre, [x]);
    TerminatedSingle(line, x);
    Assoc(Terminated(line, pre), line(x), "\n");
  }

  lemma Around<T>(xs: seq<T>, i: nat)
    requires i < |xs|
    ensures xs == (xs[..i] + [xs[i]]) + xs[i + 1..]
  {
  }

  /** Element `i`'s line sits between the lines of the elements before and after it. */
  lemma TerminatedAt<T>(line: T -> string, xs: seq<T>, i: nat)
    requires i < |xs|
    ensures Terminated(line, xs) == Terminated(line, xs[..i]) + line(xs[i]) + "\n" + Terminated(line, xs[i + 1..])
  {
    Around(xs, i);
    TerminatedAround(line, xs[..i], xs[i], xs[i + 1..]);
  }

  lemma JoinCons(a: string, tail: seq<string>)
    requires |tail| >= 1
    ensures JoinLines([a] + tail) == a + "\n" + JoinLines(tail)
  {
    assert ([a] + tail)[1..] == tail;
  }

  /** Newline-terminated lines followed by more joined lines are all those lines joined. */
  lemma {:induction false} TerminatedJoin<T>(line: T -> string, xs: seq<T>, tail: seq<string>)
    requires |tail| >= 1
    ensures Terminated(line, xs) + JoinLines(tail) == JoinLines(LinesOf(line, xs) + tail)
    decreases |xs|
  {
    if xs == [] {
      assert LinesOf(line, xs) + tail == tail;
    } else {
      var init, last := xs[..|xs| - 1], xs[|xs| - 1];
      JoinCons(line(last), tail);
      TerminatedJoin(line, init, [line(last)] + tail);
      assert LinesOf(line, init) + ([line(last)] + tail) == LinesOf(line, xs) + tail;
      Assoc(Terminated(line, init), line(last) + "\n", JoinLines(tail));
      Assoc(line(last), "\n", JoinLines(tail));
    }
  }

  /** When no element's line holds a newline, splitting recovers exactly one line per element. */
  lemma SplitTerminated<T>(line: T -> string, xs: seq<T>)
    requires forall i :: 0 <= i < |xs| ==> NoNewline(line(xs[i]))
    ensures SplitLines(Terminated(line, xs)) == LinesOf(line, xs) + [""]
  {
    TerminatedJoin(line, xs, [""]);
    assert Terminated(line, xs) + JoinLines([""]) == Terminated(line, xs);
    SplitJoin(LinesOf(line, xs) + [""]);
  }
}
