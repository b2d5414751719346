/** Newline-terminated text: building it from lines, and reading it back. */
module TextLines {

  predicate StartsWith(s: string, prefix: string) {
    |prefix| <= |s| && s[..|prefix|] == prefix
  }

  predicate EndsWith(s: string, suffix: string) {
    |suffix| <= |s| && s[|s| - |suffix|..] == suffix
  }

  lemma StartsWithAppend(prefix: string, rest: string)
    ensures StartsWith(prefix + rest, prefix)
  {
    assert (prefix + rest)[..|prefix|] == prefix;
  }

  lemma EndsWithAppend(rest: string, suffix: string)
    ensures EndsWith(rest + suffix, suffix)
  {
    assert (rest + suffix)[|rest|..] == suffix;
  }

  /** A string cannot end with two suffixes that disagree where they overlap. */
  lemma EndingsExclusive(s: string, short: string, long: string)
    requires |short| <= |long| && !EndsWith(long, short)
    ensures !(EndsWith(s, short) && EndsWith(s, long))
  {
    if EndsWith(s, long) && |short| <= |s| {
      assert long[|long| - |short|..] == s[|s| - |short|..];
    }
  }

  predicate NoNewline(line: string) {
    forall i :: 0 <= i < |line| ==> line[i] != '\n'
  }

  /** Every line followed by a newline, as the report appends them. */
  function Unlines(lines: seq<string>): string {
    if lines == [] then "" else lines[0] + "\n" + Unlines(lines[1..])
  }

  lemma UnlinesCons(line: string, lines: seq<string>)
    ensures Unlines([line] + lines) == line + "\n" + Unlines(lines)
  {
    assert ([line] + lines)[1..] == lines;
  }

  lemma {:induction false} UnlinesAppend(a: seq<string>, b: seq<string>)
    ensures Unlines(a + b) == Unlines(a) + Unlines(b)
  {
    if a != [] {
      assert (a + b)[1..] == a[1..] + b;
      UnlinesAppend(a[1..], b);
    } else {
      assert a + b == b;
    }
  }

  lemma UnlinesSnoc(lines: seq<string>, line: string)
    ensures Unlines(lines + [line]) == Unlines(lines) + line + "\n"
  {
    UnlinesAppend(lines, [line]);
    UnlinesCons(line, []);
  }

  lemma ConcatAssoc(a: string, b: string, c: string)
    ensures a + b + c == a + (b + c)
  {
  }

  /** Appending one more line to text that already ends in `lines`. */
  lemma AppendLine(prefix: string, lines: seq<string>, line: string)
    ensures prefix + Unlines(lines) + line + "\n" == prefix + Unlines(lines + [line])
  {
    UnlinesSnoc(lines, line);
    assert prefix + Unlines(lines) + line + "\n" == prefix + (Unlines(lines) + line + "\n");
  }

  /** Appending the next line of `lines` to text that holds the ones before it. */
  lemma EmitNext(prefix: string, lines: seq<string>, k: nat, line: string)
    requires k < |lines| && lines[k] == line
    ensures prefix + Unlines(lines[..k]) + line + "\n" == prefix + Unlines(lines[..k + 1])
  {
    AppendLine(prefix, lines[..k], line);
    assert lines[..k] + [line] == lines[..k + 1];
  }

  /** Text whose first two lines are `lines[0]` and `lines[1]` begins with them. */
  lemma UnlinesStart(lines: seq<string>)
    requires |lines| >= 2
    ensures StartsWith(Unlines(lines), lines[0] + "\n" + lines[1] + "\n")
  {
    var rest := Unlines(lines[2..]);
    assert lines[1..][1..] == lines[2..];
    assert Unlines(lines[1..]) == lines[1] + "\n" + rest;
    assert Unlines(lines) == lines[0] + "\n" + (lines[1] + "\n" + rest);
    ConcatAssoc(lines[0] + "\n", lines[1] + "\n", rest);
    StartsWithAppend(lines[0] + "\n" + lines[1] + "\n", rest);
  }

  /** Text whose last line is empty ends with a blank line. */
  lemma UnlinesEnd(lines: seq<string>)
    requires |lines| >= 2 && lines[|lines| - 1] == ""
    ensures EndsWith(Unlines(lines), "\n\n")
  {
    var n := |lines|;
    var front := lines[..n - 1];
    var earlier := lines[..n - 2];
    var last := lines[n - 2];
    assert lines == front + [""];
    assert front == earlier + [last];
    UnlinesSnoc(front, "");
    UnlinesSnoc(earlier, last);
    var body := Unlines(earlier) + last;
    assert Unlines(lines) == body + "\n" + "" + "\n";
    assert "\n" + "" + "\n" == "\n\n";
    ConcatAssoc(body + "\n", "", "\n");
    ConcatAssoc(body, "\n", "\n");
    EndsWithAppend(body, "\n\n");
  }

  /** The position of the first newline of `s`, or `|s|` if there is none. */
  function NewlineIndex(s: string): (k: nat)
    ensures k <= |s|
    ensures forall i :: 0 <= i < k ==> s[i] != '\n'
    ensures k < |s| ==> s[k] == '\n'
  {
    if s == [] || s[0] == '\n' then 0 else 1 + NewlineIndex(s[1..])
  }

  /** The lines of `s`: the pieces between newlines, where a final newline
      ends the last line rather than starting an empty one. */
  function SplitLines(s: string): seq<string>
    decreases |s|
  {
    if s == [] then []
    else
      var k := NewlineIndex(s);
      if k == |s| then [s] else [s[..k]] + SplitLines(s[k + 1..])
  }

  /** Splitting newline-terminated text recovers its lines, provided no line
      carries a newline of its own. */
  lemma {:induction false} SplitUnlines(lines: seq<string>)
    requires forall i :: 0 <= i < |lines| ==> NoNewline(lines[i])
    ensures SplitLines(Unlines(lines)) == lines
  {
    if lines != [] {
      var s := Unlines(lines);
      var first := lines[0];
      assert s == first + "\n" + Unlines(lines[1..]);
      assert s[|first|] == '\n';
      var k := NewlineIndex(s);
      assert k == |first|;
      assert s[..k] == first;
      assert s[k + 1..] == Unlines(lines[1..]);
      SplitUnlines(lines[1..]);
      assert lines == [first] + lines[1..];
    }
  }

  /** The number of empty lines. */
  function CountEmpty(lines: seq<string>): nat {
    if lines == [] then 0
    else CountEmpty(lines[..|lines| - 1]) + (if lines[|lines| - 1] == "" then 1 else 0)
  }

  lemma {:induction false} CountEmptyAppend(a: seq<string>, b: seq<string>)
    ensures CountEmpty(a + b) == CountEmpty(a) + CountEmpty(b)
  {
    if b == [] {
      assert a + b == a;
    } else {
      assert (a + b)[..|a + b| - 1] == a + b[..|b| - 1];
      CountEmptyAppend(a, b[..|b| - 1]);
    }
  }

  /** Lines that are all non-empty except the last, which is empty, hold
      exactly one empty line. */
  lemma {:induction false} CountEmptyLastOnly(lines: seq<string>)
    requires |lines| > 0 && lines[|lines| - 1] == ""
    requires forall i :: 0 <= i < |lines| - 1 ==> lines[i] != ""
    ensures CountEmpty(lines) == 1
  {
    var front := lines[..|lines| - 1];
    NoneEmpty(front);
  }

  lemma {:induction false} NoneEmpty(lines: seq<string>)
    requires forall i :: 0 <= i < |lines| ==> lines[i] != ""
    ensures CountEmpty(lines) == 0
  {
    if lines != [] {
      NoneEmpty(lines[..|lines| - 1]);
    }
  }
}
