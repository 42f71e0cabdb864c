/** Newline-terminated lines: joining a list of lines into one text, and
    splitting a text back into its lines. */
module Lines {

  predicate NoNewline(s: string) {
    '\n' !in s
  }

  /** Each line followed by a newline, in order. */
  function JoinLines(lines: seq<string>): string
    decreases |lines|
  {
    if lines == [] then "" else lines[0] + "\n" + JoinLines(lines[1..])
  }

  /** Position of the first newline of s, or |s| when there is none. */
  function LineEnd(s: string): (i: nat)
    ensures i <= |s|
    ensures forall k :: 0 <= k < i ==> s[k] != '\n'
    ensures i < |s| ==> s[i] == '\n'
    decreases |s|
  {
    if s == [] || s[0] == '\n' then 0 else 1 + LineEnd(s[1..])
  }

  /** The lines of a text; a final line without a newline still counts. */
  function SplitLines(s: string): (lines: seq<string>)
    ensures forall k :: 0 <= k < |lines| ==> NoNewline(lines[k])
    decreases |s|
  {
    if s == [] then []
    else
      var i := LineEnd(s);
      if i == |s| then [s] else [s[..i]] + SplitLines(s[i + 1..])
  }

  /** A line without a newline, followed by one, ends where the newline is. */
  lemma {:induction false} LineEndAfter(head: string, rest: string)
    requires NoNewline(head)
    ensures LineEnd(head + "\n" + rest) == |head|
    decreases |head|
  {
    var s := head + "\n" + rest;
    if head != [] {
      assert s[0] == head[0];
      assert s[1..] == head[1..] + "\n" + rest;
      LineEndAfter(head[1..], rest);
    }
  }

  /** Splitting undoes joining, as long as no line holds a newline itself. */
  lemma {:induction false} SplitJoin(lines: seq<string>)
    requires forall k :: 0 <= k < |lines| ==> NoNewline(lines[k])
    ensures SplitLines(JoinLines(lines)) == lines
    decreases |lines|
  {
    if lines != [] {
      var head, rest := lines[0], JoinLines(lines[1..]);
      var s := head + "\n" + rest;
      assert s == JoinLines(lines);
      LineEndAfter(head, rest);
      assert s[..|head|] == head;
      assert s[|head| + 1..] == rest;
      SplitJoin(lines[1..]);
      assert lines == [head] + lines[1..];
    }
  }
}
