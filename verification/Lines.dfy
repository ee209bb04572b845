/** Texts as sequences of lines. */
module Lines {

  predicate Lacks(c: char, s: string) { forall i | 0 <= i < |s| :: s[i] != c }

  predicate EndsLine(text: string) { text == "" || text[|text| - 1] == '\n' }

  /** The position of the first occurrence of `c` at or after `from`, or the length. */
  function FindFrom(c: char, s: string, from: nat): (n: nat)
    requires from <= |s|
    ensures from <= n <= |s|
    ensures forall i | from <= i < n :: s[i] != c
    ensures n < |s| ==> s[n] == c
    decreases |s| - from
  {
    if from == |s| || s[from] == c then from else FindFrom(c, s, from + 1)
  }

  function Find(c: char, s: string): (n: nat)
    ensures n <= |s|
    ensures forall i | 0 <= i < n :: s[i] != c
    ensures n < |s| ==> s[n] == c
  {
    FindFrom(c, s, 0)
  }

  lemma FindIs(c: char, s: string, n: nat)
    requires n < |s| && s[n] == c && (forall i | 0 <= i < n :: s[i] != c)
    ensures Find(c, s) == n
  {
  }

  /** The lines of a text, without their terminators. */
  function Split(text: string): seq<string>
    decreases |text|
  {
    if text == "" then []
    else
      var n := Find('\n', text);
      [text[..n]] + if n == |text| then [] else Split(text[n + 1..])
  }

  lemma SplitFirst(line: string, rest: string)
    requires Lacks('\n', line)
    ensures Split(line + "\n" + rest) == [line] + Split(rest)
  {
    var whole := line + "\n" + rest;
    FindIs('\n', whole, |line|);
    assert whole[..|line|] == line && whole[|line| + 1..] == rest;
  }

  lemma CutFirst(text: string) returns (first: string, rest: string)
    requires EndsLine(text) && text != ""
    ensures text == first + "\n" + rest
    ensures Lacks('\n', first) && EndsLine(rest)
  {
    var n := Find('\n', text);
    first, rest := text[..n], text[n + 1..];
  }

  lemma SplitNothing()
    ensures Split("") == []
  {
  }

  lemma Regroup(a: string, b: string, c: string, d: string)
    ensures a + b + c + d == a + b + (c + d)
  {
  }

  lemma {:induction false} SplitAppend(text: string, more: string)
    requires EndsLine(text)
    ensures Split(text + more) == Split(text) + Split(more)
    decreases |text|
  {
    hide Find, Split, EndsLine;
    if text == "" {
      SplitNothing();
      assert text + more == more;
    } else {
      var first, rest := CutFirst(text);
      SplitAppend(rest, more);
      SplitFirst(first, rest);
      SplitFirst(first, rest + more);
      Regroup(first, "\n", rest, more);
    }
  }

  lemma SplitSnoc(text: string, line: string)
    requires EndsLine(text) && Lacks('\n', line)
    ensures Split(text + line + "\n") == Split(text) + [line]
  {
    SplitAppend(text, line + "\n");
    assert text + line + "\n" == text + (line + "\n");
    SplitFirst(line, "");
    assert line + "\n" + "" == line + "\n";
  }
}
