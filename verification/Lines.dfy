/** Which lines of a coding client's profile are its own settings (generated_files.rs). */
module ForeignLines {
  import opened Texts

  function TrimStart(s: string): string {
    if s != "" && IsSpace(s[0]) then TrimStart(s[1..]) else s
  }

  function TrimEnd(s: string): string {
    if s != "" && IsSpace(s[|s| - 1]) then TrimEnd(s[..|s| - 1]) else s
  }

  function Trim(s: string): string {
    TrimEnd(TrimStart(s))
  }

  /** The position of the first `c`, or the length. */
  function Index(s: string, c: char): (i: nat)
    ensures i <= |s|
  {
    if |s| == 0 || s[0] == c then 0 else 1 + Index(s[1..], c)
  }

  lemma {:induction false} IndexIsFirst(s: string, c: char)
    ensures Index(s, c) < |s| ==> s[Index(s, c)] == c
    ensures c !in s[..Index(s, c)]
    ensures c in s <==> Index(s, c) < |s|
  {
    if |s| > 0 && s[0] != c {
      IndexIsFirst(s[1..], c);
      assert s == [s[0]] + s[1..];
      var i := Index(s[1..], c);
      assert s[..1 + i] == [s[0]] + s[1..][..i];
    }
  }

  /** What follows does not matter once the character was found, nor what came after it. */
  lemma {:induction false} IndexIn(s: string, t: string, c: char)
    requires Index(s, c) < |s|
    ensures Index(s + t, c) == Index(s, c) && Index(s[..Index(s, c) + 1], c) == Index(s, c)
  {
    if s[0] != c {
      IndexIn(s[1..], t, c);
      assert (s + t)[1..] == s[1..] + t;
      assert s[..Index(s, c) + 1][1..] == s[1..][..Index(s[1..], c) + 1];
    }
  }

  const MANAGED_KEYS: seq<string> := [
    "model", "model_provider", "web_search", "name", "base_url", "env_key", "wire_api",
    "supports_standalone_web_search", "supports_websockets"]

  predicate KeyCharacter(c: char) {
    'a' <= c <= 'z' || 'A' <= c <= 'Z' || '0' <= c <= '9' || c == '_'
  }

  /** `foreign_assignment`: an assignment to a plain key that the generator does not write. */
  predicate Foreign(line: string) {
    var trimmed := Trim(line);
    trimmed != "" && trimmed[0] != '#' && trimmed[0] != '[' &&
    var at := Index(trimmed, '=');
    at < |trimmed| &&
    var key := Trim(trimmed[..at]);
    key != "" && (forall c | c in key :: KeyCharacter(c)) && key !in MANAGED_KEYS
  }

  /** The first line with its line feed, as `split_inclusive` yields it. */
  function FirstLine(s: string): (line: string)
    requires |s| > 0
    ensures 0 < |line| <= |s| && line <= s
  {
    var at := Index(s, '\n');
    if at < |s| then s[..at + 1] else s
  }

  /** A line that goes or stays, and a text without the lines that go. */
  function KeptLine(line: string, drop: string -> bool): string {
    if drop(line) then "" else line
  }

  function Kept(s: string, drop: string -> bool): string
    decreases |s|
  {
    if |s| == 0 then "" else KeptLine(FirstLine(s), drop) + Kept(s[|FirstLine(s)|..], drop)
  }

  lemma Regrouped(a: string, b: string, c: string)
    ensures a + (b + c) == (a + b) + c
  {
  }

  lemma KeptUnfolds(s: string, drop: string -> bool)
    requires |s| > 0
    ensures Kept(s, drop) == KeptLine(FirstLine(s), drop) + Kept(s[|FirstLine(s)|..], drop)
  {
  }

  /** `without_foreign_assignments`, for any notion of a foreign line. */
  method WithoutForeignAssignments(s: string, drop: string -> bool) returns (kept: string)
    ensures kept == Kept(s, drop)
  {
    kept := "";
    var rest := s;
    while |rest| > 0
      invariant Kept(s, drop) == kept + Kept(rest, drop)
      decreases |rest|
    {
      var line := FirstLine(rest);
      KeptUnfolds(rest, drop);
      Regrouped(kept, KeptLine(line, drop), Kept(rest[|line|..], drop));
      kept := kept + KeptLine(line, drop);
      rest := rest[|line|..];
    }
  }

  predicate Terminated(s: string) {
    |s| == 0 || s[|s| - 1] == '\n'
  }

  /** A line: one line feed, at the end. */
  predicate Line(s: string) {
    |s| > 0 && Index(s, '\n') == |s| - 1
  }

  lemma FirstIsLine(s: string, t: string)
    requires Line(s)
    ensures |s + t| > 0 && FirstLine(s + t) == s
  {
    IndexIn(s, t, '\n');
    assert (s + t)[..|s|] == s;
  }

  lemma FirstLineIsLine(s: string)
    requires |s| > 0 && (Terminated(s) || |FirstLine(s)| < |s|)
    ensures Line(FirstLine(s)) && Terminated(s[|FirstLine(s)|..]) == Terminated(s)
  {
    IndexIsFirst(s, '\n');
    IndexIn(s, "", '\n');
  }

  lemma KeptAfterLine(line: string, s: string, drop: string -> bool)
    requires Line(line)
    ensures Kept(line + s, drop) == KeptLine(line, drop) + Kept(s, drop)
  {
    FirstIsLine(line, s);
    assert (line + s)[|line|..] == s;
  }

  /** The filter distributes over text that ends where a line ends. */
  lemma {:induction false} KeptJoins(a: string, b: string, drop: string -> bool)
    requires Terminated(a)
    ensures Kept(a + b, drop) == Kept(a, drop) + Kept(b, drop)
    decreases |a|
  {
    if |a| == 0 {
      KeptJoinsNothing(a, b, drop);
    } else {
      var line, rest := SplitFirst(a);
      KeptJoins(rest, b, drop);
      KeptJoinsAfter(line, rest, b, drop);
    }
  }

  lemma KeptJoinsNothing(a: string, b: string, drop: string -> bool)
    requires |a| == 0
    ensures Kept(a + b, drop) == Kept(a, drop) + Kept(b, drop)
  {
    assert a + b == b;
    assert Kept(a, drop) == [];
  }

  lemma SplitFirst(a: string) returns (line: string, rest: string)
    requires Terminated(a) && |a| > 0
    ensures a == line + rest && Line(line) && Terminated(rest) && |rest| < |a|
  {
    FirstLineIsLine(a);
    line, rest := FirstLine(a), a[|FirstLine(a)|..];
  }

  lemma KeptJoinsAfter(line: string, rest: string, b: string, drop: string -> bool)
    requires Line(line) && Kept(rest + b, drop) == Kept(rest, drop) + Kept(b, drop)
    ensures Kept(line + rest + b, drop) == Kept(line + rest, drop) + Kept(b, drop)
  {
    Regrouped(line, rest, b);
    KeptAfterLine(line, rest + b, drop);
    KeptAfterLine(line, rest, drop);
    Regrouped(KeptLine(line, drop), Kept(rest, drop), Kept(b, drop));
  }

  /** Filtering twice is filtering once. */
  lemma {:induction false} KeptTwice(s: string, drop: string -> bool)
    ensures Kept(Kept(s, drop), drop) == Kept(s, drop)
    decreases |s|
  {
    if |s| > 0 {
      var line := FirstLine(s);
      var rest := s[|line|..];
      KeptTwice(rest, drop);
      if |rest| == 0 {
        assert line == s;
        KeptWhole(line, drop);
      } else {
        FirstLineIsLine(s);
        if drop(line) {
          assert Kept(s, drop) == Kept(rest, drop);
        } else {
          KeptAfterLine(line, Kept(rest, drop), drop);
        }
      }
    }
  }

  /** A text that is a single line, with or without its line feed. */
  lemma KeptWhole(line: string, drop: string -> bool)
    requires |line| > 0 && FirstLine(line) == line
    ensures Kept(line, drop) == KeptLine(line, drop) && Kept(KeptLine(line, drop), drop) == KeptLine(line, drop)
  {
    assert line[|line|..] == "";
    assert KeptLine(line, drop) + "" == KeptLine(line, drop);
  }

  lemma {:induction false} KeptIsShorter(s: string, drop: string -> bool)
    ensures |Kept(s, drop)| <= |s|
    decreases |s|
  {
    if |s| > 0 {
      KeptIsShorter(s[|FirstLine(s)|..], drop);
    }
  }

  /** The client's own settings can be added at any line boundary without a trace. */
  lemma DroppedLinesVanish(a: string, line: string, b: string, drop: string -> bool)
    requires Terminated(a) && Line(line) && drop(line)
    ensures Kept(a + line + b, drop) == Kept(a + b, drop)
  {
    calc {
      Kept(a + line + b, drop);
      { assert a + line + b == a + (line + b); }
      Kept(a + (line + b), drop);
      { KeptJoins(a, line + b, drop); }
      Kept(a, drop) + Kept(line + b, drop);
      { KeptAfterLine(line, b, drop); }
      Kept(a, drop) + ("" + Kept(b, drop));
      { assert "" + Kept(b, drop) == Kept(b, drop); }
      Kept(a, drop) + Kept(b, drop);
      { KeptJoins(a, b, drop); }
      Kept(a + b, drop);
    }
  }

  /** At the top it makes the text longer than its filtered form. */
  lemma DroppedAtTop(line: string, s: string, drop: string -> bool)
    requires Line(line) && drop(line)
    ensures Kept(line + s, drop) == Kept(s, drop)
    ensures |Kept(line + s, drop)| < |line + s|
  {
    KeptAfterLine(line, s, drop);
    assert "" + Kept(s, drop) == Kept(s, drop);
    KeptIsShorter(s, drop);
  }

  /** Such a line exists. */
  lemma ExampleIsForeign()
    ensures Line("z=1\n") && Foreign("z=1\n")
  {
    var line := "z=1\n";
    assert line[0] == 'z' && line[3] == '\n';
    assert Index(line, '\n') == 3;
    assert TrimStart(line) == line;
    assert TrimEnd(line) == TrimEnd("z=1") by {
      assert line[..3] == "z=1";
    }
    assert TrimEnd("z=1") == "z=1";
    assert Index("z=1", '=') == 1;
    assert "z=1"[..1] == "z";
    assert Trim("z") == "z";
    assert |"z"| == 1;
    forall k | k in MANAGED_KEYS
      ensures k != "z"
    {
      assert |k| > 1;
    }
  }
}
