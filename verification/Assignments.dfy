/** Which lines of a profile are foreign, said of the line itself (generated_files.rs). */
module Assignments {
  import opened Texts
  import opened ForeignLines

  predicate Spaces(s: string) {
    forall c | c in s :: IsSpace(c)
  }

  /** Letters, digits and underscores. */
  predicate Word(key: string) {
    key != "" && forall c | c in key :: 'a' <= c <= 'z' || 'A' <= c <= 'Z' || '0' <= c <= '9' || c == '_'
  }

  /** The keys of the generated profile. */
  predicate Generated(key: string) {
    key == "model" || key == "model_provider" || key == "web_search" || key == "name" || key == "base_url" ||
    key == "env_key" || key == "wire_api" || key == "supports_standalone_web_search" ||
    key == "supports_websockets"
  }

  predicate Tight(s: string) {
    s != "" && !IsSpace(s[0]) && !IsSpace(s[|s| - 1])
  }

  // ---- Trimming ----

  lemma {:induction false} TrimStartSkips(a: string, s: string)
    requires Spaces(a) && (s == "" || !IsSpace(s[0]))
    ensures TrimStart(a + s) == s
  {
    if a == "" {
      assert a + s == s;
    } else {
      assert (a + s)[1..] == a[1..] + s;
      TrimStartSkips(a[1..], s);
    }
  }

  lemma {:induction false} TrimEndKeeps(s: string, b: string)
    requires s != "" && !IsSpace(s[|s| - 1])
    ensures TrimEnd(s + b) == s + TrimEnd(b)
  {
    if b == "" {
      assert s + b == s;
    } else if IsSpace(b[|b| - 1]) {
      assert (s + b)[..|s + b| - 1] == s + b[..|b| - 1];
      TrimEndKeeps(s, b[..|b| - 1]);
    }
  }

  lemma {:induction false} TrimEndBlank(b: string)
    requires Spaces(b)
    ensures TrimEnd(b) == ""
  {
    if b != "" {
      TrimEndBlank(b[..|b| - 1]);
    }
  }

  lemma TrimBetween(a: string, s: string, b: string)
    requires Spaces(a) && Tight(s) && Spaces(b)
    ensures Trim(a + s + b) == s
  {
    assert a + s + b == a + (s + b);
    TrimStartSkips(a, s + b);
    TrimEndKeeps(s, b);
    TrimEndBlank(b);
  }

  /** What trimming takes away at the start. */
  lemma {:induction false} TrimStartParts(s: string) returns (pad: string)
    ensures s == pad + TrimStart(s) && Spaces(pad)
    ensures TrimStart(s) != "" ==> !IsSpace(TrimStart(s)[0])
  {
    if s != "" && IsSpace(s[0]) {
      var rest := TrimStartParts(s[1..]);
      pad := [s[0]] + rest;
      assert s == [s[0]] + s[1..];
    } else {
      pad := "";
    }
  }

  /** And at the end. */
  lemma {:induction false} TrimEndParts(s: string) returns (gap: string)
    ensures s == TrimEnd(s) + gap && Spaces(gap)
    ensures TrimEnd(s) != "" ==> !IsSpace(TrimEnd(s)[|TrimEnd(s)| - 1])
  {
    if s != "" && IsSpace(s[|s| - 1]) {
      var rest := TrimEndParts(s[..|s| - 1]);
      gap := rest + [s[|s| - 1]];
      assert s == s[..|s| - 1] + [s[|s| - 1]];
    } else {
      gap := "";
    }
  }

  lemma {:induction false} IndexAfter(a: string, c: char, b: string)
    requires c !in a
    ensures Index(a + [c] + b, c) == |a|
  {
    if a == "" {
      assert (a + [c] + b)[0] == c;
    } else {
      assert (a + [c] + b)[1..] == a[1..] + [c] + b;
      IndexAfter(a[1..], c, b);
    }
  }

  // ---- Assignments ----

  /** An assignment to any key is foreign exactly if the key is a word that the generator does
      not write. */
  lemma AssignmentIsForeignIff(pad: string, key: string, gap: string, rest: string)
    requires Spaces(pad) && Spaces(gap) && Tight(key) && '=' !in key && key[0] != '#' && key[0] != '['
    ensures Foreign(pad + key + gap + "=" + rest) <==> Word(key) && !Generated(key)
  {
    var line := pad + key + gap + "=" + rest;
    var left := key + gap;
    assert line == pad + (left + "=" + rest);
    TrimStartSkips(pad, left + "=" + rest);
    TrimEndKeeps(left + "=", rest);
    var trimmed := left + "=" + TrimEnd(rest);
    assert left + "=" + rest == (left + "=") + rest;
    assert Trim(line) == trimmed;
    IndexAfter(left, '=', TrimEnd(rest));
    assert trimmed[..|left|] == left && trimmed[0] == key[0];
    assert "" + key + gap == left;
    TrimBetween("", key, gap);
    ManagedAreGenerated(key);
  }

  lemma ManagedAreGenerated(key: string)
    ensures key in MANAGED_KEYS <==> Generated(key)
  {
    assert MANAGED_KEYS[0] == "model" && MANAGED_KEYS[1] == "model_provider" && MANAGED_KEYS[2] == "web_search";
    assert MANAGED_KEYS[3] == "name" && MANAGED_KEYS[4] == "base_url" && MANAGED_KEYS[5] == "env_key";
    assert MANAGED_KEYS[6] == "wire_api" && MANAGED_KEYS[7] == "supports_standalone_web_search";
    assert MANAGED_KEYS[8] == "supports_websockets" && |MANAGED_KEYS| == 9;
  }

  /** Blank lines, comments, table headers, and lines with nothing before the sign. */
  lemma OtherLinesStay(pad: string, rest: string)
    requires Spaces(pad) && (rest == "" || rest[0] == '#' || rest[0] == '[' || rest[0] == '=')
    ensures !Foreign(pad + rest)
  {
    TrimStartSkips(pad, rest);
    if rest != "" {
      assert rest == rest[..1] + rest[1..];
      TrimEndKeeps(rest[..1], rest[1..]);
      assert Trim(pad + rest)[0] == rest[0];
      if rest[0] == '=' {
        assert Trim(pad + rest)[..0] == "";
      }
    }
  }

  lemma LinesWithoutSignStay(line: string)
    requires '=' !in line
    ensures !Foreign(line)
  {
    var pad := TrimStartParts(line);
    var gap := TrimEndParts(TrimStart(line));
    IndexIsFirst(Trim(line), '=');
    assert forall c | c in Trim(line) :: c in TrimStart(line);
    assert forall c | c in TrimStart(line) :: c in line;
  }

  /** A line assigns to a key. */
  ghost predicate Assigns(line: string, key: string) {
    exists pad: string, gap: string, rest: string ::
      Spaces(pad) && Spaces(gap) && line == pad + key + gap + "=" + rest
  }

  /** Every line is judged by this alone. */
  lemma ForeignIff(line: string)
    ensures Foreign(line) <==> exists key: string :: Word(key) && !Generated(key) && Assigns(line, key)
  {
    if Foreign(line) {
      var key := ForeignKey(line);
    }
    if key: string :| Word(key) && !Generated(key) && Assigns(line, key) {
      var pad: string, gap: string, rest: string :|
        Spaces(pad) && Spaces(gap) && line == pad + key + gap + "=" + rest;
      WordIsTight(key);
      AssignmentIsForeignIff(pad, key, gap, rest);
    }
  }

  lemma WordIsTight(key: string)
    requires Word(key)
    ensures Tight(key) && '=' !in key && key[0] != '#' && key[0] != '['
  {
    assert key[0] in key && key[|key| - 1] in key;
  }

  lemma ForeignKey(line: string) returns (key: string)
    requires Foreign(line)
    ensures Word(key) && !Generated(key) && Assigns(line, key)
  {
    var trimmed := Trim(line);
    var at := Index(trimmed, '=');
    key := Trim(trimmed[..at]);
    ManagedAreGenerated(key);
    AssignmentParts(line, trimmed, at);
  }

  lemma AssignmentParts(line: string, trimmed: string, at: nat)
    requires trimmed == Trim(line) && at < |trimmed| && at == Index(trimmed, '=')
    ensures Assigns(line, Trim(trimmed[..at]))
  {
    IndexIsFirst(trimmed, '=');
    var before, behind := TrimParts(line);
    var pad, gap := TrimParts(trimmed[..at]);
    Regroup(line, trimmed, at, before, behind, pad, Trim(trimmed[..at]), gap);
  }

  lemma TrimParts(s: string) returns (pad: string, gap: string)
    ensures s == pad + Trim(s) + gap && Spaces(pad) && Spaces(gap)
  {
    pad := TrimStartParts(s);
    gap := TrimEndParts(TrimStart(s));
    assert pad + (Trim(s) + gap) == pad + Trim(s) + gap;
  }

  lemma Regroup(line: string, trimmed: string, at: nat, before: string, behind: string, pad: string, key: string,
                gap: string)
    requires line == before + trimmed + behind && at < |trimmed| && trimmed[at] == '='
    requires trimmed[..at] == pad + key + gap && Spaces(before) && Spaces(pad) && Spaces(gap)
    ensures Assigns(line, key)
  {
    var rest := trimmed[at + 1..] + behind;
    assert Spaces(before + pad);
    assert line == (before + pad) + key + gap + "=" + rest;
  }

  // ---- Generated profiles ----

  /** A line of a generated profile: an assignment to a generated key, a blank line, a comment,
      a table header. */
  ghost predicate ProfileLine(line: string) {
    Line(line) &&
    ((exists key: string :: Generated(key) && Assigns(line, key)) || Opens(line))
  }

  ghost predicate Opens(line: string) {
    exists pad: string, rest: string ::
      line == pad + rest && Spaces(pad) && (rest == "" || rest[0] == '#' || rest[0] == '[')
  }

  lemma ProfileLineStays(line: string)
    requires ProfileLine(line)
    ensures !Foreign(line)
  {
    if Opens(line) {
      var pad: string, rest: string :|
        line == pad + rest && Spaces(pad) && (rest == "" || rest[0] == '#' || rest[0] == '[');
      OtherLinesStay(pad, rest);
    } else {
      var key: string :| Generated(key) && Assigns(line, key);
      var pad: string, gap: string, rest: string :|
        Spaces(pad) && Spaces(gap) && line == pad + key + gap + "=" + rest;
      GeneratedIsWord(key);
      WordIsTight(key);
      AssignmentIsForeignIff(pad, key, gap, rest);
    }
  }

  lemma GeneratedIsWord(key: string)
    requires Generated(key)
    ensures Word(key)
  {
  }

  lemma GeneratedStays(key: string, gap: string, rest: string)
    requires Generated(key) && Spaces(gap)
    ensures !Foreign(key + gap + "=" + rest)
  {
    GeneratedIsWord(key);
    WordIsTight(key);
    AssignmentIsForeignIff("", key, gap, rest);
    assert "" + key == key;
  }

  /** The two ways in which a generated assignment is usually written. */
  lemma GeneratedAssignmentsStay(key: string, value: string)
    requires Generated(key)
    ensures !Foreign(key + "=" + value + "\n") && !Foreign(key + " = " + value + "\n")
  {
    GeneratedStays(key, "", value + "\n");
    Regrouped(key + "=", value, "\n");
    assert key + "" == key;
    GeneratedStays(key, " ", " " + value + "\n");
    SpacedSign(key, value + "\n");
    Regrouped(key + " = ", value, "\n");
    Regrouped(" ", value, "\n");
  }

  lemma SpacedSign(key: string, rest: string)
    ensures key + " " + "=" + (" " + rest) == key + " = " + rest
  {
    assert " = " == " " + "=" + " ";
  }

  function Joined(lines: seq<string>): string {
    if lines == [] then "" else lines[0] + Joined(lines[1..])
  }

  /** A generated profile has no line that the filter drops. */
  lemma {:induction false} ProfileIsKept(lines: seq<string>)
    requires forall line | line in lines :: ProfileLine(line)
    ensures Kept(Joined(lines), (l: string) => Foreign(l)) == Joined(lines)
  {
    if lines != [] {
      assert lines[0] in lines;
      ProfileLineStays(lines[0]);
      ProfileIsKept(lines[1..]);
      KeptAfterLine(lines[0], Joined(lines[1..]), (l: string) => Foreign(l));
    }
  }
}
