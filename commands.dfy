/**
 * `sanitise_command`: lower-case the command, strip it, keep only letters and white
 * space, and collapse every run of white space into one space.
 */
module Commands {
  import opened Text

  /** The letters and white-space characters of `s`, in order. */
  function Keep(s: string): string {
    if s == [] then ""
    else
      var c := s[|s| - 1];
      Keep(s[..|s| - 1]) + (if IsAlpha(c) || IsSpace(c) then [c] else "")
  }

  /** What `sanitise_command` returns. */
  function Sanitised(command: string): string {
    Join(" ", SplitWs(Keep(Strip(Lower(command)))))
  }

  /** Lower-case letters and single spaces, with no space at either end. */
  predicate Canonical(r: string) {
    && (forall i :: 0 <= i < |r| ==> IsLower(r[i]) || r[i] == ' ')
    && (|r| > 0 ==> r[0] != ' ' && r[|r| - 1] != ' ')
    && (forall i, j :: 0 <= i < |r| && 0 <= j < |r| && j == i + 1 ==> r[i] != ' ' || r[j] != ' ')
  }

  predicate NoUpper(s: string) {
    forall i :: 0 <= i < |s| ==> !IsUpper(s[i])
  }

  predicate LowerOrSpace(s: string) {
    forall i :: 0 <= i < |s| ==> IsLower(s[i]) || IsSpace(s[i])
  }

  predicate AllLower(s: string) {
    forall i :: 0 <= i < |s| ==> IsLower(s[i])
  }

  // ---------------------------------------------------------------------------
  // which characters survive each stage

  lemma {:induction false} NoUpperTrimStart(s: string)
    requires NoUpper(s)
    ensures NoUpper(TrimStart(s))
  {
    if s != [] && IsSpace(s[0]) {
      NoUpperTrimStart(s[1..]);
    }
  }

  lemma {:induction false} NoUpperTrimEnd(s: string)
    requires NoUpper(s)
    ensures NoUpper(TrimEnd(s))
  {
    if s != [] && IsSpace(s[|s| - 1]) {
      NoUpperTrimEnd(s[..|s| - 1]);
    }
  }

  lemma {:induction false} KeepLowerOrSpace(s: string)
    requires NoUpper(s)
    ensures LowerOrSpace(Keep(s))
  {
    if s != [] {
      KeepLowerOrSpace(s[..|s| - 1]);
    }
  }

  lemma {:induction false} SplitWsLower(s: string)
    requires LowerOrSpace(s)
    ensures forall k :: 0 <= k < |SplitWs(s)| ==> AllLower(SplitWs(s)[k])
  {
    if s != [] {
      SplitWsLower(s[1..]);
      var rest := SplitWs(s[1..]);
      if !IsSpace(s[0]) && |s| > 1 && !IsSpace(s[1]) {
        assert forall k :: 1 <= k < |rest| ==> SplitWs(s)[k] == rest[k];
        assert SplitWs(s)[0] == [s[0]] + rest[0];
      } else if !IsSpace(s[0]) {
        assert forall k :: 1 <= k < |SplitWs(s)| ==> SplitWs(s)[k] == rest[k - 1];
      }
    }
  }

  /** Two canonical strings joined by a space give a canonical string. */
  lemma CanonicalJoinTwo(a: string, b: string)
    requires Canonical(a) && Canonical(b) && |a| > 0 && |b| > 0
    ensures Canonical(a + " " + b)
  {
    var r := a + " " + b;
    assert forall i :: 0 <= i < |a| ==> r[i] == a[i];
    assert r[|a|] == ' ';
    assert forall i :: |a| < i < |r| ==> r[i] == b[i - |a| - 1];
  }

  lemma {:induction false} JoinWordsCanonical(words: seq<string>)
    requires forall k :: 0 <= k < |words| ==> IsWord(words[k]) && AllLower(words[k])
    ensures Canonical(Join(" ", words))
    ensures |words| > 0 ==> |Join(" ", words)| > 0
  {
    if |words| > 1 {
      JoinWordsCanonical(words[1..]);
      CanonicalJoinTwo(words[0], Join(" ", words[1..]));
    }
  }

  // ---------------------------------------------------------------------------
  // letters

  lemma {:induction false} LettersKeep(s: string)
    ensures Letters(Keep(s)) == Letters(s)
  {
    if s != [] {
      var p, c := s[..|s| - 1], s[|s| - 1];
      LettersKeep(p);
      assert s == p + [c];
      LettersAppend(p, [c]);
      LettersAppend(Keep(p), if IsAlpha(c) || IsSpace(c) then [c] else "");
    }
  }

  // ---------------------------------------------------------------------------
  // canonical strings are left alone

  lemma {:induction false} KeepAll(s: string)
    requires LowerOrSpace(s)
    ensures Keep(s) == s
  {
    if s != [] {
      KeepAll(s[..|s| - 1]);
      assert s == s[..|s| - 1] + [s[|s| - 1]];
    }
  }

  lemma SplitWsSpaceAfter(s: string)
    requires |s| > 1 && !IsSpace(s[0]) && s[1] == ' '
    ensures SplitWs(s) == [[s[0]]] + SplitWs(s[2..])
  {
    assert s[1..][1..] == s[2..];
  }

  lemma SplitWsLetterAfter(s: string)
    requires |s| > 1 && !IsSpace(s[0]) && !IsSpace(s[1])
    ensures |SplitWs(s[1..])| > 0
    ensures SplitWs(s) == [[s[0]] + SplitWs(s[1..])[0]] + SplitWs(s[1..])[1..]
  {
  }

  lemma CanonicalSuffix(s: string, k: nat)
    requires Canonical(s) && k < |s| && s[k] != ' '
    ensures Canonical(s[k..])
  {
  }

  /** The step of `JoinSplitWsCanonical` when a one-letter word comes first. */
  lemma JoinSplitWsShortWord(s: string)
    requires |s| > 2 && !IsSpace(s[0]) && s[1] == ' '
    requires Join(" ", SplitWs(s[2..])) == s[2..] && |SplitWs(s[2..])| > 0
    ensures Join(" ", SplitWs(s)) == s && |SplitWs(s)| > 0
  {
    var t := s[2..];
    SplitWsSpaceAfter(s);
    assert s == [s[0]] + " " + t;
  }

  lemma JoinFirst(words: seq<string>)
    requires |words| > 1
    ensures Join(" ", words) == words[0] + " " + Join(" ", words[1..])
  {
  }

  lemma ConcatFront(c: char, w: string, t: string)
    ensures ([c] + w) + " " + t == [c] + (w + " " + t)
  {
  }

  lemma JoinFrontLetterMore(c: char, words: seq<string>)
    requires |words| > 1
    ensures Join(" ", [[c] + words[0]] + words[1..]) == [c] + Join(" ", words)
  {
    var ws := [[c] + words[0]] + words[1..];
    assert ws[0] == [c] + words[0] && ws[1..] == words[1..];
    JoinFirst(ws);
    JoinFirst(words);
    ConcatFront(c, words[0], Join(" ", words[1..]));
  }

  /** Putting a letter in front of the first word puts it in front of the joined words. */
  lemma JoinFrontLetter(c: char, words: seq<string>)
    requires |words| > 0
    ensures Join(" ", [[c] + words[0]] + words[1..]) == [c] + Join(" ", words)
  {
    if |words| == 1 {
      assert [[c] + words[0]] + words[1..] == [[c] + words[0]];
    } else {
      JoinFrontLetterMore(c, words);
    }
  }

  /** The step of `JoinSplitWsCanonical` when the first word goes on after its first letter. */
  lemma JoinSplitWsLongWord(s: string)
    requires |s| > 1 && !IsSpace(s[0]) && !IsSpace(s[1])
    requires Join(" ", SplitWs(s[1..])) == s[1..]
    ensures Join(" ", SplitWs(s)) == s && |SplitWs(s)| > 0
  {
    SplitWsLetterAfter(s);
    JoinFrontLetter(s[0], SplitWs(s[1..]));
    assert s == [s[0]] + s[1..];
  }

  /** A canonical string splits into its words and joins back into itself. */
  lemma {:induction false} JoinSplitWsCanonical(s: string)
    requires Canonical(s)
    ensures Join(" ", SplitWs(s)) == s
    ensures |s| > 0 ==> |SplitWs(s)| > 0
    decreases |s|
  {
    if |s| == 1 {
      assert s[1..] == [] && s == [s[0]];
      assert SplitWs(s) == [s];
    } else if |s| > 1 {
      if s[1] == ' ' {
        CanonicalSuffix(s, 2);
        JoinSplitWsCanonical(s[2..]);
        JoinSplitWsShortWord(s);
      } else {
        CanonicalSuffix(s, 1);
        JoinSplitWsCanonical(s[1..]);
        JoinSplitWsLongWord(s);
      }
    }
  }

  /** A canonical command comes out of `sanitise_command` unchanged. */
  lemma CanonicalFixed(r: string)
    requires Canonical(r)
    ensures Sanitised(r) == r
  {
    assert Lower(r) == r;
    assert TrimStart(r) == r;
    assert TrimEnd(r) == r;
    KeepAll(r);
    JoinSplitWsCanonical(r);
  }

  // ---------------------------------------------------------------------------
  // sanitise_command

  /** The output is canonical and has exactly the letters of the lower-cased command. */
  lemma SanitisedCanonical(command: string)
    ensures Canonical(Sanitised(command))
    ensures Letters(Sanitised(command)) == Letters(Lower(command))
  {
    var lowered := Lower(command);
    NoUpperTrimStart(lowered);
    NoUpperTrimEnd(TrimStart(lowered));
    var kept := Keep(Strip(lowered));
    KeepLowerOrSpace(Strip(lowered));
    SplitWsLower(kept);
    JoinWordsCanonical(SplitWs(kept));
    LettersJoin(SplitWs(kept));
    LettersConcatSplitWs(kept);
    LettersKeep(Strip(lowered));
    LettersStrip(lowered);
  }

  /** Sanitising twice gives what sanitising once gives. */
  lemma SanitiseIdempotent(command: string)
    ensures Sanitised(Sanitised(command)) == Sanitised(command)
  {
    SanitisedCanonical(command);
    CanonicalFixed(Sanitised(command));
  }

  /**
   * `sanitise_command`: lower-case, strip, keep letters and white space character by
   * character, then join the words with single spaces.
   */
  method SanitiseCommand(command: string) returns (r: string)
    ensures r == Sanitised(command)
    ensures Canonical(r)
    ensures Letters(r) == Letters(Lower(command))
  {
    var stripped := Strip(Lower(command));
    var kept := "";
    for k := 0 to |stripped|
      invariant kept == Keep(stripped[..k])
    {
      var c := stripped[k];
      assert stripped[..k + 1][..k] == stripped[..k];
      if IsAlpha(c) || IsSpace(c) {
        kept := kept + [c];
      }
    }
    assert stripped[..|stripped|] == stripped;
    r := Join(" ", SplitWs(kept));
    SanitisedCanonical(command);
  }

  lemma {:induction false} KeepAppend(a: string, b: string)
    ensures Keep(a + b) == Keep(a) + Keep(b)
    decreases |b|
  {
    if b != [] {
      var p := b[..|b| - 1];
      KeepAppend(a, p);
      assert (a + b)[..|a + b| - 1] == a + p;
    } else {
      assert a + b == a;
    }
  }

  lemma LowerAppend(a: string, b: string)
    ensures Lower(a + b) == Lower(a) + Lower(b)
  {
    assert forall i :: 0 <= i < |a + b| ==> Lower(a + b)[i] == (Lower(a) + Lower(b))[i];
  }

  lemma LowerUnchanged(s: string)
    requires NoUpper(s)
    ensures Lower(s) == s
  {
  }

  // The example below is assembled from facts about short literals, each proved on its own.

  lemma ExampleCharacters()
    ensures NoUpper("add c4hocolate ")
    ensures LowerOrSpace("add c") && LowerOrSpace("hocolate brownies")
    ensures Canonical("add chocolate brownies")
  {
  }

  lemma ExampleSplitsLower()
    ensures "add c4hocolate Brownies" == "add c4hocolate " + "Brownies"
    ensures "add c4hocolate " + "brownies" == "add c4hocolate brownies"
  {
  }

  lemma ExampleSplitsKeep()
    ensures "add c4hocolate brownies" == ("add c" + "4") + "hocolate brownies"
    ensures "add c" + "hocolate brownies" == "add chocolate brownies"
  {
  }

  lemma ExampleBrownies()
    ensures Lower("Brownies") == "brownies"
  {
  }

  lemma ExampleDigit()
    ensures Keep("4") == ""
  {
  }

  lemma ExampleStrip()
    ensures Strip("add c4hocolate brownies") == "add c4hocolate brownies"
  {
  }

  lemma ExampleLower()
    ensures Lower("add c4hocolate Brownies") == "add c4hocolate brownies"
  {
    ExampleSplitsLower();
    ExampleBrownies();
    ExampleCharacters();
    LowerUnchanged("add c4hocolate ");
    LowerAppend("add c4hocolate ", "Brownies");
  }

  lemma ExampleKeep()
    ensures Keep("add c4hocolate brownies") == "add chocolate brownies"
  {
    ExampleSplitsKeep();
    ExampleDigit();
    ExampleCharacters();
    KeepAppend("add c" + "4", "hocolate brownies");
    KeepAppend("add c", "4");
    KeepAll("add c");
    KeepAll("hocolate brownies");
    assert "add c" + "" == "add c";
  }

  /** The second example of `sanitise_command`: the digit goes and the capital is lowered. */
  lemma SanitiseExample()
    ensures Sanitised("add c4hocolate Brownies") == "add chocolate brownies"
  {
    ExampleLower();
    ExampleStrip();
    ExampleKeep();
    ExampleCharacters();
    JoinSplitWsCanonical("add chocolate brownies");
  }
}
