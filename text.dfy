/**
 * The Python string built-ins the grocery helper relies on, restricted to ASCII:
 * `str.split(sep)`, `str.split()`, `sep.join(parts)`, `str.strip()`, `str.lower()`,
 * `str.isspace()` and `str.isalpha()`.
 */
module Text {

  /** `c.isspace()` on ASCII: space, \t \n \v \f \r and the separators 0x1C-0x1F. */
  predicate IsSpace(c: char) {
    c == ' ' || (9 <= c as int <= 13) || (28 <= c as int <= 31)
  }

  predicate IsUpper(c: char) { 'A' <= c <= 'Z' }

  predicate IsLower(c: char) { 'a' <= c <= 'z' }

  /** `c.isalpha()` on ASCII. */
  predicate IsAlpha(c: char) { IsUpper(c) || IsLower(c) }

  predicate IsDigit(c: char) { '0' <= c <= '9' }

  /** `c.lower()` on ASCII: upper-case letters move to lower case, everything else stays. */
  function ToLower(c: char): (d: char)
    ensures IsAlpha(d) <==> IsAlpha(c)
    ensures !IsUpper(d)
    ensures IsSpace(d) <==> IsSpace(c)
    ensures !IsUpper(c) ==> d == c
  {
    if IsUpper(c) then (c as int + 32) as char else c
  }

  /** `s.lower()` */
  function Lower(s: string): (r: string)
    ensures |r| == |s|
    ensures forall i :: 0 <= i < |s| ==> r[i] == ToLower(s[i])
  {
    if s == [] then [] else [ToLower(s[0])] + Lower(s[1..])
  }

  /** A word of `str.split()`: non-empty and free of white space. */
  predicate IsWord(w: string) {
    |w| > 0 && forall j :: 0 <= j < |w| ==> !IsSpace(w[j])
  }

  /**
   * `s.split(sep)` for a one-character separator: the pieces between separators,
   * empty pieces included, so there is always at least one piece.
   */
  function SplitOn(s: string, sep: char): (parts: seq<string>)
    ensures |parts| >= 1
  {
    if s == [] then [""]
    else
      var rest := SplitOn(s[1..], sep);
      if s[0] == sep then [""] + rest
      else [[s[0]] + rest[0]] + rest[1..]
  }

  /**
   * `s.split()`: the maximal runs of non-white-space characters, in order.
   */
  function SplitWs(s: string): (words: seq<string>)
    ensures forall i :: 0 <= i < |words| ==> IsWord(words[i])
    ensures |s| > 0 && !IsSpace(s[0]) ==> |words| > 0 && |words[0]| > 0 && words[0][0] == s[0]
  {
    if s == [] then []
    else
      var rest := SplitWs(s[1..]);
      if IsSpace(s[0]) then rest
      else if |s| > 1 && !IsSpace(s[1]) then [[s[0]] + rest[0]] + rest[1..]
      else [[s[0]]] + rest
  }

  /** `sep.join(parts)` */
  function Join(sep: string, parts: seq<string>): string {
    if parts == [] then ""
    else if |parts| == 1 then parts[0]
    else parts[0] + sep + Join(sep, parts[1..])
  }

  /** Concatenation of all parts, `"".join(parts)`. */
  function Concat(parts: seq<string>): string {
    if parts == [] then "" else parts[0] + Concat(parts[1..])
  }

  function TrimStart(s: string): (r: string)
    ensures |r| <= |s|
    ensures r == [] || !IsSpace(r[0])
  {
    if s != [] && IsSpace(s[0]) then TrimStart(s[1..]) else s
  }

  function TrimEnd(s: string): (r: string)
    ensures |r| <= |s|
    ensures r == [] || !IsSpace(r[|r| - 1])
  {
    if s != [] && IsSpace(s[|s| - 1]) then TrimEnd(s[..|s| - 1]) else s
  }

  /** `s.strip()`: white space removed at both ends. */
  function Strip(s: string): string {
    TrimEnd(TrimStart(s))
  }

  /** The letters of `s`, in order. */
  function Letters(s: string): string {
    if s == [] then "" else (if IsAlpha(s[0]) then [s[0]] else "") + Letters(s[1..])
  }

  // ---------------------------------------------------------------------------
  // split(sep) and join are inverse to each other

  lemma {:induction false} JoinSplitOn(s: string, sep: char)
    ensures Join([sep], SplitOn(s, sep)) == s
  {
    if s != [] {
      var rest := SplitOn(s[1..], sep);
      JoinSplitOn(s[1..], sep);
      if s[0] == sep {
        assert ([""] + rest)[1..] == rest;
        assert s == [sep] + s[1..];
      } else {
        var parts := [[s[0]] + rest[0]] + rest[1..];
        assert parts[1..] == rest[1..];
        if |rest| == 1 {
          assert s == [s[0]] + rest[0];
        } else {
          assert Join([sep], rest) == rest[0] + [sep] + Join([sep], rest[1..]);
          assert s == [s[0]] + rest[0] + [sep] + Join([sep], rest[1..]);
        }
      }
    }
  }

  lemma {:induction false} SplitOnWithout(s: string, sep: char)
    requires sep !in s
    ensures SplitOn(s, sep) == [s]
  {
    if s != [] {
      SplitOnWithout(s[1..], sep);
      assert s == [s[0]] + s[1..];
    }
  }

  /** The piece before the first separator comes off whole. */
  lemma {:induction false} SplitOnAfter(a: string, sep: char, rest: string)
    requires sep !in a
    ensures SplitOn(a + [sep] + rest, sep) == [a] + SplitOn(rest, sep)
  {
    var s := a + [sep] + rest;
    if a == [] {
      assert s == [sep] + rest;
      assert s[1..] == rest;
    } else {
      assert s[1..] == a[1..] + [sep] + rest;
      SplitOnAfter(a[1..], sep, rest);
      assert [a[0]] + a[1..] == a;
    }
  }

  lemma {:induction false} SplitOnJoin(parts: seq<string>, sep: char)
    requires |parts| >= 1
    requires forall i :: 0 <= i < |parts| ==> sep !in parts[i]
    ensures SplitOn(Join([sep], parts), sep) == parts
  {
    if |parts| == 1 {
      SplitOnWithout(parts[0], sep);
    } else {
      SplitOnJoin(parts[1..], sep);
      SplitOnAfter(parts[0], sep, Join([sep], parts[1..]));
      assert [parts[0]] + parts[1..] == parts;
    }
  }

  // ---------------------------------------------------------------------------
  // split() and " ".join are inverse on lists of words

  /** A word followed by a space comes off whole. */
  lemma {:induction false} SplitWsWord(w: string, rest: string)
    requires IsWord(w)
    ensures SplitWs(w) == [w]
    ensures SplitWs(w + " " + rest) == [w] + SplitWs(rest)
  {
    var s := w + " " + rest;
    assert s[1..] == w[1..] + " " + rest;
    if |w| == 1 {
      assert w == [w[0]];
      assert SplitWs(w[1..]) == [];
      assert s[1..] == " " + rest;
      assert (" " + rest)[1..] == rest;
    } else {
      SplitWsWord(w[1..], rest);
      assert [w[0]] + w[1..] == w;
    }
  }

  /** A string of white space only has no words. */
  lemma {:induction false} SplitWsBlank(s: string)
    requires forall i :: 0 <= i < |s| ==> IsSpace(s[i])
    ensures SplitWs(s) == []
  {
    if s != [] {
      SplitWsBlank(s[1..]);
    }
  }

  lemma {:induction false} SplitWsJoin(words: seq<string>)
    requires forall i :: 0 <= i < |words| ==> IsWord(words[i])
    ensures SplitWs(Join(" ", words)) == words
  {
    if |words| == 1 {
      SplitWsWord(words[0], "");
    } else if |words| > 1 {
      SplitWsJoin(words[1..]);
      SplitWsWord(words[0], Join(" ", words[1..]));
      assert [words[0]] + words[1..] == words;
    }
  }

  // ---------------------------------------------------------------------------
  // what each operation does to the letters of a string

  lemma {:induction false} LettersAppend(a: string, b: string)
    ensures Letters(a + b) == Letters(a) + Letters(b)
  {
    if a != [] {
      assert (a + b)[0] == a[0] && (a + b)[1..] == a[1..] + b;
      LettersAppend(a[1..], b);
      assert Letters(a + b) == (if IsAlpha(a[0]) then [a[0]] else "") + Letters(a[1..] + b);
    } else {
      assert a + b == b;
    }
  }

  lemma {:induction false} LettersConcatSplitWs(s: string)
    ensures Letters(Concat(SplitWs(s))) == Letters(s)
  {
    if s != [] {
      LettersConcatSplitWs(s[1..]);
      var rest := SplitWs(s[1..]);
      if IsSpace(s[0]) {
      } else if |s| > 1 && !IsSpace(s[1]) {
        var words := [[s[0]] + rest[0]] + rest[1..];
        assert words[1..] == rest[1..];
        assert Concat(words) == [s[0]] + (rest[0] + Concat(rest[1..]));
        LettersAppend([s[0]], Concat(rest));
      } else {
        assert ([[s[0]]] + rest)[1..] == rest;
        LettersAppend([s[0]], Concat(rest));
      }
    }
  }

  lemma {:induction false} LettersJoin(words: seq<string>)
    ensures Letters(Join(" ", words)) == Letters(Concat(words))
  {
    if |words| == 1 {
      assert Concat(words) == words[0] + Concat([]);
      assert words[0] + "" == words[0];
    } else if |words| > 1 {
      LettersJoin(words[1..]);
      LettersAppend(words[0] + " ", Join(" ", words[1..]));
      LettersAppend(words[0], " ");
      LettersAppend(words[0], Concat(words[1..]));
      assert Letters(" ") == "";
    }
  }

  lemma {:induction false} LettersTrimStart(s: string)
    ensures Letters(TrimStart(s)) == Letters(s)
  {
    if s != [] && IsSpace(s[0]) {
      LettersTrimStart(s[1..]);
    }
  }

  lemma {:induction false} LettersTrimEnd(s: string)
    ensures Letters(TrimEnd(s)) == Letters(s)
  {
    if s != [] && IsSpace(s[|s| - 1]) {
      var n := |s| - 1;
      LettersTrimEnd(s[..n]);
      assert s == s[..n] + [s[n]];
      LettersAppend(s[..n], [s[n]]);
    }
  }

  lemma LettersStrip(s: string)
    ensures Letters(Strip(s)) == Letters(s)
  {
    LettersTrimStart(s);
    LettersTrimEnd(TrimStart(s));
  }
}
