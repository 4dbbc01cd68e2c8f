/**
 * Ingredient entries `(amount, measure, name)` and the parser of one ingredient line
 * (`parse_ingredient`), together with the whitespace-splitting variant that
 * `recipe_ingredients` applies to each piece of a recipe.
 */
module Ingredients {
  import opened Text
  import opened Amounts
  import opened Results

  /** An ingredient entry; shopping lists hold these too. */
  datatype Ingredient = Ingredient(amount: real, measure: string, name: string)

  /** Why a line does not parse: `float()` rejected the amount, or a word is missing. */
  datatype ParseError =
    | BadAmount(text: string)     // Python's ValueError from float()
    | MissingWord(position: nat)  // Python's IndexError on the word list

  /**
   * The shared tail of both parsers: the first word is the amount (read first, so a bad
   * amount is reported before a missing measure), the second the measure, and the
   * remaining words joined by single spaces the name.
   */
  function FromWords(words: seq<string>): (r: Result<Ingredient, ParseError>)
    ensures r.Ok? <==> |words| >= 2 && ParseAmount(words[0]).Some?
    ensures r.Ok? ==> r.value.measure == words[1] && r.value.name == Join(" ", words[2..])
    ensures r.Ok? ==> ParseAmount(words[0]) == Some(r.value.amount)
  {
    if |words| == 0 then Err(MissingWord(0))
    else
      match ParseAmount(words[0])
      case None => Err(BadAmount(words[0]))
      case Some(amount) =>
        if |words| < 2 then Err(MissingWord(1))
        else Ok(Ingredient(amount, words[1], Join(" ", words[2..])))
  }

  /**
   * `parse_ingredient`: words are separated by single spaces (`split(" ")`). That split
   * always yields a first word, so a failure is a bad amount or a missing measure; a line
   * without a space is one word and never parses.
   */
  function ParseIngredient(line: string): (r: Result<Ingredient, ParseError>)
    ensures r.Err? ==> r.error.BadAmount? || r.error == MissingWord(1)
    ensures ' ' !in line ==> r.Err?
  {
    var words := SplitOn(line, ' ');
    assert ' ' !in line ==> words == [line] by {
      if ' ' !in line {
        SplitOnWithout(line, ' ');
      }
    }
    FromWords(words)
  }

  /**
   * How `recipe_ingredients` parses one piece: words are runs of non-white space
   * (`split()`). A blank piece (an empty line, or what follows a trailing ",") has no
   * amount word; the measure read is one word without white space.
   */
  function ParseWords(piece: string): (r: Result<Ingredient, ParseError>)
    ensures (forall i :: 0 <= i < |piece| ==> IsSpace(piece[i])) ==> r == Err(MissingWord(0))
    ensures r.Ok? ==> IsWord(r.value.measure)
  {
    var words := SplitWs(piece);
    assert (forall i :: 0 <= i < |piece| ==> IsSpace(piece[i])) ==> words == [] by {
      if forall i :: 0 <= i < |piece| ==> IsSpace(piece[i]) {
        SplitWsBlank(piece);
      }
    }
    FromWords(words)
  }

  /**
   * The amount and measure are the text before the first and second space; the name is
   * everything after the second space, verbatim (further spaces, runs of them included).
   */
  lemma ParseIngredientFields(a: string, m: string, n: string)
    requires ' ' !in a && ' ' !in m
    ensures ParseAmount(a).None? ==> ParseIngredient(a + " " + m + " " + n) == Err(BadAmount(a))
    ensures ParseAmount(a).Some? ==>
      ParseIngredient(a + " " + m + " " + n) == Ok(Ingredient(ParseAmount(a).value, m, n))
  {
    var line := a + " " + m + " " + n;
    assert line == a + [' '] + (m + [' '] + n);
    SplitOnAfter(a, ' ', m + [' '] + n);
    SplitOnAfter(m, ' ', n);
    var words := SplitOn(line, ' ');
    assert words == [a, m] + SplitOn(n, ' ');
    assert words[2..] == SplitOn(n, ' ');
    JoinSplitOn(n, ' ');
  }

  /** With a single space the line still parses, with an empty name. */
  lemma ParseIngredientTwoWords(a: string, m: string)
    requires ' ' !in a && ' ' !in m && ParseAmount(a).Some?
    ensures ParseIngredient(a + " " + m) == Ok(Ingredient(ParseAmount(a).value, m, ""))
  {
    SplitOnAfter(a, ' ', m);
    SplitOnWithout(m, ' ');
    assert SplitOn(a + " " + m, ' ') == [a, m];
    assert [a, m][2..] == [];
  }

  lemma ParseIngredientExample()
    ensures ParseIngredient("0.5 tsp coffee granules") == Ok(Ingredient(0.5, "tsp", "coffee granules"))
  {
    var a, m, n := "0.5", "tsp", "coffee granules";
    assert a + " " + m + " " + n == "0.5 tsp coffee granules";
    ParseAmountHalf();
    ParseIngredientFields(a, m, n);
  }

  /**
   * On lines whose words are separated by single spaces, the two tokenisations agree,
   * so `recipe_ingredients` and `parse_ingredient` read such a line the same way.
   */
  lemma ParsersAgree(words: seq<string>)
    requires |words| >= 1
    requires forall i :: 0 <= i < |words| ==> IsWord(words[i])
    ensures ParseWords(Join(" ", words)) == ParseIngredient(Join(" ", words))
  {
    assert forall i :: 0 <= i < |words| ==> ' ' !in words[i] by {
      forall i | 0 <= i < |words| ensures ' ' !in words[i] {
        assert IsWord(words[i]);
      }
    }
    SplitOnJoin(words, ' ');
    SplitWsJoin(words);
  }
}
