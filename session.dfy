/**
 * One turn of the interactive loop of `main`, without the console: which branch an input
 * line takes, in the order the branches are tried, and what that branch does to the
 * session (cook book, meal plan, shopping list). Printing is left out; a branch that
 * raises is a `Fault`, which in the program ends the session.
 */
module Session {
  import opened Text
  import opened Results
  import opened Amounts
  import opened Ingredients
  import opened Recipes
  import opened Shopping
  import opened Commands

  /** The branch an input line selects. */
  datatype Command =
    | Help                                        // "H" or "h"
    | Quit                                        // "Q" or "q"
    | MakeRecipe                                  // "mkrec"
    | AddToPlan(name: string)                     // sanitised, first word "add"
    | Generate                                    // "g" or "G"
    | RemoveIngredient(name: string, amount: real) // raw words "rm" "-i" name... amount
    | RemoveFromPlan(name: string)                // sanitised, first word "rm"
    | ListPlan                                    // "ls"
    | ListBook                                    // "ls -a"
    | ShowList                                    // "ls -s"
    | Ignored                                     // no branch matches

  /** Why a turn raises. */
  datatype Fault =
    | NoCommandWord                  // IndexError: the line has no word to look at
    | NoOption                       // IndexError: "rm" with nothing after it
    | BadRemoveAmount(text: string)  // ValueError: the last word of "rm -i" is not a number
    | BadRecipe(error: ParseError)   // an ingredient line of the meal plan does not parse
    | NoShoppingList                 // NameError: no shopping list generated yet

  /** `s[k:]` in Python: empty when `s` is shorter than `k`. */
  function Drop(s: string, k: nat): string {
    if |s| >= k then s[k..] else ""
  }

  /** `parts[2:-1]` in Python: the words between the option and the last word. */
  function Middle(parts: seq<string>): seq<string> {
    if |parts| >= 4 then parts[2..|parts| - 1] else []
  }

  /**
   * The branch of `main` an input line takes; the tests run in the program's order.
   * Choosing a branch raises only for a missing word or a bad "rm -i" amount, and only
   * "q" and "Q" end the session.
   */
  function Classify(input: string): (r: Result<Command, Fault>)
    ensures r.Err? ==> r.error.NoCommandWord? || r.error.NoOption? || r.error.BadRemoveAmount?
    ensures r == Err(NoOption) ==> SplitWs(input) == ["rm"]
    ensures r.Err? && r.error.BadRemoveAmount? ==> ParseAmount(r.error.text).None?
    ensures r == Ok(Quit) <==> input == "Q" || input == "q"
  {
    var sanitised := Sanitised(input);
    var words := SplitWs(sanitised);
    var parts := SplitWs(input);
    if input == "H" || input == "h" then Ok(Help)
    else if input == "Q" || input == "q" then Ok(Quit)
    else if input == "mkrec" then Ok(MakeRecipe)
    else if words == [] then Err(NoCommandWord)
    else if words[0] == "add" then Ok(AddToPlan(Drop(sanitised, 4)))
    else if input == "g" || input == "G" then Ok(Generate)
    else if parts == [] then Err(NoCommandWord)
    else if parts[0] == "rm" && |parts| < 2 then Err(NoOption)
    else if parts[0] == "rm" && parts[1] == "-i" then
      match ParseAmount(parts[|parts| - 1])
      case None => Err(BadRemoveAmount(parts[|parts| - 1]))
      case Some(amount) => Ok(RemoveIngredient(Join(" ", Middle(parts)), amount))
    else if words[0] == "rm" then Ok(RemoveFromPlan(Drop(sanitised, 3)))
    else if input == "ls" then Ok(ListPlan)
    else if input == "ls -a" then Ok(ListBook)
    else if input == "ls -s" then Ok(ShowList)
    else Ok(Ignored)
  }

  /** The session: cook book, meal plan, and the shopping list once one has been generated. */
  datatype State = State(book: seq<Recipe>, plan: seq<Recipe>, list: Option<seq<Ingredient>>)

  datatype Turn = Next(state: State) | Stop | Crash(fault: Fault)

  /** A session before the first turn: the given cook book, nothing planned, no list. */
  function Start(book: seq<Recipe>): State {
    State(book, [], None)
  }

  /**
   * What the branch `c` does to the session; `made` stands for the recipe `create_recipe`
   * would read from the console when the branch is "mkrec".
   */
  function Apply(s: State, c: Command, made: Recipe): (t: Turn)
    ensures t.Stop? <==> c == Quit
    ensures t.Crash? <==>
      || (c == Generate && ShoppingListOf(s.plan).Err?)
      || ((c == ShowList || c.RemoveIngredient?) && s.list.None?)
    ensures t.Crash? && c == Generate ==> t.fault == BadRecipe(ShoppingListOf(s.plan).error)
    ensures t.Crash? && c != Generate ==> t.fault == NoShoppingList
  {
    match c
    case Help => Next(s)
    case Quit => Stop
    case MakeRecipe => Next(s.(book := s.book + [made]))
    case AddToPlan(name) =>
      (match FirstNamed(s.book, name)
       case None => Next(s)
       case Some(r) => Next(s.(plan := s.plan + [r])))
    case Generate =>
      (match ShoppingListOf(s.plan)
       case Err(e) => Crash(BadRecipe(e))
       case Ok(l) => Next(s.(list := Some(l))))
    case RemoveIngredient(name, amount) =>
      (match s.list
       case None => Crash(NoShoppingList)
       case Some(l) => Next(s.(list := Some(SubtractedWhileIterating(l, 0, name, amount)))))
    case RemoveFromPlan(name) => Next(s.(plan := RemovedWhileIterating(s.plan, 0, name)))
    case ListPlan => Next(s)
    case ListBook => Next(s)
    case ShowList => if s.list.None? then Crash(NoShoppingList) else Next(s)
    case Ignored => Next(s)
  }

  /**
   * One turn for the input line `input`. Only "q" and "Q" end the session, and a line
   * without a letter raises before any branch is taken.
   */
  function Step(s: State, input: string, made: Recipe): (t: Turn)
    ensures t.Stop? <==> input == "Q" || input == "q"
    ensures Letters(input) == "" ==> t == Crash(NoCommandWord)
  {
    assert Letters(input) == "" ==> Classify(input) == Err(NoCommandWord) by {
      if Letters(input) == "" {
        ClassifyNoLetters(input);
      }
    }
    match Classify(input)
    case Err(f) => Crash(f)
    case Ok(c) => Apply(s, c, made)
  }

  // ---------------------------------------------------------------------------
  // properties of a turn

  lemma CanonicalNoLetters(r: string)
    requires Canonical(r) && Letters(r) == ""
    ensures r == ""
  {
  }

  /** A line with no letters is none of the one-word commands tested before the sanitised ones. */
  lemma NoLettersNotKeyword(input: string)
    requires Letters(input) == ""
    ensures input != "H" && input != "h" && input != "Q" && input != "q" && input != "mkrec"
  {
    if input != [] {
      assert !IsAlpha(input[0]);
    }
  }

  /** A line without a letter (the empty line, a number) makes `main` raise. */
  lemma ClassifyNoLetters(input: string)
    requires Letters(input) == ""
    ensures Classify(input) == Err(NoCommandWord)
  {
    NoLettersNotKeyword(input);
    SanitisedCanonical(input);
    LettersLowerFirst(input);
    CanonicalNoLetters(Sanitised(input));
    assert SplitWs(Sanitised(input)) == [];
  }

  /** Lower-casing keeps a line's letters, and lower-cases the first of them. */
  lemma {:induction false} LettersLowerFirst(s: string)
    ensures Letters(Lower(s)) != "" <==> Letters(s) != ""
    ensures Letters(s) != "" ==> Letters(Lower(s))[0] == ToLower(Letters(s)[0])
  {
    if s != [] {
      assert Lower(s)[1..] == Lower(s[1..]);
      LettersLowerFirst(s[1..]);
    }
  }

  /** A word that starts with a letter puts that letter first among the line's letters. */
  lemma FirstWordLetter(input: string)
    requires |SplitWs(input)| > 0 && IsAlpha(SplitWs(input)[0][0])
    ensures Letters(input) != "" && Letters(input)[0] == SplitWs(input)[0][0]
  {
    var words := SplitWs(input);
    var c := words[0][0];
    LettersConcatSplitWs(input);
    assert Concat(words) == [c] + (words[0][1..] + Concat(words[1..]));
  }

  /** A line whose first word starts with a letter keeps that letter, lower-cased, in front when sanitised. */
  lemma SanitisedFirstLetter(input: string)
    requires |SplitWs(input)| > 0 && IsAlpha(SplitWs(input)[0][0])
    ensures |SplitWs(Sanitised(input))| > 0
    ensures SplitWs(Sanitised(input))[0][0] == ToLower(SplitWs(input)[0][0])
  {
    FirstWordLetter(input);
    LettersLowerFirst(input);
    SanitisedCanonical(input);
    var r := Sanitised(input);
    assert r != "";
    assert IsLower(r[0]);
  }

  /** A line whose sanitised first word is "add" adds the recipe named by the rest of the sanitised line. */
  lemma ClassifyAdd(input: string)
    requires |SplitWs(Sanitised(input))| > 0 && SplitWs(Sanitised(input))[0] == "add"
    ensures Classify(input) == Ok(AddToPlan(Drop(Sanitised(input), 4)))
  {
    var r := Sanitised(input);
    SanitisedCanonical(input);
    LettersLowerFirst(input);
    assert |r| > 0 && r[0] == 'a';
    assert Letters(r)[0] == 'a';
    assert Letters(input) != "" && ToLower(Letters(input)[0]) == 'a';
  }

  /** A line whose first word is "rm" reaches the tests on its raw words. */
  lemma RmReachesRawWords(input: string)
    requires |SplitWs(input)| > 0 && SplitWs(input)[0] == "rm"
    ensures input != "H" && input != "h" && input != "Q" && input != "q" && input != "mkrec"
    ensures input != "g" && input != "G"
    ensures |SplitWs(Sanitised(input))| > 0 && SplitWs(Sanitised(input))[0] != "add"
  {
    SanitisedFirstLetter(input);
    assert SplitWs(input)[0][0] == 'r';
  }

  /** "rm" with nothing after it raises when the option word is looked up. */
  lemma ClassifyRmAlone(input: string)
    requires SplitWs(input) == ["rm"]
    ensures Classify(input) == Err(NoOption)
  {
    RmReachesRawWords(input);
  }

  /**
   * "rm -i" followed by name words and an amount removes that amount of the ingredient
   * whose name is the words joined by spaces; an amount that is not a number raises.
   */
  lemma ClassifyRemoveIngredient(input: string, ws: seq<string>, a: string)
    requires SplitWs(input) == ["rm", "-i"] + ws + [a]
    ensures ParseAmount(a).None? ==> Classify(input) == Err(BadRemoveAmount(a))
    ensures ParseAmount(a).Some? ==>
      Classify(input) == Ok(RemoveIngredient(Join(" ", ws), ParseAmount(a).value))
  {
    var parts := SplitWs(input);
    RmReachesRawWords(input);
    assert parts[|parts| - 1] == a;
    assert Middle(parts) == ws by {
      if |parts| >= 4 {
        assert parts[2..|parts| - 1] == ws;
      }
    }
  }

  /**
   * Each kind of turn changes only its own part of the session: the cook book only on
   * "mkrec", the meal plan only when adding or removing a recipe, the shopping list only
   * when generating it or removing an ingredient from it.
   */
  lemma StepFrame(s: State, c: Command, made: Recipe)
    requires Apply(s, c, made).Next?
    ensures var t := Apply(s, c, made).state;
      && (t.book != s.book ==> c == MakeRecipe && t.book == s.book + [made])
      && (t.plan != s.plan ==> c.AddToPlan? || c.RemoveFromPlan?)
      && (t.list != s.list ==> c == Generate || c.RemoveIngredient?)
  {
  }

  /**
   * The first turn of a session: the meal plan is empty and no list exists, so "ls -s" and
   * "rm -i" raise, while "g" stores an empty shopping list.
   */
  lemma FirstTurn(book: seq<Recipe>, name: string, amount: real, made: Recipe)
    ensures Start(book).plan == [] && Start(book).list.None?
    ensures Apply(Start(book), ShowList, made) == Crash(NoShoppingList)
    ensures Apply(Start(book), RemoveIngredient(name, amount), made) == Crash(NoShoppingList)
    ensures Apply(Start(book), Generate, made) == Next(State(book, [], Some([])))
  {
    assert ShoppingListOf([]) == Ok([]);
  }

  /** Showing the list or removing from it before any "g" raises: the list does not exist yet. */
  lemma NoListBeforeGenerate(s: State, c: Command, made: Recipe)
    requires s.list.None?
    requires c == ShowList || c.RemoveIngredient?
    ensures Apply(s, c, made) == Crash(NoShoppingList)
  {
  }

  /**
   * After a successful "g" the list exists and summarises the meal plan: each ingredient
   * name once, in first-seen order, with its total amount.
   */
  lemma GenerateSummarises(s: State, made: Recipe)
    ensures Apply(s, Generate, made).Crash? <==> AllIngredients(s.plan).Err?
    ensures Apply(s, Generate, made).Next? ==>
      && Apply(s, Generate, made).state.list.Some?
      && Summarises(Apply(s, Generate, made).state.list.value, AllIngredients(s.plan).value)
  {
    ShoppingListSummarises(s.plan);
  }

  /** While no list exists, only a "g" turn can create one. */
  lemma ListMissingUntilGenerate(s: State, c: Command, made: Recipe)
    requires s.list.None? && Apply(s, c, made).Next?
    ensures Apply(s, c, made).state.list.Some? ==> c == Generate
  {
  }

  /** The recipe added to the meal plan is the cook book's first recipe with the sanitised name. */
  lemma AddTakesFirstMatch(s: State, name: string, made: Recipe)
    ensures Apply(s, AddToPlan(name), made) == Next(
      if forall j :: 0 <= j < |s.book| ==> s.book[j].name != name then s
      else s.(plan := s.plan + [FirstNamed(s.book, name).value]))
  {
  }
}
