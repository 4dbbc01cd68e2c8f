/**
 * Recipes and the recipe store: a recipe is a name and one string holding its ingredient
 * lines joined by ",". Cook book and meal plan are both lists of recipes that the
 * operations change in place (`add_recipe`, `remove_recipe`) or scan (`find_recipe`).
 */
module Recipes {
  import opened Text
  import opened Results
  import opened Ingredients

  /** `(name, ingredients)`; `get_recipe_name` is the field `name`. */
  datatype Recipe = Recipe(name: string, ingredients: string)

  /** `create_recipe` without its prompts: the name and the lines typed, joined with ",". */
  function CreateRecipe(name: string, lines: seq<string>): (r: Recipe)
    ensures r.name == name
  {
    Recipe(name, Join(",", lines))
  }

  /**
   * Storing the lines in one string loses nothing as long as there is a line and no
   * line holds a comma: splitting on "," gives the lines back.
   */
  lemma CreateRecipeRoundTrip(name: string, lines: seq<string>)
    requires |lines| >= 1
    requires forall i :: 0 <= i < |lines| ==> ',' !in lines[i]
    ensures Pieces(CreateRecipe(name, lines)) == lines
  {
    SplitOnJoin(lines, ',');
  }

  /** With no lines at all the stored string is "", which still splits into one empty piece. */
  lemma CreateRecipeEmpty(name: string)
    ensures Pieces(CreateRecipe(name, [])) == [""]
  {
  }

  /** The ingredient lines of a recipe: its string split on ",". */
  function Pieces(recipe: Recipe): seq<string> {
    SplitOn(recipe.ingredients, ',')
  }

  // ---------------------------------------------------------------------------
  // recipe_ingredients

  function Prefixed(done: seq<Ingredient>, r: Result<seq<Ingredient>, ParseError>): Result<seq<Ingredient>, ParseError> {
    match r
    case Ok(rest) => Ok(done + rest)
    case Err(e) => Err(e)
  }

  /** Parse every piece in order; the first piece that fails decides the error. */
  function ParseEach(pieces: seq<string>): Result<seq<Ingredient>, ParseError> {
    if pieces == [] then Ok([])
    else
      match ParseWords(pieces[0])
      case Err(e) => Err(e)
      case Ok(x) => Prefixed([x], ParseEach(pieces[1..]))
  }

  /** What `recipe_ingredients` computes for a recipe. */
  function ParseRecipe(recipe: Recipe): Result<seq<Ingredient>, ParseError> {
    ParseEach(Pieces(recipe))
  }

  /** The first piece that does not parse is at `k`. */
  ghost predicate FirstFailure(pieces: seq<string>, k: int, e: ParseError) {
    && 0 <= k < |pieces|
    && ParseWords(pieces[k]) == Err(e)
    && forall j :: 0 <= j < k ==> ParseWords(pieces[j]).Ok?
  }

  /**
   * One entry per piece, in the pieces' order, each the piece's own parse; or, when some
   * piece fails, the error of the first one that does.
   */
  lemma {:induction false} ParseEachEntries(pieces: seq<string>)
    ensures ParseEach(pieces).Ok? <==> forall i :: 0 <= i < |pieces| ==> ParseWords(pieces[i]).Ok?
    ensures ParseEach(pieces).Ok? ==>
      && |ParseEach(pieces).value| == |pieces|
      && forall i :: 0 <= i < |pieces| ==> ParseWords(pieces[i]) == Ok(ParseEach(pieces).value[i])
    ensures ParseEach(pieces).Err? ==> exists k :: FirstFailure(pieces, k, ParseEach(pieces).error)
  {
    if pieces != [] {
      ParseEachEntries(pieces[1..]);
      var r := ParseEach(pieces);
      match ParseWords(pieces[0])
      case Err(e) => {
        assert FirstFailure(pieces, 0, e);
      }
      case Ok(x) => {
        var rest := ParseEach(pieces[1..]);
        assert forall i :: 1 <= i < |pieces| ==> pieces[i] == pieces[1..][i - 1];
        if rest.Err? {
          var k :| FirstFailure(pieces[1..], k, rest.error);
          assert FirstFailure(pieces, k + 1, rest.error);
        }
      }
    }
  }

  lemma PrefixedNil(r: Result<seq<Ingredient>, ParseError>)
    ensures Prefixed([], r) == r
  {
    if r.Ok? {
      assert [] + r.value == r.value;
    }
  }

  lemma PrefixedTwice(a: seq<Ingredient>, b: seq<Ingredient>, r: Result<seq<Ingredient>, ParseError>)
    ensures Prefixed(a, Prefixed(b, r)) == Prefixed(a + b, r)
  {
    if r.Ok? {
      assert a + (b + r.value) == (a + b) + r.value;
    }
  }

  lemma ParseEachFrom(pieces: seq<string>, i: nat)
    requires i < |pieces|
    ensures ParseEach(pieces[i..]) ==
      match ParseWords(pieces[i])
      case Err(e) => Err(e)
      case Ok(x) => Prefixed([x], ParseEach(pieces[i + 1..]))
  {
    assert pieces[i..][1..] == pieces[i + 1..];
  }

  /**
   * `recipe_ingredients`: split the recipe's string on "," and parse each piece with
   * `split()`; the first failing piece aborts the whole call.
   */
  method RecipeIngredients(recipe: Recipe) returns (r: Result<seq<Ingredient>, ParseError>)
    ensures r == ParseRecipe(recipe)
    ensures r.Ok? <==> forall i :: 0 <= i < |Pieces(recipe)| ==> ParseWords(Pieces(recipe)[i]).Ok?
    ensures r.Ok? ==>
      && |r.value| == |Pieces(recipe)|
      && forall i :: 0 <= i < |r.value| ==> ParseWords(Pieces(recipe)[i]) == Ok(r.value[i])
    ensures r.Err? ==> exists k :: FirstFailure(Pieces(recipe), k, r.error)
  {
    var pieces := Pieces(recipe);
    ParseEachEntries(pieces);
    var found: seq<Ingredient> := [];
    assert pieces[0..] == pieces;
    PrefixedNil(ParseEach(pieces));
    for i := 0 to |pieces|
      invariant ParseEach(pieces) == Prefixed(found, ParseEach(pieces[i..]))
    {
      ParseEachFrom(pieces, i);
      var parsed := ParseWords(pieces[i]);
      if parsed.Err? {
        return Err(parsed.error);
      }
      PrefixedTwice(found, [parsed.value], ParseEach(pieces[i + 1..]));
      found := found + [parsed.value];
    }
    assert pieces[|pieces|..] == [];
    assert found + [] == found;
    return Ok(found);
  }

  // ---------------------------------------------------------------------------
  // get_ingredient_amount

  /** Every piece before `k` parses with `split(" ")` and names something else. */
  ghost predicate NoMatchBefore(pieces: seq<string>, k: int, ingredient: string)
    requires 0 <= k <= |pieces|
  {
    forall j :: 0 <= j < k ==> ParseIngredient(pieces[j]).Ok? && ParseIngredient(pieces[j]).value.name != ingredient
  }

  /** The scan stops at piece `k`, which parses to `result`, after passing over pieces named otherwise. */
  ghost predicate FoundAt(pieces: seq<string>, k: int, ingredient: string, result: Result<Ingredient, ParseError>) {
    0 <= k < |pieces| && NoMatchBefore(pieces, k, ingredient) && ParseIngredient(pieces[k]) == result
  }

  /**
   * `get_ingredient_amount`: the amount and measure of the first piece whose name is
   * `ingredient`, `None` when no piece has that name; a piece before the match that
   * does not parse raises, which is the `Err` result.
   */
  method GetIngredientAmount(ingredient: string, recipe: Recipe) returns (r: Result<Option<(real, string)>, ParseError>)
    ensures r.Ok? && r.value.Some? ==>
      exists k :: FoundAt(Pieces(recipe), k, ingredient, Ok(Ingredient(r.value.value.0, r.value.value.1, ingredient)))
    ensures r.Ok? && r.value.None? ==> NoMatchBefore(Pieces(recipe), |Pieces(recipe)|, ingredient)
    ensures r.Err? ==> exists k :: FoundAt(Pieces(recipe), k, ingredient, Err(r.error))
  {
    var pieces := Pieces(recipe);
    for i := 0 to |pieces|
      invariant NoMatchBefore(pieces, i, ingredient)
    {
      var parsed := ParseIngredient(pieces[i]);
      if parsed.Err? {
        assert FoundAt(pieces, i, ingredient, Err(parsed.error));
        return Err(parsed.error);
      }
      if ingredient == parsed.value.name {
        var x := parsed.value;
        assert x == Ingredient(x.amount, x.measure, ingredient);
        assert FoundAt(pieces, i, ingredient, Ok(Ingredient(x.amount, x.measure, ingredient)));
        return Ok(Some((x.amount, x.measure)));
      }
    }
    return Ok(None);
  }

  // ---------------------------------------------------------------------------
  // remove_recipe's iteration

  /** `list.remove(x)`: drop the first element equal to `x`. */
  function RemoveFirst(s: seq<Recipe>, x: Recipe): (r: seq<Recipe>)
    ensures x in s ==> |r| == |s| - 1
  {
    if s == [] then []
    else if s[0] == x then s[1..]
    else [s[0]] + RemoveFirst(s[1..], x)
  }

  /**
   * The effect of `remove_recipe`'s loop from position `i` on. The loop removes matching
   * recipes from the very list it iterates over, and Python's list iterator reads index
   * `i` of the list as it is now, so after a removal the element that moved into the
   * freed place is skipped.
   */
  function RemovedWhileIterating(s: seq<Recipe>, i: nat, name: string): seq<Recipe>
    decreases |s| - i
  {
    if i >= |s| then s
    else if s[i].name == name then RemovedWhileIterating(RemoveFirst(s, s[i]), i + 1, name)
    else RemovedWhileIterating(s, i + 1, name)
  }

  /** The recipes not called `name`, in order. */
  function Others(s: seq<Recipe>, name: string): seq<Recipe> {
    if s == [] then []
    else (if s[0].name == name then [] else [s[0]]) + Others(s[1..], name)
  }

  lemma {:induction false} RemovedWhileIteratingAbsent(s: seq<Recipe>, i: nat, name: string)
    requires forall j :: i <= j < |s| ==> s[j].name != name
    ensures RemovedWhileIterating(s, i, name) == s
    decreases |s| - i
  {
    if i < |s| {
      RemovedWhileIteratingAbsent(s, i + 1, name);
    }
  }

  /** `remove_recipe` of a name no recipe has leaves the list as it was. */
  lemma RemoveRecipeAbsent(s: seq<Recipe>, name: string)
    requires forall j :: 0 <= j < |s| ==> s[j].name != name
    ensures RemovedWhileIterating(s, 0, name) == s
  {
    RemovedWhileIteratingAbsent(s, 0, name);
  }

  lemma {:induction false} RemoveFirstAt(s: seq<Recipe>, k: nat)
    requires k < |s| && forall j :: 0 <= j < k ==> s[j] != s[k]
    ensures RemoveFirst(s, s[k]) == s[..k] + s[k + 1..]
  {
    if k > 0 {
      RemoveFirstAt(s[1..], k - 1);
      assert s[1..][..k - 1] == s[1..k];
      assert s[1..][k..] == s[k + 1..];
      assert [s[0]] + s[1..k] == s[..k];
    }
  }

  /** When exactly one recipe is called `name`, `remove_recipe` deletes that one and keeps the order of the rest. */
  lemma RemoveRecipeUnique(s: seq<Recipe>, k: nat, name: string)
    requires k < |s| && s[k].name == name
    requires forall j :: 0 <= j < |s| && j != k ==> s[j].name != name
    ensures RemovedWhileIterating(s, 0, name) == s[..k] + s[k + 1..]
  {
    var t := s[..k] + s[k + 1..];
    assert RemovedWhileIterating(s, 0, name) == RemovedWhileIterating(s, k, name) by {
      PrefixNoMatch(s, 0, k, name);
    }
    RemoveFirstAt(s, k);
    assert forall j :: k + 1 <= j < |t| ==> t[j] == s[j + 1];
    RemovedWhileIteratingAbsent(t, k + 1, name);
  }

  lemma {:induction false} PrefixNoMatch(s: seq<Recipe>, i: nat, k: nat, name: string)
    requires i <= k <= |s| && forall j :: i <= j < k ==> s[j].name != name
    ensures RemovedWhileIterating(s, i, name) == RemovedWhileIterating(s, k, name)
    decreases k - i
  {
    if i < k {
      PrefixNoMatch(s, i + 1, k, name);
    }
  }

  lemma {:induction false} OthersRemoveFirst(s: seq<Recipe>, x: Recipe, name: string)
    requires x.name == name
    ensures Others(RemoveFirst(s, x), name) == Others(s, name)
  {
    if s != [] && s[0] != x {
      OthersRemoveFirst(s[1..], x, name);
      assert ([s[0]] + RemoveFirst(s[1..], x))[1..] == RemoveFirst(s[1..], x);
    }
  }

  lemma {:induction false} OthersKept(s: seq<Recipe>, i: nat, name: string)
    ensures Others(RemovedWhileIterating(s, i, name), name) == Others(s, name)
    decreases |s| - i
  {
    if i < |s| {
      if s[i].name == name {
        OthersKept(RemoveFirst(s, s[i]), i + 1, name);
        OthersRemoveFirst(s, s[i], name);
      } else {
        OthersKept(s, i + 1, name);
      }
    }
  }

  /** `remove_recipe` never touches a recipe with another name, nor the order of those. */
  lemma RemoveRecipeKeepsOthers(s: seq<Recipe>, name: string)
    ensures Others(RemovedWhileIterating(s, 0, name), name) == Others(s, name)
  {
    OthersKept(s, 0, name);
  }

  lemma RemovedAfterFirst(s: seq<Recipe>, t: seq<Recipe>, name: string)
    requires |s| >= 1 && s[0].name == name && s[1..] == t
    requires forall j :: 1 <= j < |t| ==> t[j].name != name
    ensures RemovedWhileIterating(s, 0, name) == t
  {
    RemoveFirstAt(s, 0);
    RemovedWhileIteratingAbsent(t, 1, name);
  }

  /**
   * Two recipes called `name` at the front, no other: `remove_recipe` deletes the first,
   * and the iterator then steps over the second, which stays.
   */
  lemma RemoveRecipeSkipsNeighbour(s: seq<Recipe>, name: string)
    requires |s| >= 2 && s[0].name == name && s[1].name == name
    requires forall j :: 2 <= j < |s| ==> s[j].name != name
    ensures RemovedWhileIterating(s, 0, name) == s[1..]
  {
    var t := s[1..];
    assert forall j :: 1 <= j < |t| ==> t[j] == s[j + 1];
    RemovedAfterFirst(s, t, name);
  }

  // ---------------------------------------------------------------------------
  // the store

  /** The first recipe called `name`, or `None`. */
  function FirstNamed(recipes: seq<Recipe>, name: string): (found: Option<Recipe>)
    ensures found.None? <==> forall j :: 0 <= j < |recipes| ==> recipes[j].name != name
    ensures found.Some? ==>
      exists k :: 0 <= k < |recipes| && recipes[k] == found.value && found.value.name == name
        && forall j :: 0 <= j < k ==> recipes[j].name != name
  {
    if recipes == [] then None
    else if recipes[0].name == name then Some(recipes[0])
    else
      var found := FirstNamed(recipes[1..], name);
      assert found.Some? ==>
        exists k :: 1 <= k < |recipes| && recipes[k] == found.value && forall j :: 0 <= j < k ==> recipes[j].name != name;
      found
  }

  /** A list of recipes changed in place: the cook book, or the meal plan. */
  class RecipeList {
    var recipes: seq<Recipe>

    constructor (initial: seq<Recipe>)
      ensures recipes == initial
    {
      recipes := initial;
    }

    /** `add_recipe`: append, duplicates allowed. */
    method AddRecipe(recipe: Recipe)
      modifies this
      ensures recipes == old(recipes) + [recipe]
    {
      recipes := recipes + [recipe];
    }

    /** `find_recipe`: the first recipe called `name`, or `None`. */
    method FindRecipe(name: string) returns (found: Option<Recipe>)
      ensures found == FirstNamed(recipes, name)
      ensures found.None? <==> forall j :: 0 <= j < |recipes| ==> recipes[j].name != name
      ensures found.Some? ==>
        exists k :: 0 <= k < |recipes| && recipes[k] == found.value && found.value.name == name
          && forall j :: 0 <= j < k ==> recipes[j].name != name
    {
      for i := 0 to |recipes|
        invariant forall j :: 0 <= j < i ==> recipes[j].name != name
        invariant FirstNamed(recipes, name) == FirstNamed(recipes[i..], name)
      {
        assert recipes[i..][1..] == recipes[i + 1..];
        if name == recipes[i].name {
          return Some(recipes[i]);
        }
      }
      return None;
    }

    /** `remove_recipe`: remove while iterating, exactly as Python's list iterator does it. */
    method RemoveRecipe(name: string)
      modifies this
      ensures recipes == RemovedWhileIterating(old(recipes), 0, name)
    {
      var i := 0;
      while i < |recipes|
        invariant RemovedWhileIterating(recipes, i, name) == RemovedWhileIterating(old(recipes), 0, name)
        decreases |recipes| - i
      {
        var recipe := recipes[i];
        i := i + 1;
        if name == recipe.name {
          recipes := RemoveFirst(recipes, recipe);
        }
      }
    }
  }
}
