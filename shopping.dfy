/**
 * The shopping list: a list of ingredient entries that `add_to_shopping_list` and
 * `remove_from_shopping_list` change in place, and `generate_shopping_list`, which
 * builds one from the ingredients of a meal plan.
 */
module Shopping {
  import opened Results
  import opened Ingredients
  import opened Recipes

  /** The names of the entries, in order. */
  function Names(s: seq<Ingredient>): (r: seq<string>)
    ensures |r| == |s|
    ensures forall i :: 0 <= i < |s| ==> r[i] == s[i].name
  {
    if s == [] then [] else [s[0].name] + Names(s[1..])
  }

  /** Index of the first entry called `name`; `|s|` when there is none. */
  function FirstIndex(s: seq<Ingredient>, name: string): (k: nat)
    ensures k <= |s|
    ensures k < |s| ==> s[k].name == name
    ensures forall j :: 0 <= j < k ==> s[j].name != name
  {
    if s == [] then 0 else if s[0].name == name then 0 else 1 + FirstIndex(s[1..], name)
  }

  /**
   * What `add_to_shopping_list` makes of the list `s`: the first entry with the new
   * entry's name takes the sum of both amounts and keeps its own measure; when no entry
   * has that name the new entry goes at the end.
   */
  function AddEntry(s: seq<Ingredient>, e: Ingredient): seq<Ingredient> {
    var k := FirstIndex(s, e.name);
    if k == |s| then s + [e]
    else s[k := Ingredient(e.amount + s[k].amount, s[k].measure, s[k].name)]
  }

  /** A name the list does not hold is appended, with the entry exactly as given. */
  lemma AddEntryAppends(s: seq<Ingredient>, e: Ingredient)
    requires forall j :: 0 <= j < |s| ==> s[j].name != e.name
    ensures AddEntry(s, e) == s + [e]
  {
  }

  /**
   * A name the list holds changes only its first entry of that name: the amounts add up,
   * measure and name stay, the length stays, and every other entry is untouched.
   */
  lemma AddEntryMerges(s: seq<Ingredient>, e: Ingredient, k: nat)
    requires k < |s| && s[k].name == e.name
    requires forall j :: 0 <= j < k ==> s[j].name != e.name
    ensures |AddEntry(s, e)| == |s|
    ensures AddEntry(s, e)[k] == Ingredient(s[k].amount + e.amount, s[k].measure, s[k].name)
    ensures forall j :: 0 <= j < |s| && j != k ==> AddEntry(s, e)[j] == s[j]
  {
    assert FirstIndex(s, e.name) == k;
  }

  // ---------------------------------------------------------------------------
  // what generate_shopping_list computes

  /** `add_to_shopping_list` applied to each entry of `es` in turn, from an empty list. */
  function Aggregate(es: seq<Ingredient>): seq<Ingredient> {
    if es == [] then [] else AddEntry(Aggregate(es[..|es| - 1]), es[|es| - 1])
  }

  lemma AggregateSnoc(p: seq<Ingredient>, x: Ingredient)
    ensures Aggregate(p + [x]) == AddEntry(Aggregate(p), x)
  {
    assert (p + [x])[..|p|] == p;
  }

  lemma PrefixGrows(done: seq<Ingredient>, es: seq<Ingredient>, j: nat)
    requires j <= |es|
    ensures j == 0 ==> done + es[..j] == done
    ensures 0 < j ==> done + es[..j] == (done + es[..j - 1]) + [es[j - 1]]
    ensures j == |es| ==> done + es[..j] == done + es
  {
    if 0 < j {
      assert es[..j] == es[..j - 1] + [es[j - 1]];
    }
  }

  /** The sum of the amounts of all entries called `name`. */
  function Total(es: seq<Ingredient>, name: string): real {
    if es == [] then 0.0
    else Total(es[..|es| - 1], name) + (if es[|es| - 1].name == name then es[|es| - 1].amount else 0.0)
  }

  /** No two entries share a name. */
  predicate DistinctNames(out: seq<Ingredient>) {
    forall i, j :: 0 <= i < j < |out| ==> out[i].name != out[j].name
  }

  /** Every name that occurs in `es` has an entry in `out`. */
  predicate Covers(out: seq<Ingredient>, es: seq<Ingredient>) {
    forall j :: 0 <= j < |es| ==> es[j].name in Names(out)
  }

  /**
   * Each entry of `out` names something that occurs in `es`, holds that name's total
   * amount over `es`, and the measure of the name's first occurrence.
   */
  predicate Totals(out: seq<Ingredient>, es: seq<Ingredient>) {
    forall i :: 0 <= i < |out| ==>
      && FirstIndex(es, out[i].name) < |es|
      && out[i] == Ingredient(Total(es, out[i].name), es[FirstIndex(es, out[i].name)].measure, out[i].name)
  }

  /** The entries of `out` come in the order their names first occur in `es`. */
  predicate FirstSeenOrder(out: seq<Ingredient>, es: seq<Ingredient>) {
    forall i, j :: 0 <= i < j < |out| ==> FirstIndex(es, out[i].name) < FirstIndex(es, out[j].name)
  }

  /**
   * `out` summarises `es`: one entry per name that occurs in `es` and no other, in the
   * order the names first occur; each entry's amount is the name's total over `es`, its
   * measure the one of the name's first occurrence.
   */
  predicate Summarises(out: seq<Ingredient>, es: seq<Ingredient>) {
    DistinctNames(out) && Covers(out, es) && Totals(out, es) && FirstSeenOrder(out, es)
  }

  lemma FirstIndexAppend(es: seq<Ingredient>, e: Ingredient, name: string)
    ensures FirstIndex(es, name) < |es| ==> FirstIndex(es + [e], name) == FirstIndex(es, name)
    ensures FirstIndex(es, name) == |es| && e.name == name ==> FirstIndex(es + [e], name) == |es|
  {
    var t := es + [e];
    var k := FirstIndex(es, name);
    assert forall j :: 0 <= j < |es| ==> t[j] == es[j];
    if k < |es| {
      assert t[k].name == name;
    } else if e.name == name {
      assert t[|es|].name == name;
    }
  }

  lemma TotalAppend(es: seq<Ingredient>, e: Ingredient, name: string)
    ensures Total(es + [e], name) == Total(es, name) + (if e.name == name then e.amount else 0.0)
  {
    assert (es + [e])[..|es|] == es;
  }

  lemma {:induction false} TotalAbsent(es: seq<Ingredient>, name: string)
    requires FirstIndex(es, name) == |es|
    ensures Total(es, name) == 0.0
  {
    if es != [] {
      var p := es[..|es| - 1];
      assert forall j :: 0 <= j < |p| ==> p[j] == es[j];
      TotalAbsent(p, name);
    }
  }

  /** A name already seen keeps its first index, and its total when it is not the new entry's. */
  lemma SeenName(es: seq<Ingredient>, e: Ingredient, name: string)
    requires FirstIndex(es, name) < |es|
    ensures FirstIndex(es + [e], name) == FirstIndex(es, name)
    ensures (es + [e])[FirstIndex(es, name)] == es[FirstIndex(es, name)]
    ensures Total(es + [e], name) == Total(es, name) + (if e.name == name then e.amount else 0.0)
  {
    FirstIndexAppend(es, e, name);
    TotalAppend(es, e, name);
  }

  /** A name with no entry on the list does not occur in what the list summarises. */
  lemma UnseenName(out: seq<Ingredient>, es: seq<Ingredient>, name: string)
    requires Covers(out, es)
    requires FirstIndex(out, name) == |out|
    ensures FirstIndex(es, name) == |es|
  {
  }

  lemma AppendDistinct(out: seq<Ingredient>, e: Ingredient)
    requires DistinctNames(out) && FirstIndex(out, e.name) == |out|
    ensures DistinctNames(out + [e])
  {
  }

  lemma AppendCovers(out: seq<Ingredient>, es: seq<Ingredient>, e: Ingredient)
    requires Covers(out, es)
    ensures Covers(out + [e], es + [e])
  {
    var out', es' := out + [e], es + [e];
    assert Names(out') == Names(out) + [e.name];
    assert forall j :: 0 <= j < |es| ==> es'[j] == es[j];
  }

  lemma AppendTotals(out: seq<Ingredient>, es: seq<Ingredient>, e: Ingredient)
    requires Totals(out, es) && FirstIndex(es, e.name) == |es|
    ensures Totals(out + [e], es + [e])
  {
    var out', es' := out + [e], es + [e];
    FirstIndexAppend(es, e, e.name);
    TotalAppend(es, e, e.name);
    TotalAbsent(es, e.name);
    assert es'[|es|] == e;
    forall i | 0 <= i < |out'|
      ensures FirstIndex(es', out'[i].name) < |es'|
      ensures out'[i] == Ingredient(Total(es', out'[i].name), es'[FirstIndex(es', out'[i].name)].measure, out'[i].name)
    {
      if i < |out| {
        assert out'[i] == out[i];
        SeenName(es, e, out[i].name);
      }
    }
  }

  lemma AppendOrder(out: seq<Ingredient>, es: seq<Ingredient>, e: Ingredient)
    requires Totals(out, es) && FirstSeenOrder(out, es) && FirstIndex(es, e.name) == |es|
    ensures FirstSeenOrder(out + [e], es + [e])
  {
    var out', es' := out + [e], es + [e];
    FirstIndexAppend(es, e, e.name);
    forall i | 0 <= i < |out|
      ensures FirstIndex(es', out[i].name) == FirstIndex(es, out[i].name) < |es|
    {
      SeenName(es, e, out[i].name);
    }
    forall i, j | 0 <= i < j < |out'|
      ensures FirstIndex(es', out'[i].name) < FirstIndex(es', out'[j].name)
    {
      assert out'[i] == out[i];
      if j < |out| {
        assert out'[j] == out[j];
      }
    }
  }

  /** The step where the new entry's name is not yet on the list. */
  lemma SummarisesAppend(out: seq<Ingredient>, es: seq<Ingredient>, e: Ingredient)
    requires Summarises(out, es)
    requires FirstIndex(out, e.name) == |out|
    ensures Summarises(out + [e], es + [e])
  {
    UnseenName(out, es, e.name);
    AppendDistinct(out, e);
    AppendCovers(out, es, e);
    AppendTotals(out, es, e);
    AppendOrder(out, es, e);
  }

  /** The entry at `k` takes the new amount; names stay where they are. */
  lemma MergedNames(out: seq<Ingredient>, e: Ingredient, k: nat)
    requires k < |out| && FirstIndex(out, e.name) == k
    ensures |AddEntry(out, e)| == |out|
    ensures forall i :: 0 <= i < |out| ==> AddEntry(out, e)[i].name == out[i].name
    ensures forall i :: 0 <= i < |out| && i != k ==> AddEntry(out, e)[i] == out[i]
    ensures AddEntry(out, e)[k] == Ingredient(e.amount + out[k].amount, out[k].measure, out[k].name)
  {
  }

  lemma MergedSameNames(out: seq<Ingredient>, e: Ingredient, k: nat)
    requires k < |out| && FirstIndex(out, e.name) == k
    ensures Names(AddEntry(out, e)) == Names(out)
  {
    MergedNames(out, e, k);
  }

  lemma CoversRenamed(out: seq<Ingredient>, out': seq<Ingredient>, es: seq<Ingredient>, e: Ingredient)
    requires Covers(out, es) && Names(out') == Names(out) && e.name in Names(out)
    ensures Covers(out', es + [e])
  {
    var es' := es + [e];
    forall j | 0 <= j < |es'| ensures es'[j].name in Names(out') {
      if j < |es| {
        assert es'[j] == es[j];
      }
    }
  }

  lemma MergeCovers(out: seq<Ingredient>, es: seq<Ingredient>, e: Ingredient, k: nat)
    requires Covers(out, es) && k < |out| && FirstIndex(out, e.name) == k
    ensures Covers(AddEntry(out, e), es + [e])
  {
    MergedSameNames(out, e, k);
    assert Names(out)[k] == e.name;
    CoversRenamed(out, AddEntry(out, e), es, e);
  }

  lemma MergeTotals(out: seq<Ingredient>, es: seq<Ingredient>, e: Ingredient, k: nat)
    requires Totals(out, es) && DistinctNames(out) && k < |out| && FirstIndex(out, e.name) == k
    ensures Totals(AddEntry(out, e), es + [e])
  {
    var out', es' := AddEntry(out, e), es + [e];
    MergedNames(out, e, k);
    forall i | 0 <= i < |out'|
      ensures FirstIndex(es', out'[i].name) < |es'|
      ensures out'[i] == Ingredient(Total(es', out'[i].name), es'[FirstIndex(es', out'[i].name)].measure, out'[i].name)
    {
      SeenName(es, e, out[i].name);
    }
  }

  lemma MergeOrder(out: seq<Ingredient>, es: seq<Ingredient>, e: Ingredient, k: nat)
    requires Totals(out, es) && FirstSeenOrder(out, es) && k < |out| && FirstIndex(out, e.name) == k
    ensures FirstSeenOrder(AddEntry(out, e), es + [e])
  {
    var out', es' := AddEntry(out, e), es + [e];
    MergedNames(out, e, k);
    forall i | 0 <= i < |out|
      ensures FirstIndex(es', out'[i].name) == FirstIndex(es, out[i].name)
    {
      SeenName(es, e, out[i].name);
    }
  }

  /** The step where the new entry's name is already on the list, at `k`. */
  lemma SummarisesMerge(out: seq<Ingredient>, es: seq<Ingredient>, e: Ingredient, k: nat)
    requires Summarises(out, es)
    requires k < |out| && FirstIndex(out, e.name) == k
    ensures Summarises(AddEntry(out, e), es + [e])
  {
    MergedNames(out, e, k);
    MergeCovers(out, es, e, k);
    MergeTotals(out, es, e, k);
    MergeOrder(out, es, e, k);
  }

  lemma SummarisesStep(out: seq<Ingredient>, es: seq<Ingredient>, e: Ingredient)
    requires Summarises(out, es)
    ensures Summarises(AddEntry(out, e), es + [e])
  {
    var k := FirstIndex(out, e.name);
    if k == |out| {
      SummarisesAppend(out, es, e);
    } else {
      SummarisesMerge(out, es, e, k);
    }
  }

  /**
   * Adding the entries one by one yields the summary of all of them: distinct names in
   * first-seen order, each with its total amount and the measure it first came with.
   */
  lemma {:induction false} AggregateSummarises(es: seq<Ingredient>)
    ensures Summarises(Aggregate(es), es)
  {
    if es != [] {
      var p, x := es[..|es| - 1], es[|es| - 1];
      assert es == p + [x];
      AggregateSummarises(p);
      SummarisesStep(Aggregate(p), p, x);
    }
  }

  /** When no name repeats, the list comes out exactly as it went in. */
  lemma DistinctInit(p: seq<Ingredient>, x: Ingredient)
    requires DistinctNames(p + [x])
    ensures DistinctNames(p)
    ensures forall j :: 0 <= j < |p| ==> p[j].name != x.name
  {
    assert forall j :: 0 <= j < |p| ==> (p + [x])[j] == p[j];
    assert (p + [x])[|p|] == x;
  }

  lemma {:induction false} AggregateDistinct(es: seq<Ingredient>)
    requires DistinctNames(es)
    ensures Aggregate(es) == es
  {
    if es != [] {
      var p, x := es[..|es| - 1], es[|es| - 1];
      assert p + [x] == es;
      DistinctInit(p, x);
      AggregateDistinct(p);
      AddEntryAppends(p, x);
      assert p + [x] == es;
    }
  }

  /** The ingredients of every recipe, recipe after recipe; the first recipe that does not parse decides the error. */
  function AllIngredients(recipes: seq<Recipe>): Result<seq<Ingredient>, ParseError> {
    if recipes == [] then Ok([])
    else
      match ParseRecipe(recipes[0])
      case Err(e) => Err(e)
      case Ok(xs) => Prefixed(xs, AllIngredients(recipes[1..]))
  }

  lemma AllIngredientsFrom(recipes: seq<Recipe>, i: nat)
    requires i < |recipes|
    ensures AllIngredients(recipes[i..]) ==
      match ParseRecipe(recipes[i])
      case Err(e) => Err(e)
      case Ok(xs) => Prefixed(xs, AllIngredients(recipes[i + 1..]))
  {
    assert recipes[i..][1..] == recipes[i + 1..];
  }

  /** The ingredients of recipes that all parse, recipe after recipe. */
  function ParsedInOrder(recipes: seq<Recipe>): seq<Ingredient>
    requires forall i :: 0 <= i < |recipes| ==> ParseRecipe(recipes[i]).Ok?
  {
    if recipes == [] then []
    else ParseRecipe(recipes[0]).value + ParsedInOrder(recipes[1..])
  }

  /** Recipe `k` is the first of `recipes` that does not parse, and fails with `e`. */
  ghost predicate FirstBadRecipe(recipes: seq<Recipe>, k: int, e: ParseError) {
    && 0 <= k < |recipes|
    && ParseRecipe(recipes[k]) == Err(e)
    && forall j :: 0 <= j < k ==> ParseRecipe(recipes[j]).Ok?
  }

  /**
   * The plan's ingredients are collected iff every recipe parses; they are then each
   * recipe's ingredients, recipe after recipe. Otherwise the error is that of the first
   * recipe that does not parse.
   */
  lemma {:induction false} AllIngredientsEntries(recipes: seq<Recipe>)
    ensures AllIngredients(recipes).Ok? <==> forall i :: 0 <= i < |recipes| ==> ParseRecipe(recipes[i]).Ok?
    ensures AllIngredients(recipes).Ok? ==> AllIngredients(recipes).value == ParsedInOrder(recipes)
    ensures AllIngredients(recipes).Err? ==> exists k :: FirstBadRecipe(recipes, k, AllIngredients(recipes).error)
  {
    if recipes != [] {
      AllIngredientsEntries(recipes[1..]);
      assert forall i :: 1 <= i < |recipes| ==> recipes[i] == recipes[1..][i - 1];
      match ParseRecipe(recipes[0])
      case Err(e) => {
        assert FirstBadRecipe(recipes, 0, e);
      }
      case Ok(xs) => {
        var rest := AllIngredients(recipes[1..]);
        if rest.Err? {
          var k :| FirstBadRecipe(recipes[1..], k, rest.error);
          assert FirstBadRecipe(recipes, k + 1, rest.error);
        }
      }
    }
  }

  /** What `generate_shopping_list` computes: the aggregate of all ingredients of the plan. */
  function ShoppingListOf(recipes: seq<Recipe>): Result<seq<Ingredient>, ParseError> {
    match AllIngredients(recipes)
    case Ok(es) => Ok(Aggregate(es))
    case Err(e) => Err(e)
  }

  /**
   * The shopping list of a meal plan exists exactly when every recipe parses, and then
   * summarises all their ingredients: each name once, in first-seen order, with its total
   * amount and the measure it first came with.
   */
  lemma ShoppingListSummarises(recipes: seq<Recipe>)
    ensures ShoppingListOf(recipes).Ok? <==> AllIngredients(recipes).Ok?
    ensures ShoppingListOf(recipes).Ok? ==>
      Summarises(ShoppingListOf(recipes).value, AllIngredients(recipes).value)
  {
    if AllIngredients(recipes).Ok? {
      AggregateSummarises(AllIngredients(recipes).value);
    }
  }

  // ---------------------------------------------------------------------------
  // remove_from_shopping_list's iteration

  /**
   * The effect of `remove_from_shopping_list`'s loop from position `i` on. Every entry
   * called `name` that the loop reaches loses `amount`; an entry left with zero or less
   * is deleted from the list being iterated, so the entry that moves into its place is
   * not looked at.
   */
  function SubtractedWhileIterating(s: seq<Ingredient>, i: nat, name: string, amount: real): seq<Ingredient>
    decreases |s| - i
  {
    if i >= |s| then s
    else if s[i].name == name then
      var left := s[i].amount - amount;
      if left <= 0.0 then SubtractedWhileIterating(s[..i] + s[i + 1..], i + 1, name, amount)
      else SubtractedWhileIterating(s[i := Ingredient(left, s[i].measure, s[i].name)], i + 1, name, amount)
    else SubtractedWhileIterating(s, i + 1, name, amount)
  }

  /** The entries not called `name`, in order. */
  function OtherEntries(s: seq<Ingredient>, name: string): seq<Ingredient> {
    if s == [] then []
    else (if s[0].name == name then [] else [s[0]]) + OtherEntries(s[1..], name)
  }

  lemma {:induction false} SubtractedAbsentFrom(s: seq<Ingredient>, i: nat, name: string, amount: real)
    requires forall j :: i <= j < |s| ==> s[j].name != name
    ensures SubtractedWhileIterating(s, i, name, amount) == s
    decreases |s| - i
  {
    if i < |s| {
      SubtractedAbsentFrom(s, i + 1, name, amount);
    }
  }

  /** Removing an ingredient the list does not hold leaves it as it was. */
  lemma SubtractAbsent(s: seq<Ingredient>, name: string, amount: real)
    requires forall j :: 0 <= j < |s| ==> s[j].name != name
    ensures SubtractedWhileIterating(s, 0, name, amount) == s
  {
    SubtractedAbsentFrom(s, 0, name, amount);
  }

  lemma {:induction false} SubtractedSkip(s: seq<Ingredient>, i: nat, k: nat, name: string, amount: real)
    requires i <= k <= |s| && forall j :: i <= j < k ==> s[j].name != name
    ensures SubtractedWhileIterating(s, i, name, amount) == SubtractedWhileIterating(s, k, name, amount)
    decreases k - i
  {
    if i < k {
      SubtractedSkip(s, i + 1, k, name, amount);
    }
  }

  /**
   * With exactly one entry called `name`, at `k`: it is deleted when its amount minus
   * `amount` is zero or less, and otherwise takes that difference in place, with its
   * measure and name; every other entry stays where it was.
   */
  lemma SubtractUnique(s: seq<Ingredient>, k: nat, name: string, amount: real)
    requires k < |s| && s[k].name == name
    requires forall j :: 0 <= j < |s| && j != k ==> s[j].name != name
    ensures s[k].amount - amount <= 0.0 ==>
      SubtractedWhileIterating(s, 0, name, amount) == s[..k] + s[k + 1..]
    ensures s[k].amount - amount > 0.0 ==>
      SubtractedWhileIterating(s, 0, name, amount) == s[k := Ingredient(s[k].amount - amount, s[k].measure, name)]
  {
    SubtractedSkip(s, 0, k, name, amount);
    var left := s[k].amount - amount;
    if left <= 0.0 {
      var t := s[..k] + s[k + 1..];
      assert forall j :: k + 1 <= j < |t| ==> t[j] == s[j + 1];
      SubtractedAbsentFrom(t, k + 1, name, amount);
    } else {
      var t := s[k := Ingredient(left, s[k].measure, s[k].name)];
      SubtractedAbsentFrom(t, k + 1, name, amount);
    }
  }

  lemma {:induction false} OtherEntriesDelete(s: seq<Ingredient>, i: nat, name: string)
    requires i < |s| && s[i].name == name
    ensures OtherEntries(s[..i] + s[i + 1..], name) == OtherEntries(s, name)
  {
    if i > 0 {
      OtherEntriesDelete(s[1..], i - 1, name);
      assert (s[..i] + s[i + 1..])[1..] == s[1..][..i - 1] + s[1..][i..];
    } else {
      assert s[..0] + s[1..] == s[1..];
    }
  }

  lemma {:induction false} OtherEntriesUpdate(s: seq<Ingredient>, i: nat, name: string, x: Ingredient)
    requires i < |s| && s[i].name == name && x.name == name
    ensures OtherEntries(s[i := x], name) == OtherEntries(s, name)
  {
    if i > 0 {
      OtherEntriesUpdate(s[1..], i - 1, name, x);
      assert s[i := x][1..] == s[1..][i - 1 := x];
    }
  }

  lemma {:induction false} OtherEntriesKept(s: seq<Ingredient>, i: nat, name: string, amount: real)
    ensures OtherEntries(SubtractedWhileIterating(s, i, name, amount), name) == OtherEntries(s, name)
    decreases |s| - i
  {
    if i < |s| && s[i].name == name {
      var left := s[i].amount - amount;
      if left <= 0.0 {
        OtherEntriesKept(s[..i] + s[i + 1..], i + 1, name, amount);
        OtherEntriesDelete(s, i, name);
      } else {
        var x := Ingredient(left, s[i].measure, s[i].name);
        OtherEntriesKept(s[i := x], i + 1, name, amount);
        OtherEntriesUpdate(s, i, name, x);
      }
    } else if i < |s| {
      OtherEntriesKept(s, i + 1, name, amount);
    }
  }

  /** Entries with other names are never touched, and keep their order. */
  lemma SubtractKeepsOthers(s: seq<Ingredient>, name: string, amount: real)
    ensures OtherEntries(SubtractedWhileIterating(s, 0, name, amount), name) == OtherEntries(s, name)
  {
    OtherEntriesKept(s, 0, name, amount);
  }

  /** Two entries called `name` in a row, both used up: the first goes, the second is stepped over and stays. */
  lemma SubtractSkipsNeighbour(s: seq<Ingredient>, name: string, amount: real)
    requires |s| >= 2 && s[0].name == name && s[1].name == name && s[0].amount <= amount
    requires forall j :: 2 <= j < |s| ==> s[j].name != name
    ensures SubtractedWhileIterating(s, 0, name, amount) == s[1..]
  {
    var t := s[..0] + s[1..];
    assert t == s[1..];
    assert forall j :: 1 <= j < |t| ==> t[j] == s[j + 1];
    SubtractedAbsentFrom(t, 1, name, amount);
  }

  // ---------------------------------------------------------------------------
  // the list itself

  /** A shopping list changed in place. */
  class ShoppingList {
    var entries: seq<Ingredient>

    constructor (initial: seq<Ingredient>)
      ensures entries == initial
    {
      entries := initial;
    }

    /** `add_to_shopping_list`: merge into the first entry of the same name, or append. */
    method Add(e: Ingredient)
      modifies this
      ensures entries == AddEntry(old(entries), e)
    {
      for k := 0 to |entries|
        invariant entries == old(entries)
        invariant forall j :: 0 <= j < k ==> entries[j].name != e.name
      {
        if e.name == entries[k].name {
          assert FirstIndex(entries, e.name) == k;
          entries := entries[k := Ingredient(e.amount + entries[k].amount, entries[k].measure, entries[k].name)];
          return;
        }
      }
      entries := entries + [e];
    }

    /** `remove_from_shopping_list`: subtract from, or delete, entries while iterating over them. */
    method Remove(name: string, amount: real)
      modifies this
      ensures entries == SubtractedWhileIterating(old(entries), 0, name, amount)
    {
      var i := 0;
      while i < |entries|
        invariant SubtractedWhileIterating(entries, i, name, amount) == SubtractedWhileIterating(old(entries), 0, name, amount)
        decreases |entries| - i
      {
        var entry := entries[i];
        if name == entry.name {
          var left := entry.amount - amount;
          if left <= 0.0 {
            entries := entries[..i] + entries[i + 1..];
          } else {
            entries := entries[i := Ingredient(left, entry.measure, entry.name)];
          }
        }
        i := i + 1;
      }
    }
  }

  /**
   * `generate_shopping_list`: every ingredient of every recipe added, in order, to a new
   * list; a recipe that does not parse aborts with its error.
   */
  method GenerateShoppingList(recipes: seq<Recipe>) returns (r: Result<seq<Ingredient>, ParseError>)
    ensures r == ShoppingListOf(recipes)
  {
    var list := new ShoppingList([]);
    ghost var done: seq<Ingredient> := [];
    assert recipes[0..] == recipes;
    PrefixedNil(AllIngredients(recipes));
    for i := 0 to |recipes|
      invariant AllIngredients(recipes) == Prefixed(done, AllIngredients(recipes[i..]))
      invariant list.entries == Aggregate(done)
    {
      AllIngredientsFrom(recipes, i);
      var parsed := RecipeIngredients(recipes[i]);
      if parsed.Err? {
        assert AllIngredients(recipes[i..]) == Err(parsed.error);
        return Err(parsed.error);
      }
      var es := parsed.value;
      assert AllIngredients(recipes[i..]) == Prefixed(es, AllIngredients(recipes[i + 1..]));
      ghost var added := done;
      PrefixGrows(done, es, 0);
      for j := 0 to |es|
        invariant added == done + es[..j]
        invariant list.entries == Aggregate(added)
      {
        AggregateSnoc(added, es[j]);
        list.Add(es[j]);
        PrefixGrows(done, es, j + 1);
        added := added + [es[j]];
      }
      PrefixGrows(done, es, |es|);
      PrefixedTwice(done, es, AllIngredients(recipes[i + 1..]));
      done := done + es;
    }
    assert recipes[|recipes|..] == [];
    assert done + [] == done;
    return Ok(list.entries);
  }
}
