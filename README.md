# Grocery helper, modelled in Dafny

The grocery helper is a small console program for planning meals. It keeps three things:

- a **cook book** of recipes, each a name and a comma-separated list of ingredient lines;
- a **meal plan**, the recipes chosen from the cook book;
- a **shopping list**, generated from the meal plan. It holds one entry per ingredient name, with the amounts added up.

Each ingredient line reads `amount measure name words...`, for example `0.5 tsp coffee granules`.

The project models these parts:

- the helper functions in `grocery_helper/Grocery_helper.py`;
- the command sanitiser;
- the dispatch of one command line in `main`.

Python exceptions become `Result` values. `None` becomes `Option`. Amounts are `real`.

The modules are:

- `Text`: the string primitives the program relies on. These are `str.lower`, `str.isalpha`, `str.isspace`, `split(" ")`, `split()`, `join` and `strip`. Each comes with lemmas relating splitting and joining.
- `Amounts`: `float(text)` for the decimal notation amounts are written in.
- `Ingredients`: `parse_ingredient`, and its variant that splits on white space.
- `Recipes`:
  - recipes and `create_recipe`'s joining of lines;
  - `recipe_ingredients` and `get_ingredient_amount`;
  - the class `RecipeList`, which models the caller's list that `add_recipe`, `find_recipe` and `remove_recipe` change in place (in the program, the cook book and the meal plan). Its `AddRecipe`, `FindRecipe` and `RemoveRecipe` model those three functions. `Session` holds the cook book and the meal plan as plain sequences and uses the functions that specify these methods.
- `Shopping`:
  - the class `ShoppingList`, whose `Add` and `Remove` model `add_to_shopping_list` and `remove_from_shopping_list`;
  - `generate_shopping_list`;
  - the proof that the generated list summarises the meal plan: distinct names, totals per name, first-seen order.
- `Display`: the lines `display_ingredients` prints, with their column layout.
- `Commands`: `sanitise_command`, proved canonical and idempotent.
- `Session`: which branch of `main` an input line takes (`Classify`), and what that branch does to the session (`Apply`). `Step` is the two together.

`get_recipe_name` is the field `Recipe.name`.

Where the docstrings and the code differ, the model follows the code:

- Removing during iteration skips the next element. `remove_recipe` and `remove_from_shopping_list` both delete from the list they are iterating over, so the element right after a deleted one is not examined. The model's `RemovedWhileIterating` and `SubtractedWhileIterating` do the same. `RemoveRecipeSkipsNeighbour` and `SubtractSkipsNeighbour` show the consequence: when the only two matches stand first, the second survives (for the shopping list, when the first is used up).
- `display_ingredients` pads its cells. The docstring example shows the rows without padding, but the code pads every cell to the widest entry of its column. The measure is centred, with the extra space on the right.
- A two-word ingredient line parses. `parse_ingredient('2 eggs')` returns an empty name; it does not raise.
- A line without letters makes `main` raise. `main` indexes the first word of the sanitised line before it checks for `g` or `rm -i`, so an empty line or a number raises `IndexError`.
- `ls -s` and `rm -i` can raise `NameError`. Before the first `g` or `G`, `shopping_list` is unbound.

## Model

| member | source | states |
|---|---|---|
| Recipes.CreateRecipe | grocery_helper/Grocery_helper.py:42-73 | the recipe keeps the entered name; joining the lines with "," is its definition, and CreateRecipeRoundTrip states what that join preserves |
| Recipes.CreateRecipeRoundTrip | grocery_helper/Grocery_helper.py:42-73 | splitting the stored text on "," gives back exactly the lines entered, when none contains a comma |
| Recipes.CreateRecipeEmpty | grocery_helper/Grocery_helper.py:62-70 | a recipe created with no ingredient lines splits into one empty piece |
| Ingredients.FromWords | grocery_helper/Grocery_helper.py:31-39 | succeeds exactly when there are at least two words and the first parses as a float; the measure is the second word, the name the rest joined by spaces, the amount the float value |
| Ingredients.ParseIngredientFields | grocery_helper/Grocery_helper.py:22-39 | for "a m n", a bad amount gives BadAmount(a); otherwise the result is (float(a), m, n) |
| Ingredients.ParseIngredientTwoWords | grocery_helper/Grocery_helper.py:31-39 | a line of amount and measure only parses with an empty name |
| Ingredients.ParseIngredient | grocery_helper/Grocery_helper.py:22-39 | split(" ") always yields an amount word, so a failure is a bad amount or a missing measure; a line with no space never parses |
| Ingredients.ParseWords | grocery_helper/Grocery_helper.py:94-99 | a blank piece raises IndexError on the amount word; a parsed measure is one word without white space |
| Ingredients.ParseIngredientExample | grocery_helper/Grocery_helper.py:22-30 | the docstring example: "0.5 tsp coffee granules" is (0.5, "tsp", "coffee granules") |
| Ingredients.ParsersAgree | grocery_helper/Grocery_helper.py:31-39 | on words joined by single spaces, splitting on " " and splitting on white space parse alike |
| Amounts.ParseAmount | grocery_helper/Grocery_helper.py:34 | a text accepted as a number holds a digit, so an empty or blank amount raises ValueError |
| Amounts.ParseAmountDecimal | grocery_helper/Grocery_helper.py:34 | "w.f" reads as the whole number w plus the fraction f |
| Amounts.ParseAmountWhole | grocery_helper/Grocery_helper.py:34 | a run of digits reads as the number it spells |
| Amounts.ParseAmountHalf | grocery_helper/Grocery_helper.py:34 | "0.5" reads as 0.5 |
| Recipes.ParseEachEntries | grocery_helper/Grocery_helper.py:88-105 | parsing the pieces succeeds iff every piece parses; then entry i is the parse of piece i; otherwise the error is that of the first piece that fails |
| Recipes.RecipeIngredients | grocery_helper/Grocery_helper.py:76-108 | the loop returns the parse of every comma-separated piece in order, or the first piece's error |
| Recipes.GetIngredientAmount | grocery_helper/Grocery_helper.py:165-193 | returns the amount and measure of the first piece whose name matches, None when no piece matches, or the error of a piece that fails to parse before any match |
| Recipes.FirstNamed | grocery_helper/Grocery_helper.py:124-138 | None iff no recipe has the name; otherwise the first recipe with that name |
| Recipes.RecipeList.AddRecipe | grocery_helper/Grocery_helper.py:111-121 | the list becomes the old list with the recipe appended |
| Recipes.RecipeList.FindRecipe | grocery_helper/Grocery_helper.py:124-138 | the loop returns the first recipe with the name, or None iff there is none; the list is unchanged |
| Recipes.RecipeList.RemoveRecipe | grocery_helper/Grocery_helper.py:141-162 | the list becomes the result of removing matches while iterating, including the skip after each removal |
| Recipes.RemoveRecipeAbsent | grocery_helper/Grocery_helper.py:141-162 | removing a name no recipe has leaves the list unchanged |
| Recipes.RemoveRecipeUnique | grocery_helper/Grocery_helper.py:141-162 | when one recipe has the name, exactly that recipe is removed |
| Recipes.RemoveRecipeKeepsOthers | grocery_helper/Grocery_helper.py:141-162 | the recipes with other names remain, in their order |
| Recipes.RemoveRecipeSkipsNeighbour | grocery_helper/Grocery_helper.py:159-162 | when the first two recipes are the only ones with the name, only the first is removed |
| Shopping.AddEntryAppends | grocery_helper/Grocery_helper.py:196-233 | an ingredient whose name is not yet listed is appended unchanged |
| Shopping.AddEntryMerges | grocery_helper/Grocery_helper.py:219-231 | an ingredient already listed is added into the first entry with its name, which keeps its measure; the other entries and the length are unchanged |
| Shopping.ShoppingList.Add | grocery_helper/Grocery_helper.py:196-233 | the loop with early return leaves the entries as AddEntry of the old entries |
| Shopping.SummarisesStep | grocery_helper/Grocery_helper.py:196-233 | adding one ingredient preserves the summary invariant: distinct names, every name covered, totals, first-seen order |
| Shopping.AggregateSummarises | grocery_helper/Grocery_helper.py:273-296 | adding a sequence of ingredients one by one gives one entry per distinct name, in first-seen order, with the total amount and the first measure |
| Shopping.AggregateDistinct | grocery_helper/Grocery_helper.py:273-296 | ingredients with distinct names are listed as they are |
| Shopping.AllIngredientsEntries | grocery_helper/Grocery_helper.py:291-295 | the plan's ingredients are collected iff every recipe parses; they are then each recipe's ingredients, recipe after recipe; otherwise the error is that of the first recipe that fails |
| Shopping.ShoppingListSummarises | grocery_helper/Grocery_helper.py:273-296 | the list is generated iff every recipe of the plan parses, and then it summarises all their ingredients |
| Shopping.GenerateShoppingList | grocery_helper/Grocery_helper.py:273-296 | the nested loops produce ShoppingListOf the recipes: the aggregate of all ingredients, or the first parse error |
| Shopping.ShoppingList.Remove | grocery_helper/Grocery_helper.py:236-270 | the entries become the result of subtracting while iterating: an entry at or below zero is deleted, otherwise updated in place, with the skip after a deletion |
| Shopping.SubtractAbsent | grocery_helper/Grocery_helper.py:236-270 | removing an ingredient that is not listed changes nothing |
| Shopping.SubtractUnique | grocery_helper/Grocery_helper.py:263-270 | with one entry of that name, it is deleted when the amount reaches zero or below, and otherwise lowered by the amount |
| Shopping.SubtractKeepsOthers | grocery_helper/Grocery_helper.py:236-270 | entries with other names are unchanged and keep their order |
| Shopping.SubtractSkipsNeighbour | grocery_helper/Grocery_helper.py:263-267 | when the first two entries are the only ones with the name and the first is used up, only the first is deleted: the second is not examined |
| Display.MaxWidths | grocery_helper/Grocery_helper.py:312-326 | every entry fits the column widths, and each width is 0 or the length of some entry's field |
| Display.Padding | grocery_helper/Grocery_helper.py:343-347 | the two paddings around the measure add up to the free width plus one, and the right one is at most one more than the left |
| Display.RowLength | grocery_helper/Grocery_helper.py:336-356 | every row is as long as the three widths plus 12 |
| Display.RowLayout | grocery_helper/Grocery_helper.py:336-356 | the bars stand at fixed columns; the amount is right-aligned, the measure centred and the name left-aligned in their cells |
| Display.TableRows | grocery_helper/Grocery_helper.py:328-356 | one line per entry, line i being the row of entry i at the column maxima, all lines of equal length |
| Display.ColumnWidths | grocery_helper/Grocery_helper.py:312-326 | the first loop computes the column maxima MaxWidths |
| Display.FormatRows | grocery_helper/Grocery_helper.py:328-356 | the second loop builds the rows of all entries, in order |
| Display.DisplayIngredients | grocery_helper/Grocery_helper.py:299-356 | the two passes together produce Table, whose shape TableRows states |
| Display.DisplayExample | grocery_helper/Grocery_helper.py:305-308 | the docstring example as the code prints it, with padding |
| Commands.SanitisedCanonical | grocery_helper/Grocery_helper.py:359-380 | the result is lower-case letters and single spaces, not starting or ending in a space, with exactly the letters of the lower-cased command |
| Commands.CanonicalFixed | grocery_helper/Grocery_helper.py:359-380 | a canonical command is returned unchanged |
| Commands.SanitiseIdempotent | grocery_helper/Grocery_helper.py:359-380 | sanitising twice is sanitising once |
| Commands.SanitiseCommand | grocery_helper/Grocery_helper.py:359-380 | the character loop computes the sanitised command, which is canonical and keeps the letters |
| Commands.SanitiseExample | grocery_helper/Grocery_helper.py:364-366 | "add c4hocolate Brownies" becomes "add chocolate brownies" |
| Session.Classify | grocery_helper/Grocery_helper.py:418-488 | choosing a branch raises only for a missing word ("rm" alone among them) or an "rm -i" amount that is not a number; only "q" and "Q" select Quit |
| Session.ClassifyAdd | grocery_helper/Grocery_helper.py:429-443 | a line whose sanitised first word is "add" takes the add branch, with the sanitised line from index 4 as the name, whatever its raw form |
| Session.ClassifyRmAlone | grocery_helper/Grocery_helper.py:461 | "rm" with no further word raises IndexError on the option |
| Session.ClassifyRemoveIngredient | grocery_helper/Grocery_helper.py:461-468 | "rm -i" words then an amount: a non-number amount raises ValueError; otherwise the ingredient named by the middle words joined with spaces loses that amount |
| Session.Apply | grocery_helper/Grocery_helper.py:429-488 | only Quit stops; a branch raises exactly when g meets an unparsable plan (with that parse error) or ls -s / rm -i find no list (NameError) |
| Session.Step | grocery_helper/Grocery_helper.py:418-488 | a turn ends the session exactly on "q" or "Q", and a line without a letter raises |
| Session.ClassifyNoLetters | grocery_helper/Grocery_helper.py:429-442 | a line with no letters raises IndexError at the first sanitised-word test |
| Session.StepFrame | grocery_helper/Grocery_helper.py:429-488 | a branch that does not raise changes the cook book only on "mkrec", the meal plan only on add or rm, and the shopping list only on g or rm -i |
| Session.FirstTurn | grocery_helper/Grocery_helper.py:402-415 | a session starts with the given cook book, an empty meal plan and no list: "ls -s" and "rm -i" raise NameError, and "g" stores an empty list |
| Session.NoListBeforeGenerate | grocery_helper/Grocery_helper.py:461-488 | while no list has been generated, the "ls -s" and "rm -i" branches raise NameError |
| Session.ListMissingUntilGenerate | grocery_helper/Grocery_helper.py:456-458 | while no list exists, only the g branch can create one |
| Session.GenerateSummarises | grocery_helper/Grocery_helper.py:456-458 | the g branch fails iff some planned recipe does not parse; otherwise the list summarises the plan's ingredients |
| Session.AddTakesFirstMatch | grocery_helper/Grocery_helper.py:442-454 | the add branch appends the cook book's first recipe with that name to the plan, or changes nothing if there is none |

## Left out

- The console is not modelled: `input`, `print` and `main`'s loop are absent. `Session.Step` is one turn of that loop. Showing the list after `g` and on `ls -s` is modelled in `Display`, not in `Session.Step`.
- `create_recipe`'s prompting is absent. The entered name and lines are parameters of `CreateRecipe`, and the recipe made on "mkrec" is a parameter of `Session.Step`.
- `num_hours` is not part of this model. It returns a constant.
- The `constants` module is not part of this model. It holds the help text and the built-in recipes, so a session starts from any cook book.
- `ls`, `ls -a` and `H` only print. `Session.Step` leaves the state unchanged on them.
- Amounts are modelled only in part:
  - `float()` is modelled only for decimals with an optional sign and surrounding white space. Exponents, `inf`, `nan`, underscores and non-ASCII digits are outside the model.
  - Amounts are exact reals, so binary floating-point rounding of sums and differences is not captured.
- Amounts.ParseAmount: refuses every text without a digit. That holds for the decimal notation modelled; Python also accepts `inf` and `nan`, which have none.
- `str(float)` is a parameter `show` of the display functions. Python's shortest round-trip float formatting is not modelled.
- `str.lower`, `isalpha` and `isspace` are modelled for ASCII letters and white space only. Unicode case mapping and categories are not.
- Display.DisplayIngredients: returns the lines instead of printing them.
