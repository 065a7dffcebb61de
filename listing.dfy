/**
 * The home page listing (`RecipesPage` in app/page.tsx): a search box, one
 * difficulty button group and one dietary button group, each group a toggle,
 * and the recipe cards that pass all three tests.
 */
module Listing {
  import opened Wrappers
  import opened Text
  import opened Seqs
  import opened Recipes
  import opened Themes
  import RecipeIcons
  import ThemeIcons

  /** The labels of the difficulty buttons. */
  const DifficultyLevels: seq<string> := ["Easy", "Medium", "Hard"]

  /** The labels of the dietary buttons. */
  const DietaryFilters: seq<string> := ["Spicy", "Vegetarian", "Vegan"]

  /** The three selection slots; "" is "nothing selected". */
  datatype Selection = Selection(search: string, filter: string, difficulty: string)

  const NoSelection: Selection := Selection("", "", "")

  /** A selection the buttons can produce: each of the two button slots is "" or one of its labels. */
  predicate KnownSelection(sel: Selection) {
    (sel.filter == "" || sel.filter in DietaryFilters) &&
    (sel.difficulty == "" || sel.difficulty in DifficultyLevels)
  }

  /** The recipe flag a dietary button label refers to. */
  function DietaryFlag(r: Recipe, filter: string): (flag: Option<bool>)
    requires filter in DietaryFilters
  {
    if filter == "Spicy" then r.isSpicy
    else if filter == "Vegetarian" then r.isVegetarian
    else r.isVegan
  }

  /** `matchesFilter`: no dietary filter, or the selected button's flag is set. */
  function MatchesFilter(r: Recipe, filter: string): (b: bool)
    ensures filter == "" ==> b
    ensures b && filter != "" ==> filter in DietaryFilters && DietaryFlag(r, filter) == Some(true)
  {
    if filter != "" then
      (filter == "Spicy" && r.isSpicy == Some(true)) ||
      (filter == "Vegetarian" && r.isVegetarian == Some(true)) ||
      (filter == "Vegan" && r.isVegan == Some(true))
    else true
  }

  /** `matchesDifficulty`: no difficulty filter, or the recipe has the selected level. */
  function MatchesDifficulty(r: Recipe, difficulty: string): (b: bool)
    ensures difficulty == "" ==> b
    ensures b && difficulty != "" ==> difficulty in DifficultyLevels && r.difficulty.Some?
  {
    if difficulty != "" then
      (difficulty == "Easy" && r.difficulty == Some("easy")) ||
      (difficulty == "Medium" && r.difficulty == Some("medium")) ||
      (difficulty == "Hard" && r.difficulty == Some("hard"))
    else true
  }

  /**
   * The predicate handed to `recipes.filter`: all three tests together. Only
   * a titled recipe and a selection the buttons can produce ever match; with
   * both button slots empty only the search decides.
   */
  function Matches(r: Recipe, sel: Selection): (b: bool)
    ensures b ==> r.title.Some? && KnownSelection(sel)
    ensures sel.filter == "" && sel.difficulty == "" ==> (b <==> MatchesSearch(r, sel.search))
  {
    MatchesSearch(r, sel.search) && MatchesFilter(r, sel.filter) && MatchesDifficulty(r, sel.difficulty)
  }

  /**
   * `filtered`: the recipes passing all three tests, in their fetched order
   * and with nothing else.
   */
  function FilterRecipes(recipes: seq<Recipe>, sel: Selection): (r: seq<Recipe>)
    ensures IsSubsequence(r, recipes)
    ensures |r| <= |recipes|
    ensures forall x :: x in r <==> x in recipes && Matches(x, sel)
  {
    var result := Filter(x => Matches(x, sel), recipes);
    SubsequenceLength(result, recipes);
    result
  }

  /**
   * The card grid the page renders: the filtered recipes, or a render fault
   * when a fetched recipe has no title. The filter callback evaluates
   * `recipe.title.toLowerCase()` on every recipe whatever is selected, so one
   * untitled recipe makes the render throw into the enclosing `ErrorBoundary`.
   */
  function Listed(recipes: seq<Recipe>, sel: Selection): (r: Option<seq<Recipe>>)
    ensures r.None? <==> exists i :: 0 <= i < |recipes| && recipes[i].title.None?
    ensures r.Some? ==> r.value == FilterRecipes(recipes, sel)
  {
    if AllTitled(recipes) then Some(FilterRecipes(recipes, sel)) else None
  }

  /** Each listed recipe appears as often as it was fetched; a rejected one not at all. */
  lemma {:induction false} FilterRecipesMultiplicity(recipes: seq<Recipe>, sel: Selection)
    ensures forall x ::
              multiset(FilterRecipes(recipes, sel))[x] == if Matches(x, sel) then multiset(recipes)[x] else 0
  {
    FilterMultiplicity(x => Matches(x, sel), recipes);
  }

  /**
   * A dietary filter keeps exactly the recipes whose flag for it is set; an
   * absent flag never matches, and a label other than the three buttons'
   * matches nothing.
   */
  lemma DietaryFilterExact(r: Recipe, filter: string)
    ensures MatchesFilter(r, filter) <==>
      filter == "" || (filter in DietaryFilters && DietaryFlag(r, filter) == Some(true))
  {
  }

  /**
   * A difficulty filter keeps exactly the recipes whose level is the button
   * label in lower case; a recipe without a level, or with another spelling,
   * never matches an active filter.
   */
  lemma {:induction false} DifficultyFilterExact(r: Recipe, difficulty: string)
    ensures MatchesDifficulty(r, difficulty) <==>
      difficulty == "" || (difficulty in DifficultyLevels && r.difficulty == Some(ToLower(difficulty)))
  {
    assert ToLower("Easy") == "easy" by {
      assert ToLower("Easy") == [LowerChar('E')] + ToLower("asy");
    }
    assert ToLower("Medium") == "medium" by {
      assert ToLower("Medium") == [LowerChar('M')] + ToLower("edium");
    }
    assert ToLower("Hard") == "hard" by {
      assert ToLower("Hard") == [LowerChar('H')] + ToLower("ard");
    }
  }

  /**
   * With nothing selected every fetched recipe is listed, in order, unless
   * one of them is untitled and the render faults.
   */
  lemma {:induction false} NoSelectionListsAll(recipes: seq<Recipe>)
    ensures Listed(recipes, NoSelection) == if AllTitled(recipes) then Some(recipes) else None
  {
    if AllTitled(recipes) {
      FilterKeepsAll(x => Matches(x, NoSelection), recipes);
    }
  }

  /** A filter value no button produces empties the list whatever else is selected. */
  lemma {:induction false} UnknownValueListsNothing(recipes: seq<Recipe>, sel: Selection)
    requires (sel.filter != "" && sel.filter !in DietaryFilters) ||
             (sel.difficulty != "" && sel.difficulty !in DifficultyLevels)
    ensures FilterRecipes(recipes, sel) == []
  {
    FilterDropsAll(x => Matches(x, sel), recipes);
  }

  /**
   * Every selection the buttons can produce is met by some recipe, whatever
   * the search term: only values outside the button labels rule out every
   * recipe, as `UnknownValueListsNothing` shows.
   */
  lemma KnownSelectionSatisfiable(sel: Selection)
    requires KnownSelection(sel)
    ensures exists r :: Matches(r, sel)
  {
    var level := if sel.difficulty == "" then None else Some(ToLower(sel.difficulty));
    var r := Recipe("", Some(sel.search), "", None, Some(true), Some(true), Some(true), level);
    DietaryFilterExact(r, sel.filter);
    DifficultyFilterExact(r, sel.difficulty);
    assert MatchesSearch(r, sel.search);
    assert Matches(r, sel);
  }

  /**
   * `narrow` selects at least what `wide` selects: each of `wide`'s slots is
   * either empty or equal to `narrow`'s.
   */
  predicate Narrows(narrow: Selection, wide: Selection) {
    (wide.search == "" || wide.search == narrow.search) &&
    (wide.filter == "" || wide.filter == narrow.filter) &&
    (wide.difficulty == "" || wide.difficulty == narrow.difficulty)
  }

  /**
   * Activating more filters never enlarges the list: the narrower selection
   * lists a subsequence of what the wider one lists.
   */
  lemma {:induction false} NarrowingNeverEnlarges(recipes: seq<Recipe>, narrow: Selection, wide: Selection)
    requires Narrows(narrow, wide)
    ensures IsSubsequence(FilterRecipes(recipes, narrow), FilterRecipes(recipes, wide))
    ensures |FilterRecipes(recipes, narrow)| <= |FilterRecipes(recipes, wide)|
  {
    FilterMonotone(x => Matches(x, narrow), x => Matches(x, wide), recipes);
  }

  /** A button handler: clicking the active value clears the slot, any other value replaces it. */
  function Toggle(current: string, value: string): (next: string)
    ensures next == "" || next == value
    ensures value != "" ==> (next == "" <==> current == value)
  {
    if current == value then "" else value
  }

  /**
   * Clicking the same button twice restores the slot exactly when the slot
   * was empty or already held that value; clicking "Medium" twice while
   * "Easy" is active leaves no level selected.
   */
  lemma ToggleTwice(current: string, value: string)
    requires value != ""
    ensures Toggle(Toggle(current, value), value) == current <==> current == "" || current == value
  {
  }

  lemma ToggleTwiceFromOtherValue()
    ensures Toggle(Toggle("Easy", "Medium"), "Medium") == ""
  {
  }

  /** A double click on a difficulty button restores the listed recipes when it started from "" or that level. */
  lemma DoubleToggleDifficultyRestoresList(recipes: seq<Recipe>, sel: Selection, level: string)
    requires level in DifficultyLevels
    requires sel.difficulty == "" || sel.difficulty == level
    ensures FilterRecipes(recipes, sel.(difficulty := Toggle(Toggle(sel.difficulty, level), level))) ==
      FilterRecipes(recipes, sel)
  {
    ToggleTwice(sel.difficulty, level);
  }

  /** The same for a dietary button. */
  lemma DoubleToggleFilterRestoresList(recipes: seq<Recipe>, sel: Selection, f: string)
    requires f in DietaryFilters
    requires sel.filter == "" || sel.filter == f
    ensures FilterRecipes(recipes, sel.(filter := Toggle(Toggle(sel.filter, f), f))) ==
      FilterRecipes(recipes, sel)
  {
    ToggleTwice(sel.filter, f);
  }

  /** Toggling with a button's own label keeps the slot among "" and the labels. */
  lemma ToggleKeepsChoice(current: string, value: string, labels: seq<string>)
    requires current == "" || current in labels
    requires value in labels
    ensures Toggle(current, value) == "" || Toggle(current, value) in labels
  {
  }

  /** `getIcon`: the card's dietary badge for the current theme. */
  function GetIcon(t: RecipeIcons.IconType, resolvedTheme: Option<string>): (path: string)
    ensures path == RecipeIcons.IconPath(t, IsDark(resolvedTheme))
  {
    var isDark := IsDark(resolvedTheme);
    match t
    case Vegan => if isDark then "/icons/vegan2.png" else "/icons/vegan.png"
    case Vegetarian => if isDark then "/icons/vegetarian2.png" else "/icons/vegetarian.png"
    case Spicy => if isDark then "/icons/spicy2.png" else "/icons/spicy.png"
  }

  /** The page's own badge table agrees with the `RecipeIcon` component's. */
  lemma GetIconAgreesWithRecipeIcon(t: RecipeIcons.IconType, resolvedTheme: Option<string>, width: Option<int>, height: Option<int>, alt: Option<string>)
    ensures RecipeIcons.RecipeIcon(RecipeIcons.Props(t, width, height, alt), resolvedTheme, true).value.src ==
      GetIcon(t, resolvedTheme)
  {
  }

  /** The header's logo picture: the one `ThemeIcon` chooses for the logo in the same theme. */
  function HeaderLogo(resolvedTheme: Option<string>): (path: string)
    ensures path == ThemeIcons.Source(ThemeIcons.Logo, IsDark(resolvedTheme))
  {
    if resolvedTheme == Some("dark") then "/icons/restaurant2.png" else "/icons/restaurant.png"
  }

  /** The header's theme switch picture: the one `ThemeIcon` chooses for the switch in the same theme. */
  function HeaderToggle(resolvedTheme: Option<string>): (path: string)
    ensures path == ThemeIcons.Source(ThemeIcons.ThemeToggle, IsDark(resolvedTheme))
  {
    if resolvedTheme == Some("dark") then "/icons/sun.png" else "/icons/moon.png"
  }

  /** The page's selection state and its fetched recipes. */
  class ListingPage {
    var recipes: seq<Recipe>
    var search: string
    var filter: string
    var difficulty: string

    /**
     * At most one dietary value and at most one level are active, each one a
     * button's label; by `KnownSelectionSatisfiable` no such state rules out
     * every recipe.
     */
    ghost predicate Valid()
      reads this
    {
      KnownSelection(Selected())
    }

    function Selected(): (sel: Selection)
      reads this
    {
      Selection(search, filter, difficulty)
    }

    /**
     * The cards shown: the fetched recipes passing the current selection, in
     * order, or a render fault when a fetched recipe is untitled.
     */
    function Filtered(): (r: Option<seq<Recipe>>)
      reads this
      ensures r.None? <==> exists i :: 0 <= i < |recipes| && recipes[i].title.None?
      ensures r.Some? ==> IsSubsequence(r.value, recipes)
      ensures r.Some? ==> forall x :: x in r.value <==> x in recipes && Matches(x, Selected())
    {
      Listed(recipes, Selected())
    }

    /** The first render: nothing fetched, nothing selected. */
    constructor ()
      ensures Valid()
      ensures recipes == [] && Selected() == NoSelection
    {
      recipes, search, filter, difficulty := [], "", "", "";
    }

    /** The fetch completed: its list replaces the recipes. */
    method ReceiveRecipes(data: seq<Recipe>)
      requires Valid()
      modifies this
      ensures Valid()
      ensures recipes == data && Selected() == old(Selected())
    {
      recipes := data;
    }

    /** Typing in the search box: the term is replaced, nothing toggles. */
    method SetSearch(value: string)
      requires Valid()
      modifies this
      ensures Valid()
      ensures recipes == old(recipes) && Selected() == old(Selected()).(search := value)
    {
      search := value;
    }

    /** A difficulty button. */
    method ToggleDifficulty(level: string)
      requires Valid() && level in DifficultyLevels
      modifies this
      ensures Valid()
      ensures recipes == old(recipes) && search == old(search) && filter == old(filter)
      ensures difficulty == (if old(difficulty) == level then "" else level)
    {
      ToggleKeepsChoice(difficulty, level, DifficultyLevels);
      difficulty := Toggle(difficulty, level);
    }

    /** A dietary button. */
    method ToggleFilter(f: string)
      requires Valid() && f in DietaryFilters
      modifies this
      ensures Valid()
      ensures recipes == old(recipes) && search == old(search) && difficulty == old(difficulty)
      ensures filter == (if old(filter) == f then "" else f)
    {
      ToggleKeepsChoice(filter, f, DietaryFilters);
      filter := Toggle(filter, f);
    }
  }
}
