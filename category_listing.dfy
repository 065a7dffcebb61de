/**
 * The older listing (`RecipesPage` in app/recipes/page.tsx): a search box and
 * a category drop-down whose options are the categories of the fetched recipes.
 */
module CategoryListing {
  import opened Wrappers
  import opened Seqs
  import opened Recipes

  /**
   * `matchesCategory`: no category chosen, or exactly the chosen one; a
   * recipe without a category matches only "All categories".
   */
  function MatchesCategory(r: Recipe, category: string): (b: bool)
    ensures category == "" ==> b
    ensures b && category != "" ==> r.category == Some(category)
    ensures r.category == Some(category) ==> b
  {
    if category != "" then r.category == Some(category) else true
  }

  /** `filtered`: the recipes passing the search and the category test, in fetched order. */
  function FilterRecipes(recipes: seq<Recipe>, search: string, category: string): (r: seq<Recipe>)
    ensures IsSubsequence(r, recipes)
    ensures forall x :: x in r <==> x in recipes && MatchesSearch(x, search) && MatchesCategory(x, category)
  {
    Filter(x => MatchesSearch(x, search) && MatchesCategory(x, category), recipes)
  }

  /**
   * The cards the page renders: the filtered recipes, or a render fault when
   * a fetched recipe has no title, on which `recipe.title.toLowerCase()`
   * throws whatever the term and the category are.
   */
  function Listed(recipes: seq<Recipe>, search: string, category: string): (r: Option<seq<Recipe>>)
    ensures r.None? <==> exists i :: 0 <= i < |recipes| && recipes[i].title.None?
    ensures r.Some? ==> r.value == FilterRecipes(recipes, search, category)
  {
    if AllTitled(recipes) then Some(FilterRecipes(recipes, search, category)) else None
  }

  /** "All categories" imposes nothing: only the title search applies. */
  lemma {:induction false} AllCategoriesSearchOnly(recipes: seq<Recipe>, search: string)
    ensures FilterRecipes(recipes, search, "") == Filter(x => MatchesSearch(x, search), recipes)
  {
    FilterCongruent(x => MatchesSearch(x, search) && MatchesCategory(x, ""), x => MatchesSearch(x, search), recipes);
  }

  /**
   * With no search term the list is exactly the recipes filed under the
   * chosen category, unless an untitled recipe faults the render.
   */
  lemma {:induction false} CategoryOnly(recipes: seq<Recipe>, category: string)
    requires category != ""
    ensures Listed(recipes, "", category) ==
      if AllTitled(recipes) then Some(Filter((x: Recipe) => x.category == Some(category), recipes)) else None
  {
    if AllTitled(recipes) {
      FilterCongruent(x => MatchesSearch(x, "") && MatchesCategory(x, category), (x: Recipe) => x.category == Some(category), recipes);
    }
  }

  /**
   * With neither a term nor a category every fetched recipe is listed, in
   * order, unless an untitled recipe faults the render.
   */
  lemma {:induction false} NothingChosenListsAll(recipes: seq<Recipe>)
    ensures Listed(recipes, "", "") == if AllTitled(recipes) then Some(recipes) else None
  {
    if AllTitled(recipes) {
      FilterKeepsAll(x => MatchesSearch(x, "") && MatchesCategory(x, ""), recipes);
    }
  }

  /**
   * `recipes.map(r => r.category)`, one entry per recipe at the recipe's own
   * index, an absent category read as "" (both are falsy).
   */
  function CategoryValues(recipes: seq<Recipe>): (vs: seq<string>)
    ensures |vs| == |recipes|
    ensures forall i :: 0 <= i < |recipes| ==> vs[i] == recipes[i].category.GetOr("")
  {
    seq(|recipes|, i requires 0 <= i < |recipes| => recipes[i].category.GetOr(""))
  }

  /**
   * `recipes.map(r => r.category).filter(Boolean)`: the categories in
   * recipe order, absent and empty ones dropped, repeats kept.
   */
  function PresentCategories(recipes: seq<Recipe>): (cs: seq<string>)
    ensures IsSubsequence(cs, CategoryValues(recipes))
    ensures |cs| <= |recipes|
    ensures forall c :: c in cs <==> c != "" && exists i :: 0 <= i < |recipes| && recipes[i].category == Some(c)
  {
    var vs := CategoryValues(recipes);
    var cs := Filter(c => c != "", vs);
    SubsequenceLength(cs, vs);
    cs
  }

  /**
   * `categories`: the drop-down's options, each present category once, in the
   * order in which the categories first appear among the recipes.
   */
  function Categories(recipes: seq<Recipe>): (cs: seq<string>)
    ensures NoDuplicates(cs)
    ensures forall c :: c in cs ==> c != ""
    ensures forall c :: c in cs <==> c != "" && exists i :: 0 <= i < |recipes| && recipes[i].category == Some(c)
  {
    Distinct(PresentCategories(recipes))
  }

  /**
   * The options follow first occurrence among the recipes: the first recipe
   * carrying an earlier option comes before the first recipe carrying a later
   * one (`FirstIndex` in `CategoryValues` is that recipe's index).
   */
  lemma {:induction false} CategoriesFirstOccurrenceOrder(recipes: seq<Recipe>)
    ensures forall c :: c in Categories(recipes) ==> c in CategoryValues(recipes)
    ensures forall i, j :: 0 <= i < j < |Categories(recipes)| ==>
      FirstIndex(CategoryValues(recipes), Categories(recipes)[i]) <
      FirstIndex(CategoryValues(recipes), Categories(recipes)[j])
  {
    var vs, present, options := CategoryValues(recipes), PresentCategories(recipes), Categories(recipes);
    DistinctFirstOccurrenceOrder(present);
    forall i, j | 0 <= i < j < |options|
      ensures FirstIndex(vs, options[i]) < FirstIndex(vs, options[j])
    {
      FilterKeepsFirstOccurrenceOrder(c => c != "", vs, options[i], options[j]);
    }
  }

  /** The page's state: the fetched recipes, the search term and the chosen category. */
  class CategoryPage {
    var recipes: seq<Recipe>
    var search: string
    var category: string

    /** The cards shown, or a render fault when a fetched recipe is untitled. */
    function Filtered(): (r: Option<seq<Recipe>>)
      reads this
      ensures r.None? <==> exists i :: 0 <= i < |recipes| && recipes[i].title.None?
      ensures r.Some? ==> IsSubsequence(r.value, recipes)
      ensures r.Some? ==> forall x :: x in r.value <==> x in recipes && MatchesSearch(x, search) && MatchesCategory(x, category)
    {
      Listed(recipes, search, category)
    }

    /** The drop-down's options after "All categories". */
    function Options(): (cs: seq<string>)
      reads this
      ensures NoDuplicates(cs)
      ensures forall c :: c in cs <==> c != "" && exists i :: 0 <= i < |recipes| && recipes[i].category == Some(c)
    {
      Categories(recipes)
    }

    /** The first render: nothing fetched, no term, "All categories". */
    constructor ()
      ensures recipes == [] && search == "" && category == ""
    {
      recipes, search, category := [], "", "";
    }

    /** The fetch completed: its list replaces the recipes. */
    method ReceiveRecipes(data: seq<Recipe>)
      modifies this
      ensures recipes == data && search == old(search) && category == old(category)
    {
      recipes := data;
    }

    /** Typing in the search box. */
    method SetSearch(value: string)
      modifies this
      ensures search == value && recipes == old(recipes) && category == old(category)
    {
      search := value;
    }

    /** Choosing an option in the drop-down; "" is "All categories". */
    method SetCategory(value: string)
      modifies this
      ensures category == value && recipes == old(recipes) && search == old(search)
    {
      category := value;
    }
  }
}
