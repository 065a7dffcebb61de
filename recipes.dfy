/**
 * The recipe summary both listing pages receive from `getRecipes()`, and the
 * title search they share.
 */
module Recipes {
  import opened Wrappers
  import opened Text

  /**
   * One listed recipe. Fields marked optional in the page's `Recipe`
   * interface are `Option`s. `title` and `difficulty` are declared required
   * there, but the content store validates neither, so a document may arrive
   * without them and both are optional here too. The image reference is
   * passed through to the image builder and is not modelled.
   */
  datatype Recipe = Recipe(
    id: string,
    title: Option<string>,
    slug: string,
    category: Option<string>,
    isVegan: Option<bool>,
    isVegetarian: Option<bool>,
    isSpicy: Option<bool>,
    difficulty: Option<string>)

  /** Every recipe has a title, so `recipe.title.toLowerCase()` can be evaluated on each one. */
  predicate AllTitled(recipes: seq<Recipe>) {
    forall i :: 0 <= i < |recipes| ==> recipes[i].title.Some?
  }

  /**
   * `recipe.title.toLowerCase().includes(search.toLowerCase())` for a titled
   * recipe; the empty term matches every title. On an untitled recipe the
   * source throws instead of answering, and the listings fault before they
   * use this verdict, which is `false` there.
   */
  function MatchesSearch(r: Recipe, search: string): (b: bool)
    ensures b ==> r.title.Some?
    ensures search == "" && r.title.Some? ==> b
  {
    match r.title
    case Some(title) => Includes(ToLower(title), ToLower(search))
    case None => false
  }

  /** The search holds exactly when the lowered term occurs in the lowered title. */
  lemma MatchesSearchIffOccurs(r: Recipe, search: string)
    ensures MatchesSearch(r, search) ==>
      r.title.Some? && exists i: nat :: OccursAt(ToLower(r.title.value), ToLower(search), i)
    ensures (r.title.Some? && exists i: nat :: OccursAt(ToLower(r.title.value), ToLower(search), i)) ==>
      MatchesSearch(r, search)
  {
    if r.title.Some? {
      IncludesIffOccurs(ToLower(r.title.value), ToLower(search));
    }
  }

  /** The search ignores the case of both the title and the term. */
  lemma SearchIgnoresCase(r: Recipe, r': Recipe, search: string, search': string)
    requires r.title.Some? <==> r'.title.Some?
    requires r.title.Some? ==> ToLower(r.title.value) == ToLower(r'.title.value)
    requires ToLower(search) == ToLower(search')
    ensures MatchesSearch(r, search) == MatchesSearch(r', search')
  {
  }
}
