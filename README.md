# CookBook listing filters, theme icons and fault boundary in Dafny

This project models the computational core of the CookBook recipe site:

- **Home page listing** (`app/page.tsx`). The page keeps the fetched recipes and three selection
  slots: a free-text search, one dietary filter and one difficulty level. The two button groups
  are toggles. The cards shown are the recipes that pass all three tests, in their fetched order.
  The page also has its own copy of the dietary badge table (`getIcon`) and header pictures that
  repeat the `ThemeIcon` table.
- **Older category listing** (`app/recipes/page.tsx`). The same title search, an exact-match
  category filter, and the drop-down's category options: each present category once, in
  first-occurrence order.
- **`RecipeIcon` and `ThemeIcon`**: the light/dark picture tables, the prop defaults and the
  not-yet-mounted rendering.
- **`ErrorBoundary`**: a two-state fault boundary. Its render shows the children, the caller's
  fallback, or a default panel whose message is never empty.

Modules:

- `Wrappers` holds `Option`, the model of an optional TypeScript property.
- `Text` holds ASCII `toLowerCase` and `includes`.
- `Seqs` holds `Array.prototype.filter`, and `Array.from(new Set(..))` as `Distinct`.
- `Recipes` holds the shared recipe record and title search.
- `Listing` and `ListingSamples` cover the home page. `CategoryListing` covers the older page.
- `Themes`, `RecipeIcons` and `ThemeIcons` cover the icons. `ErrorBoundaries` covers the boundary.

The page state is a class in each listing module (`ListingPage`, `CategoryPage`). Their methods
are the React state setters and button handlers. The filters and tables are functions.
`ErrorBoundary` is a class whose one transition is `CatchError`.

Behaviour of the code that a reader might not expect, which the model follows:

- A double click on a button restores the slot only when the slot was empty or already held that
  value. Suppose "Easy" is active and "Medium" is clicked twice. The first click replaces "Easy"
  with "Medium", and the second click clears the slot. `Listing.ToggleTwice` proves the exact
  condition, and `Listing.ToggleTwiceFromOtherValue` shows the "Easy"/"Medium" case.
- The repository's own tests expect a loading spinner, a failure banner with a retry button and
  a "no recipes match" message (`__tests__/app/page.test.tsx` lines 103-109 and 286-318). The
  listing code in `app/page.tsx` renders none of them, so they are not modelled.
- The search has no `search == ""` shortcut. It calls `includes` on the lowered strings, and the
  empty term matches anyway (`Recipes.MatchesSearch`).
- The content store does not require a title, so a fetched recipe may have none. Both listings
  call `recipe.title.toLowerCase()` on every fetched recipe, whatever is selected, so a single
  untitled recipe makes the render throw into the layout's `ErrorBoundary`. `Listing.Listed` and
  `CategoryListing.Listed` return `None` for that fault and the filtered cards otherwise.

## Model

| member | source | states |
|---|---|---|
| Seqs.Filter | app/page.tsx:45-61 | `filter` keeps exactly the elements satisfying the predicate (membership both ways), as an order-preserving subsequence of the input |
| Seqs.FilterMultiplicity | app/page.tsx:45-61 | each kept element occurs as often as in the input; rejected ones do not occur |
| Seqs.FilterMonotone | app/page.tsx:60 | a predicate that implies another keeps a subsequence of, and no more elements than, what the other keeps |
| Seqs.FilterKeepsAll | app/page.tsx:45-61 | a predicate every element passes returns the input unchanged |
| Seqs.FilterDropsAll | app/page.tsx:45-61 | a predicate no element passes returns the empty list |
| Seqs.FilterCongruent | app/recipes/page.tsx:34-38 | predicates that agree on every element filter identically |
| Seqs.Distinct | app/recipes/page.tsx:40 | `Array.from(new Set(s))` has no duplicates and holds exactly the values of `s` |
| Seqs.DistinctFirstOccurrenceOrder | app/recipes/page.tsx:40 | the distinct values are listed in the order of their first occurrences (Set insertion order) |
| Seqs.FilterKeepsFirstOccurrenceOrder | app/recipes/page.tsx:40 | `filter` keeps the relative order of the first occurrences of the elements it keeps |
| Text.ToLower | app/page.tsx:46 | `toLowerCase` keeps the length and lowers every character in place |
| Text.ToLowerIdempotent | app/page.tsx:46 | a lowered string holds no ASCII capital, and lowering it again changes nothing |
| Text.IncludesIffOccurs | app/page.tsx:46 | `includes` holds exactly when the needle occurs as a contiguous slice of the haystack |
| Text.Includes | app/page.tsx:46 | `includes`: the empty needle is in every string, a needle longer than the haystack is in none, and an equally long one only when they are equal |
| Recipes.MatchesSearch | app/page.tsx:46 | only a titled recipe matches, and the empty search term matches every titled recipe |
| Recipes.MatchesSearchIffOccurs | app/recipes/page.tsx:35 | a recipe matches exactly when it has a title and the lowered term occurs in the lowered title |
| Recipes.SearchIgnoresCase | app/page.tsx:46 | titles and terms that lower to the same strings give the same verdict |
| Themes.IsDark | app/components/RecipeIcon.tsx:26 | only the resolved scheme named exactly "dark" is dark; an unresolved theme is not |
| Listing.MatchesFilter | app/page.tsx:48-52 | the empty filter matches every recipe, and an active filter matches only when it is a button label whose flag is set to true |
| Listing.MatchesDifficulty | app/page.tsx:54-58 | the empty difficulty matches every recipe, and an active one matches only when it is a button label and the recipe has a level |
| Listing.Matches | app/page.tsx:45-60 | only a titled recipe and a selection the buttons can produce match; with both button slots empty the search alone decides |
| Listing.FilterRecipes | app/page.tsx:45-61 | the cards are exactly the fetched recipes passing search, dietary and difficulty tests together, as an order-preserving subsequence |
| Listing.Listed | app/page.tsx:45-61 | the render faults exactly when some fetched recipe has no title, whatever is selected; otherwise it shows the filtered cards |
| Listing.FilterRecipesMultiplicity | app/page.tsx:45-61 | each passing recipe appears as often as it was fetched, a rejected one never |
| Listing.DietaryFilterExact | app/page.tsx:48-52 | a dietary filter matches iff it is empty, or it is one of the three labels and that recipe flag is set to true; an absent flag or an unknown label never matches |
| Listing.DifficultyFilterExact | app/page.tsx:54-58 | a difficulty filter matches iff it is empty, or it is one of the three labels and the recipe's level is that label lowered; an absent or different level never matches |
| Listing.NoSelectionListsAll | app/page.tsx:46-58 | with an empty search, filter and difficulty the page lists the fetched recipes unchanged, or faults when one is untitled |
| Listing.UnknownValueListsNothing | app/page.tsx:48-58 | a non-empty filter or difficulty outside the button labels lists nothing |
| Listing.KnownSelectionSatisfiable | app/page.tsx:141-161 | every selection the buttons can produce, with any search term, is matched by some recipe |
| Listing.NarrowingNeverEnlarges | app/page.tsx:60 | activating more filters gives a subsequence of the previous list, never a longer one |
| Listing.Toggle | app/page.tsx:144 | a click either clears the slot or selects the clicked value, and clears it exactly when that value was active |
| Listing.ToggleTwice | app/page.tsx:144 | two clicks on the same button restore the slot iff it was empty or held that value |
| Listing.ToggleTwiceFromOtherValue | app/page.tsx:144 | two clicks on "Medium" while "Easy" is active leave no level selected |
| Listing.DoubleToggleDifficultyRestoresList | app/page.tsx:144 | from an empty slot or the same level, a double click on a level restores the listed recipes |
| Listing.DoubleToggleFilterRestoresList | app/page.tsx:161 | from an empty slot or the same value, a double click on a dietary button restores the listed recipes |
| Listing.ToggleKeepsChoice | app/page.tsx:141-161 | a toggle with a button's label keeps the slot at "" or at one label |
| Listing.GetIcon | app/page.tsx:63-73 | `getIcon` gives the `iconMap` picture of `RecipeIcon` for the badge and `resolvedTheme === "dark"` |
| Listing.GetIconAgreesWithRecipeIcon | app/page.tsx:63-73 | the page's `getIcon` table gives the same picture as the mounted `RecipeIcon` component for every badge and theme |
| Listing.HeaderLogo | app/page.tsx:85 | the header logo is the picture `ThemeIcon` picks for the logo in the same theme |
| Listing.HeaderToggle | app/page.tsx:103 | the header theme switch is the picture `ThemeIcon` picks for the switch in the same theme |
| Listing.ListingPage.Filtered | app/page.tsx:45-61 | the page faults exactly when a fetched recipe is untitled; otherwise the shown cards are exactly the page's recipes passing its current selection, in order |
| Listing.ListingPage.constructor | app/page.tsx:24-27 | the first render has no recipes and an empty search, filter and difficulty |
| Listing.ListingPage.ReceiveRecipes | app/page.tsx:36-42 | the fetched list replaces the recipes and leaves the selection alone |
| Listing.ListingPage.SetSearch | app/page.tsx:122 | typing replaces the search term and changes nothing else |
| Listing.ListingPage.ToggleDifficulty | app/page.tsx:144 | the active level is cleared, any other level replaces it, the other slots are untouched, and at most one level stays active |
| Listing.ListingPage.ToggleFilter | app/page.tsx:161 | the same rule for the dietary slot, which keeps at most one dietary value active |
| ListingSamples.SampleSearchVegan | __tests__/app/page.test.tsx:173-182 | on the three sample cards, "vegan" lists only the Vegan Burger |
| ListingSamples.SampleSearchVeganUpper | app/page.tsx:46 | "VEGAN" lists the same single card: the search ignores case |
| ListingSamples.SampleVegetarian | __tests__/app/page.test.tsx:211-221 | the vegetarian button lists the Chocolate Cake and the Vegan Burger, in that order |
| ListingSamples.SampleCakeEasy | __tests__/app/page.test.tsx:271-283 | "Cake" with the easy level lists only the Chocolate Cake |
| CategoryListing.FilterRecipes | app/recipes/page.tsx:34-38 | the cards are exactly the recipes passing the title search and the category test, as an order-preserving subsequence |
| CategoryListing.MatchesCategory | app/recipes/page.tsx:36 | "All categories" matches every recipe; a chosen category matches exactly the recipes filed under it |
| CategoryListing.Listed | app/recipes/page.tsx:34-38 | the render faults exactly when some fetched recipe has no title; otherwise it shows the filtered cards |
| CategoryListing.AllCategoriesSearchOnly | app/recipes/page.tsx:36 | "All categories" (the empty category) leaves only the title search |
| CategoryListing.CategoryOnly | app/recipes/page.tsx:34-38 | with no search term, a chosen category lists exactly the recipes whose category equals it, in order, or faults when a recipe is untitled |
| CategoryListing.NothingChosenListsAll | app/recipes/page.tsx:34-38 | with no term and no category every fetched recipe is listed in order, or the render faults when one is untitled |
| CategoryListing.PresentCategories | app/recipes/page.tsx:40 | the mapped and truthy-filtered categories keep recipe order and are the non-empty categories some recipe carries |
| CategoryListing.Categories | app/recipes/page.tsx:40 | the options have no duplicates and no empty value, and hold every non-empty category present among the recipes and nothing else |
| CategoryListing.CategoriesFirstOccurrenceOrder | app/recipes/page.tsx:40 | each option comes from some recipe, and an earlier option first appears at an earlier recipe index than a later one |
| CategoryListing.CategoryPage.Filtered | app/recipes/page.tsx:34-38 | the page faults exactly when a fetched recipe is untitled; otherwise the shown cards are exactly the page's recipes passing its term and category, in order |
| CategoryListing.CategoryPage.Options | app/recipes/page.tsx:40 | the drop-down's options are duplicate-free and are the categories present in the page's recipes |
| CategoryListing.CategoryPage.constructor | app/recipes/page.tsx:22-24 | the first render has no recipes, no term and "All categories" |
| CategoryListing.CategoryPage.ReceiveRecipes | app/recipes/page.tsx:26-32 | the fetched list replaces the recipes |
| CategoryListing.CategoryPage.SetSearch | app/recipes/page.tsx:52 | typing replaces the term only |
| CategoryListing.CategoryPage.SetCategory | app/recipes/page.tsx:57 | choosing an option replaces the category only |
| RecipeIcons.IconPath | app/components/RecipeIcon.tsx:27-31 | each badge picture is `/icons/<type>.png`, or `/icons/<type>2.png` in the dark theme |
| RecipeIcons.IconPathInjective | app/components/RecipeIcon.tsx:27-31 | no two badge/theme pairs share a picture |
| RecipeIcons.RecipeIcon | app/components/RecipeIcon.tsx:14-40 | nothing before mount; after mount the badge picture for `resolvedTheme == "dark"` only, a never-empty alt that is the given non-empty alt or else the type name, and width and height 20 unless given |
| ThemeIcons.Source | app/components/ThemeIcon.tsx:37-42 | the logo is the restaurant picture, with "2" in the dark theme; the switch is the sun when dark and the moon otherwise |
| ThemeIcons.SourcesDistinct | app/components/ThemeIcon.tsx:37-42 | no two icon/theme pairs share a picture |
| ThemeIcons.ThemeIcon | app/components/ThemeIcon.tsx:16-54 | before mount a placeholder exactly the picture's size; after mount the picture for `resolvedTheme == "dark"` only; defaults width 40, height 40, alt "Icon", className "" |
| ErrorBoundaries.GetDerivedStateFromError | app/components/ErrorBoundary.tsx:21-23 | a caught throw yields the faulted state holding what was thrown, including a thrown value without a message |
| ErrorBoundaries.PanelMessage | app/components/ErrorBoundary.tsx:37 | the panel line is the error's message when it is non-empty, otherwise 'An unexpected error occurred'; it is never empty |
| ErrorBoundaries.Render | app/components/ErrorBoundary.tsx:29-52 | the children while no fault was caught; after one, the fallback when given and the default panel (heading, non-empty message, reload button) exactly when none is given |
| ErrorBoundaries.CaughtErrorIsShown | app/components/ErrorBoundary.tsx:21-37 | after catching a throw with no fallback, the panel shows the error's message, or the default one when it is empty or missing |
| ErrorBoundaries.ErrorBoundary.constructor | app/components/ErrorBoundary.tsx:16-19 | a new boundary has `hasError` false and no error |
| ErrorBoundaries.ErrorBoundary.CatchError | app/components/ErrorBoundary.tsx:21-23 | the state becomes the derived faulted state, the props stay, and a faulted boundary never returns to `hasError` false |
| ErrorBoundaries.ErrorBoundary.ReceiveProps | app/components/ErrorBoundary.tsx:29-51 | new props from the parent replace the old ones and keep the state, so a faulted boundary does not show the new children unless they are also its fallback |
| ErrorBoundaries.ErrorBoundary.Current | app/components/ErrorBoundary.tsx:29-52 | the boundary shows its subtree exactly while no fault was caught, unless the fallback is that subtree |

## Left out

- The data fetches (`getRecipes` at app/page.tsx:36-42 and app/recipes/page.tsx:26-32) are network calls. The fetched list is an input to `ReceiveRecipes`. The GROQ query and its ordering belong to the content store.
- The `mounted` effect of app/page.tsx:30-34 is a lifecycle flag that only gates the header pictures. The header pictures are modelled without it. For `RecipeIcon` and `ThemeIcon`, `mounted` is an input of the render function.
- Loading, failure, retry and "no recipes" messages are not rendered by the listing code, so they are not modelled.
- The serving-size scaler and counter live in the recipe detail component, which is not part of this model. Its rounding is also floating point.
- Theme switching (`setTheme`), `window.location.reload`, `console.error` in `componentDidCatch`, the `onClick` prop of `ThemeIcon`, and the rendering done by Next `Image` and `Link` are foreign calls or pass-throughs.
- Text.ToLower: models `toLowerCase` on ASCII letters only; JavaScript also lowers non-ASCII letters.
- RecipeIcons.RecipeIcon: `width` and `height` are integers here; TypeScript numbers may be fractional.
- The `type` props of both icon components are enumerations, as their TypeScript union types declare. So `ThemeIcon`'s initial `src = ''` is unreachable and is not modelled.
- ErrorBoundaries.ErrorBoundary.CatchError: only the `state` transition is modelled. React's own re-render scheduling is not.
- Recipes.Recipe: the slug is a plain string that is always present. A listed card whose document has no slug would throw on `recipe.slug.current` (app/page.tsx:180, app/recipes/page.tsx:70); that fault is not modelled, unlike the missing title.
- The presentation styling (button colours for the active value, CSS classes) is not modelled.
