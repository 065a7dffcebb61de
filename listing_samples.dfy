/**
 * The home page listing on three sample cards: a vegetarian easy chocolate
 * cake, medium spicy tacos and a hard vegan (and vegetarian) burger.
 */
module ListingSamples {
  import opened Wrappers
  import opened Text
  import opened Seqs
  import opened Recipes
  import opened Listing

  const Cake: Recipe := Recipe("1", Some("Chocolate Cake"), "chocolate-cake", Some("Dessert"),
    Some(false), Some(true), Some(false), Some("easy"))
  const Tacos: Recipe := Recipe("2", Some("Spicy Tacos"), "spicy-tacos", Some("Main Course"),
    Some(false), Some(false), Some(true), Some("medium"))
  const Burger: Recipe := Recipe("3", Some("Vegan Burger"), "vegan-burger", Some("Main Course"),
    Some(true), Some(true), Some(false), Some("hard"))

  lemma CakeTitleLowered() ensures ToLower("Chocolate Cake") == "chocolate cake" { }
  lemma TacosTitleLowered() ensures ToLower("Spicy Tacos") == "spicy tacos" { }
  lemma BurgerTitleLowered() ensures ToLower("Vegan Burger") == "vegan burger" { }
  lemma VeganTermLowered() ensures ToLower("vegan") == "vegan" && ToLower("VEGAN") == "vegan" { }
  lemma CakeTermLowered() ensures ToLower("Cake") == "cake" { }

  lemma CakeLacksVegan() ensures !Includes("chocolate cake", "vegan")
  {
    MissingCharExcludes("chocolate cake", "vegan", 0);
  }

  lemma TacosLackVegan() ensures !Includes("spicy tacos", "vegan")
  {
    MissingCharExcludes("spicy tacos", "vegan", 0);
  }

  lemma BurgerHasVegan() ensures Includes("vegan burger", "vegan") { }

  lemma CakeHasCake() ensures Includes("chocolate cake", "cake")
  {
    assert OccursAt("chocolate cake", "cake", 10);
    IncludesIffOccurs("chocolate cake", "cake");
  }

  lemma TacosLackCake() ensures !Includes("spicy tacos", "cake")
  {
    MissingCharExcludes("spicy tacos", "cake", 2);
  }

  lemma BurgerLacksCake() ensures !Includes("vegan burger", "cake")
  {
    MissingCharExcludes("vegan burger", "cake", 2);
  }

  /** Which sample cards "vegan" finds, whatever its case. */
  lemma SampleSearchesVegan()
    ensures !MatchesSearch(Cake, "vegan") && !MatchesSearch(Tacos, "vegan") && MatchesSearch(Burger, "vegan")
    ensures !MatchesSearch(Cake, "VEGAN") && !MatchesSearch(Tacos, "VEGAN") && MatchesSearch(Burger, "VEGAN")
  {
    CakeTitleLowered();
    TacosTitleLowered();
    BurgerTitleLowered();
    VeganTermLowered();
    CakeLacksVegan();
    TacosLackVegan();
    BurgerHasVegan();
  }

  /** Which sample cards "Cake" finds. */
  lemma SampleSearchesCake()
    ensures MatchesSearch(Cake, "Cake") && !MatchesSearch(Tacos, "Cake") && !MatchesSearch(Burger, "Cake")
  {
    CakeTitleLowered();
    TacosTitleLowered();
    BurgerTitleLowered();
    CakeTermLowered();
    CakeHasCake();
    TacosLackCake();
    BurgerLacksCake();
  }

  lemma FilterOfOne<T(!new)>(p: T -> bool, c: T)
    ensures Filter(p, [c]) == if p(c) then [c] else []
  {
    var s := [c];
    FilterCons(p, s);
    assert s[1..] == [];
  }

  lemma FilterOfTwo<T(!new)>(p: T -> bool, b: T, c: T)
    ensures Filter(p, [b, c]) == (if p(b) then [b] else []) + Filter(p, [c])
  {
    var s := [b, c];
    FilterCons(p, s);
    assert s[1..] == [c];
  }

  /** Filtering three elements decides each on its own, keeping their order. */
  lemma FilterOfThree<T(!new)>(p: T -> bool, a: T, b: T, c: T)
    ensures Filter(p, [a, b, c]) ==
      (if p(a) then [a] else []) + (if p(b) then [b] else []) + (if p(c) then [c] else [])
  {
    var s := [a, b, c];
    FilterCons(p, s);
    assert s[1..] == [b, c];
    FilterOfTwo(p, b, c);
    FilterOfOne(p, c);
  }

  /** The three sample cards in their fetched order, and how a selection splits them. */
  const Samples: seq<Recipe> := [Cake, Tacos, Burger]

  lemma SampleFilter(sel: Selection)
    ensures Listed(Samples, sel) == Some(FilterRecipes(Samples, sel))
    ensures FilterRecipes(Samples, sel) ==
      (if Matches(Cake, sel) then [Cake] else []) +
      (if Matches(Tacos, sel) then [Tacos] else []) +
      (if Matches(Burger, sel) then [Burger] else [])
  {
    assert AllTitled(Samples);
    FilterOfThree(x => Matches(x, sel), Cake, Tacos, Burger);
  }

  /** With no button active, "vegan" and "VEGAN" select only the burger. */
  lemma SampleMatchesVegan()
    ensures !Matches(Cake, Selection("vegan", "", "")) && !Matches(Tacos, Selection("vegan", "", ""))
    ensures Matches(Burger, Selection("vegan", "", ""))
    ensures !Matches(Cake, Selection("VEGAN", "", "")) && !Matches(Tacos, Selection("VEGAN", "", ""))
    ensures Matches(Burger, Selection("VEGAN", "", ""))
  {
    SampleSearchesVegan();
  }

  /** "vegan" finds only the burger. */
  lemma SampleSearchVegan()
    ensures Listed(Samples, Selection("vegan", "", "")) == Some([Burger])
  {
    var sel := Selection("vegan", "", "");
    SampleMatchesVegan();
    SampleFilter(sel);
    assert FilterRecipes(Samples, sel) == [Burger];
  }

  /** So does "VEGAN": the search ignores case. */
  lemma SampleSearchVeganUpper()
    ensures Listed(Samples, Selection("VEGAN", "", "")) == Some([Burger])
  {
    var sel := Selection("VEGAN", "", "");
    SampleMatchesVegan();
    SampleFilter(sel);
    assert FilterRecipes(Samples, sel) == [Burger];
  }

  /** The vegetarian button keeps the cake and the burger, in that order. */
  lemma SampleVegetarian()
    ensures Listed(Samples, Selection("", "Vegetarian", "")) == Some([Cake, Burger])
  {
    var sel := Selection("", "Vegetarian", "");
    assert MatchesSearch(Cake, "") && MatchesSearch(Tacos, "") && MatchesSearch(Burger, "");
    assert Matches(Cake, sel) && !Matches(Tacos, sel) && Matches(Burger, sel);
    SampleFilter(sel);
    assert FilterRecipes(Samples, sel) == [Cake] + [] + [Burger];
    assert FilterRecipes(Samples, sel) == [Cake, Burger];
  }

  /** "Cake" with the easy level keeps only the cake. */
  lemma SampleCakeEasy()
    ensures Listed(Samples, Selection("Cake", "", "Easy")) == Some([Cake])
  {
    SampleSearchesCake();
    assert MatchesDifficulty(Cake, "Easy") && !MatchesDifficulty(Tacos, "Easy");
    SampleFilter(Selection("Cake", "", "Easy"));
  }
}
