/** `RecipeIcon`: the small dietary badge shown on a recipe card. */
module RecipeIcons {
  import opened Wrappers
  import opened Themes

  /** The `type` prop: one of the three dietary badges. */
  datatype IconType = Vegan | Vegetarian | Spicy

  /** The badge's name as the component spells it, which is also its default alt text. */
  function TypeName(t: IconType): (name: string) {
    match t
    case Vegan => "vegan"
    case Vegetarian => "vegetarian"
    case Spicy => "spicy"
  }

  /**
   * The `iconMap` entry for `t`: every badge lives under /icons/ and is named
   * after its type, the dark variant carrying a "2" before the extension.
   */
  function IconPath(t: IconType, dark: bool): (path: string)
    ensures path == "/icons/" + TypeName(t) + (if dark then "2" else "") + ".png"
  {
    match t
    case Vegan => if dark then "/icons/vegan2.png" else "/icons/vegan.png"
    case Vegetarian => if dark then "/icons/vegetarian2.png" else "/icons/vegetarian.png"
    case Spicy => if dark then "/icons/spicy2.png" else "/icons/spicy.png"
  }

  /** Every badge and theme has its own picture: the table is one-to-one. */
  lemma IconPathInjective(t: IconType, dark: bool, t': IconType, dark': bool)
    requires IconPath(t, dark) == IconPath(t', dark')
    ensures t == t' && dark == dark'
  {
    var p, p' := IconPath(t, dark), IconPath(t', dark');
    assert p[7] == p'[7];
    if t.Vegetarian? || t'.Vegetarian? {
      assert p[9] == p'[9];
    }
    assert |p| == |p'|;
  }

  /** The component's props; `width`, `height` and `alt` may be omitted. */
  datatype Props = Props(iconType: IconType, width: Option<int>, height: Option<int>, alt: Option<string>)

  /** The `Image` element the component returns. */
  datatype Image = Image(src: string, alt: string, width: int, height: int)

  /**
   * One render of `RecipeIcon`: nothing before the component has mounted,
   * then the badge for the current theme. `width` and `height` default to 20
   * when omitted; an omitted or empty `alt` falls back to the type name.
   */
  function RecipeIcon(props: Props, resolvedTheme: Option<string>, mounted: bool): (r: Option<Image>)
    ensures r.Some? <==> mounted
    ensures r.Some? ==> r.value.src == IconPath(props.iconType, resolvedTheme == Some("dark"))
    ensures r.Some? ==> r.value.alt != ""
    ensures r.Some? && props.alt.Some? && props.alt.value != "" ==> r.value.alt == props.alt.value
    ensures r.Some? && (props.alt == None || props.alt == Some("")) ==> r.value.alt == TypeName(props.iconType)
    ensures r.Some? && props.width == None ==> r.value.width == 20
    ensures r.Some? && props.height == None ==> r.value.height == 20
    ensures r.Some? && props.width.Some? ==> r.value.width == props.width.value
    ensures r.Some? && props.height.Some? ==> r.value.height == props.height.value
  {
    if !mounted then None
    else
      var dark := IsDark(resolvedTheme);
      var alt := if props.alt.Some? && props.alt.value != "" then props.alt.value else TypeName(props.iconType);
      Some(Image(IconPath(props.iconType, dark), alt, props.width.GetOr(20), props.height.GetOr(20)))
  }
}
