/** `ThemeIcon`: the site logo and the theme switch picture. */
module ThemeIcons {
  import opened Wrappers
  import opened Themes

  /** The `type` prop. */
  datatype IconType = Logo | ThemeToggle

  /**
   * The `src` chosen for `t`: the logo is the restaurant picture, the switch
   * shows the sun in the dark theme (the way back to light) and the moon
   * otherwise.
   */
  function Source(t: IconType, dark: bool): (src: string)
    ensures t.Logo? ==> src == "/icons/restaurant" + (if dark then "2" else "") + ".png"
    ensures t.ThemeToggle? ==> src == "/icons/" + (if dark then "sun" else "moon") + ".png"
  {
    match t
    case Logo => if dark then "/icons/restaurant2.png" else "/icons/restaurant.png"
    case ThemeToggle => if dark then "/icons/sun.png" else "/icons/moon.png"
  }

  /** The theme always changes the picture, and the two icons never share one. */
  lemma SourcesDistinct(t: IconType, dark: bool, t': IconType, dark': bool)
    requires Source(t, dark) == Source(t', dark')
    ensures t == t' && dark == dark'
  {
    var s, s' := Source(t, dark), Source(t', dark');
    assert s[7] == s'[7];
    assert |s| == |s'|;
  }

  /** The component's props; every prop but `type` may be omitted. */
  datatype Props = Props(
    iconType: IconType,
    width: Option<int>,
    height: Option<int>,
    className: Option<string>,
    alt: Option<string>)

  /** What one render returns: a sized placeholder box, or the picture. */
  datatype Rendered =
    | Placeholder(width: int, height: int)
    | Img(src: string, alt: string, width: int, height: int, className: string)

  /**
   * One render of `ThemeIcon`. Before mount it reserves a box of exactly the
   * picture's size, so the layout does not shift when the picture appears.
   * Defaults: width 40, height 40, className "" and alt "Icon".
   */
  function ThemeIcon(props: Props, resolvedTheme: Option<string>, mounted: bool): (r: Rendered)
    ensures r.Placeholder? <==> !mounted
    ensures r.width == props.width.GetOr(40) && r.height == props.height.GetOr(40)
    ensures props.width == None ==> r.width == 40
    ensures props.height == None ==> r.height == 40
    ensures r.Img? ==> r.src == Source(props.iconType, resolvedTheme == Some("dark"))
    ensures r.Img? ==> r.alt == props.alt.GetOr("Icon") && r.className == props.className.GetOr("")
  {
    var width, height := props.width.GetOr(40), props.height.GetOr(40);
    if !mounted then Placeholder(width, height)
    else
      Img(Source(props.iconType, IsDark(resolvedTheme)), props.alt.GetOr("Icon"), width, height, props.className.GetOr(""))
  }
}
