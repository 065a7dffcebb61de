/** The resolved colour scheme reported by the theme provider. */
module Themes {
  import opened Wrappers

  /**
   * `resolvedTheme === 'dark'`. The provider may report any scheme name or
   * none at all before it has resolved one; only the exact name "dark" counts.
   */
  function IsDark(resolvedTheme: Option<string>): (b: bool)
    ensures resolvedTheme == None ==> !b
    ensures b ==> resolvedTheme.Some? && resolvedTheme.value == "dark"
  {
    resolvedTheme == Some("dark")
  }
}
