/** The navigation sidebar's decisions: which menu entry is highlighted for
    the current route, what the language and theme buttons switch to, and
    which language name the button shows. The locale and the theme live in
    their stores; here they are the inputs. */
module Sidebar {
  import opened Types
  import opened LanguageStore

  datatype MenuItem = MenuItem(id: string, path: string)

  /** `menuItems`, without labels and icons, in display order. */
  const MenuItems: seq<MenuItem> := [
    MenuItem("dashboard", "/dashboard"),
    MenuItem("monitor", "/monitor"),
    MenuItem("alarms", "/alarms"),
    MenuItem("assets", "/assets"),
    MenuItem("analysis", "/analysis"),
    MenuItem("gateway", "/gateway"),
    MenuItem("settings", "/settings")
  ]

  /** An entry is highlighted on its own route, and the dashboard entry also
      on the site root. */
  predicate IsActive(item: MenuItem, pathname: string)
  {
    pathname == item.path || (item.path == "/dashboard" && pathname == "/")
  }

  /** The two characters after the slash tell the seven routes apart. */
  lemma MenuPathsDistinct()
    ensures forall i, j :: 0 <= i < j < |MenuItems| ==> MenuItems[i].path != MenuItems[j].path
  {
    var key := seq(|MenuItems|, k requires 0 <= k < |MenuItems| => [MenuItems[k].path[1], MenuItems[k].path[2]]);
    assert key == ["da", "mo", "al", "as", "an", "ga", "se"];
    forall i, j | 0 <= i < j < |MenuItems| ensures MenuItems[i].path != MenuItems[j].path {
      assert key[i] != key[j];
    }
  }

  /** At most one entry is highlighted, whatever the route. */
  lemma AtMostOneActive(pathname: string, i: nat, j: nat)
    requires i < |MenuItems| && j < |MenuItems|
    requires IsActive(MenuItems[i], pathname) && IsActive(MenuItems[j], pathname)
    ensures i == j
  {
    MenuPathsDistinct();
    if pathname == "/" {
      assert MenuItems[i].path == "/dashboard" && MenuItems[j].path == "/dashboard";
    }
  }

  /** On the site root the dashboard entry, and only it, is highlighted. */
  lemma RootHighlightsDashboard(i: nat)
    requires i < |MenuItems|
    ensures IsActive(MenuItems[i], "/") <==> i == 0
  {
    assert "/" != MenuItems[i].path by {
      assert |MenuItems[i].path| > 1;
    }
    if i != 0 {
      MenuPathsDistinct();
    }
  }

  /** The language button: zh goes to en, en to ms, and any other locale
      back to zh. */
  function NextLocale(l: Locale): (r: Locale)
    ensures l == Zh ==> r == En
    ensures l == En ==> r == Ms
    ensures l == Ms ==> r == Zh
    ensures r != l
  {
    if l == Zh then En else if l == En then Ms else Zh
  }

  /** The language button cycles zh, en, ms: three presses return to the
      start, fewer never do, and the way passes all three locales. */
  lemma LocaleCycle(l: Locale)
    ensures NextLocale(Zh) == En && NextLocale(En) == Ms && NextLocale(Ms) == Zh
    ensures NextLocale(NextLocale(NextLocale(l))) == l
    ensures NextLocale(NextLocale(l)) != l
    ensures {NextLocale(l), NextLocale(NextLocale(l)), l} == {Zh, En, Ms}
  {
  }

  /** The language button's caption. */
  function LocaleLabel(l: Locale): (r: string)
    ensures l == Zh ==> r == "中文"
    ensures l == En ==> r == "English"
    ensures l == Ms ==> r == "Bahasa Melayu"
  {
    if l == Zh then "中文" else if l == En then "English" else "Bahasa Melayu"
  }

  /** Different locales get different captions. */
  lemma LocaleLabelsDistinct(a: Locale, b: Locale)
    requires a != b
    ensures LocaleLabel(a) != LocaleLabel(b)
  {
    assert |LocaleLabel(Zh)| == 2 && |LocaleLabel(En)| == 7 && |LocaleLabel(Ms)| == 13;
  }

  /** The theme button: dark goes to light, and any other theme (light, the
      system default, or none yet) to dark. */
  function NextTheme(theme: Option<string>): (r: string)
    ensures theme == Some("dark") <==> r == "light"
    ensures r == "dark" || r == "light"
  {
    if theme == Some("dark") then "light" else "dark"
  }

  /** After the first press the theme alternates between dark and light. */
  lemma ThemeAlternates(theme: Option<string>)
    ensures var once := NextTheme(theme);
      NextTheme(Some(NextTheme(Some(once)))) == once && NextTheme(Some(once)) != once
  {
  }

  /** The theme button's caption names the theme it switches to. */
  function ThemeLabel(theme: Option<string>): (r: string)
    ensures r == "Light Mode" <==> NextTheme(theme) == "light"
  {
    if theme == Some("dark") then "Light Mode" else "Dark Mode"
  }
}
