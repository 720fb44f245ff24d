/**
 * The stylesheet the plugin emits. Only the four substituted values are
 * modelled as text; the static CSS between them is a fixed sequence of named
 * blocks, each described by the rule it leaves open at its end and, when a
 * custom-property declaration is left open, the name of that property.
 */
module CssHandler {
  import opened Options
  import Settings

  /** The five stretches of static CSS around the four insertion points. */
  datatype StaticText =
    | RootAndDarkVariables  // the :root variables, then the dark variables up to `--dlt-link-color: `
    | ButtonBgProperty      // `;` then `--dlt-button-bg: `
    | DarkRulesAndToggle    // the rest of the dark variables, all dark overrides, `.dlt-toggle { position: fixed;`
    | ToggleRestAndText     // the rest of `.dlt-toggle`, the hover and icon rules, `.dlt-toggle-text {` up to its margin
    | TextRestAndTail       // `}` of `.dlt-toggle-text`, the icon-visibility rules and the media query

  datatype Fragment = Static(text: StaticText) | Inserted(value: string)

  const DarkSelector := "[data-theme='dark']"
  const ToggleSelector := ".dlt-toggle"
  const ToggleTextSelector := ".dlt-toggle-text"

  /** The selector of the rule that is still open where the static text ends. */
  function OpenRule(t: StaticText): string
  {
    match t
    case RootAndDarkVariables => DarkSelector
    case ButtonBgProperty => DarkSelector
    case DarkRulesAndToggle => ToggleSelector
    case ToggleRestAndText => ToggleTextSelector
    case TextRestAndTail => ""
  }

  /** The custom property whose value follows the static text, or "" when a declaration list follows. */
  function OpenProperty(t: StaticText): string
  {
    match t
    case RootAndDarkVariables => "--dlt-link-color"
    case ButtonBgProperty => "--dlt-button-bg"
    case DarkRulesAndToggle => ""
    case ToggleRestAndText => ""
    case TextRestAndTail => ""
  }

  /**
   * The text inserted right after the first static text that leaves rule
   * `selector` open on property `property` ("" for a plain declaration list).
   */
  function InsertedAt(css: seq<Fragment>, selector: string, property: string): Option<string>
  {
    if |css| < 2 then None
    else if css[0].Static? && OpenRule(css[0].text) == selector && OpenProperty(css[0].text) == property && css[1].Inserted?
    then Some(css[1].value)
    else InsertedAt(css[1..], selector, property)
  }

  /** The inserted texts, in order. */
  function Insertions(css: seq<Fragment>): seq<string>
  {
    if |css| == 0 then []
    else (if css[0].Inserted? then [css[0].value] else []) + Insertions(css[1..])
  }

  lemma InsertionsCons(f: Fragment, rest: seq<Fragment>)
    ensures Insertions([f] + rest) == (if f.Inserted? then [f.value] else []) + Insertions(rest)
  {
    assert ([f] + rest)[1..] == rest;
  }

  lemma InsertedAtCons(f: Fragment, rest: seq<Fragment>, selector: string, property: string)
    ensures InsertedAt([f] + rest, selector, property)
         == if |rest| > 0 && f.Static? && OpenRule(f.text) == selector && OpenProperty(f.text) == property && rest[0].Inserted?
            then Some(rest[0].value) else InsertedAt(rest, selector, property)
  {
    assert ([f] + rest)[1..] == rest;
  }

  /** The declaration table the toggle's position comes from. */
  const PositionRules: map<string, string> := map[
    "top-left" := "top: 20px; left: 20px;",
    "top-right" := "top: 20px; right: 20px;",
    "bottom-left" := "bottom: 20px; left: 20px;",
    "bottom-right" := "bottom: 20px; right: 20px;"
  ]

  /** `get_position_styles`: the table entry, or the `top-right` entry for any other value. */
  function PositionStyles(position: string): (r: string)
    ensures position in PositionRules ==> r == PositionRules[position]
    ensures position !in PositionRules ==> r == "top: 20px; right: 20px;"
    ensures r in PositionRules.Values
  {
    if position in PositionRules then PositionRules[position] else PositionRules["top-right"]
  }

  /** The table has exactly the positions the settings validator accepts, each with its own rule. */
  lemma PositionRulesMatchValidator(a: string, b: string)
    ensures PositionRules.Keys == Settings.Positions
    ensures a in PositionRules && b in PositionRules && a != b ==> PositionRules[a] != PositionRules[b]
  {
  }

  /** Validating a position first does not change the styles it selects. */
  lemma PositionStylesOfValidated(position: string)
    ensures PositionStyles(Settings.ValidatePosition(position)) == PositionStyles(position)
  {
  }

  /** `$text_display`: the toggle's label is hidden exactly when `show_text` is `no`. */
  function TextDisplay(showText: string): (r: string)
    ensures r == "display: none;" <==> showText == "no"
    ensures r == "" <==> showText != "no"
  {
    if showText == "no" then "display: none;" else ""
  }

  /** `generate_css`: the static CSS with the four values put in place. */
  function GenerateCss(positionStyles: string, textDisplay: string, linkColor: string, buttonBg: string): (css: seq<Fragment>)
    ensures |css| == 9
    ensures Insertions(css) == [linkColor, buttonBg, positionStyles, textDisplay]
  {
    var tail := [Static(TextRestAndTail)];
    var c7 := [Inserted(textDisplay)] + tail;
    var c6 := [Static(ToggleRestAndText)] + c7;
    var c5 := [Inserted(positionStyles)] + c6;
    var c4 := [Static(DarkRulesAndToggle)] + c5;
    var c3 := [Inserted(buttonBg)] + c4;
    var c2 := [Static(ButtonBgProperty)] + c3;
    var c1 := [Inserted(linkColor)] + c2;
    var css := [Static(RootAndDarkVariables)] + c1;
    InsertionsCons(Static(TextRestAndTail), []);
    InsertionsCons(Inserted(textDisplay), tail);
    InsertionsCons(Static(ToggleRestAndText), c7);
    InsertionsCons(Inserted(positionStyles), c6);
    InsertionsCons(Static(DarkRulesAndToggle), c5);
    InsertionsCons(Inserted(buttonBg), c4);
    InsertionsCons(Static(ButtonBgProperty), c3);
    InsertionsCons(Inserted(linkColor), c2);
    InsertionsCons(Static(RootAndDarkVariables), c1);
    css
  }

  lemma InsertedAtSteps(css: seq<Fragment>, selector: string, property: string)
    ensures forall k {:trigger css[k..]} :: 0 <= k < |css| - 1 ==>
      InsertedAt(css[k..], selector, property)
        == if css[k].Static? && OpenRule(css[k].text) == selector && OpenProperty(css[k].text) == property && css[k + 1].Inserted?
           then Some(css[k + 1].value) else InsertedAt(css[k + 1..], selector, property)
  {
    forall k | 0 <= k < |css| - 1
      ensures InsertedAt(css[k..], selector, property)
        == if css[k].Static? && OpenRule(css[k].text) == selector && OpenProperty(css[k].text) == property && css[k + 1].Inserted?
           then Some(css[k + 1].value) else InsertedAt(css[k + 1..], selector, property)
    {
      assert css[k..] == [css[k]] + css[k + 1..];
      InsertedAtCons(css[k], css[k + 1..], selector, property);
    }
  }

  /** Each value lands in its own place: the two colours as dark custom properties, the two declaration lists in their rules. */
  lemma GenerateCssPlacement(positionStyles: string, textDisplay: string, linkColor: string, buttonBg: string)
    ensures InsertedAt(GenerateCss(positionStyles, textDisplay, linkColor, buttonBg), DarkSelector, "--dlt-link-color") == Some(linkColor)
    ensures InsertedAt(GenerateCss(positionStyles, textDisplay, linkColor, buttonBg), DarkSelector, "--dlt-button-bg") == Some(buttonBg)
    ensures InsertedAt(GenerateCss(positionStyles, textDisplay, linkColor, buttonBg), ToggleSelector, "") == Some(positionStyles)
    ensures InsertedAt(GenerateCss(positionStyles, textDisplay, linkColor, buttonBg), ToggleTextSelector, "") == Some(textDisplay)
  {
    var css := GenerateCss(positionStyles, textDisplay, linkColor, buttonBg);
    InsertedAtSteps(css, DarkSelector, "--dlt-link-color");
    InsertedAtSteps(css, DarkSelector, "--dlt-button-bg");
    InsertedAtSteps(css, ToggleSelector, "");
    InsertedAtSteps(css, ToggleTextSelector, "");
    assert css[0..] == css;
  }

  /**
   * A setting as `get_option` reads it. PHP turns a null into the empty
   * string where it is concatenated; every name used here has a default, so
   * that case does not arise.
   */
  function Setting(options: map<string, string>, name: string): string
  {
    match Settings.StoredOrDefault(options, name, None)
    case Some(v) => v
    case None => ""
  }

  /** `get_css`: reads the four settings and fills the template. */
  function GetCss(options: map<string, string>): (css: seq<Fragment>)
    ensures Insertions(css) == [
      Setting(options, "dark_link_color"),
      Setting(options, "dark_button_bg_color"),
      PositionStyles(Setting(options, "position")),
      TextDisplay(Setting(options, "show_text"))]
  {
    GenerateCss(
      PositionStyles(Setting(options, "position")),
      TextDisplay(Setting(options, "show_text")),
      Setting(options, "dark_link_color"),
      Setting(options, "dark_button_bg_color"))
  }

  /** A stored position outside the table yields the same CSS as a stored `top-right`. */
  lemma GetCssInvalidPosition(options: map<string, string>, position: string)
    requires position !in PositionRules
    ensures GetCss(options[Settings.OptionName("position") := position])
         == GetCss(options[Settings.OptionName("position") := "top-right"])
  {
    Settings.DefaultsNames();
    var a := options[Settings.OptionName("position") := position];
    var b := options[Settings.OptionName("position") := "top-right"];
    forall name | name != "position" ensures Settings.StoredOrDefault(a, name, None) == Settings.StoredOrDefault(b, name, None) {
      Settings.UpdateThenGet(options, "position", position, name, None);
      Settings.UpdateThenGet(options, "position", "top-right", name, None);
    }
  }

  /** The CSS depends on the store only through the four settings it reads. */
  lemma GetCssDependsOnSettings(a: map<string, string>, b: map<string, string>)
    requires Setting(a, "position") == Setting(b, "position")
    requires Setting(a, "show_text") == Setting(b, "show_text")
    requires Setting(a, "dark_link_color") == Setting(b, "dark_link_color")
    requires Setting(a, "dark_button_bg_color") == Setting(b, "dark_button_bg_color")
    ensures GetCss(a) == GetCss(b)
  {
  }

  /** With nothing stored, the CSS uses the defaults: top-right, label shown, both colours `#4a9eff`. */
  lemma GetCssDefaults()
    ensures Insertions(GetCss(map[])) == ["#4a9eff", "#4a9eff", "top: 20px; right: 20px;", ""]
  {
    var empty: map<string, string> := map[];
    assert Setting(empty, "position") == "top-right" by {
      Settings.DefaultForFirst(Settings.Defaults, 0);
    }
    assert Setting(empty, "show_text") == "yes" by {
      Settings.DefaultForFirst(Settings.Defaults, 1);
    }
    assert Setting(empty, "dark_link_color") == "#4a9eff" by {
      Settings.DefaultForFirst(Settings.Defaults, 3);
    }
    assert Setting(empty, "dark_button_bg_color") == "#4a9eff" by {
      Settings.DefaultForFirst(Settings.Defaults, 4);
    }
  }

}
