# Dark/light mode toggle: a Dafny model

This project models the logic of a WordPress plugin that adds a dark/light
theme toggle to a site's front end. The model has three parts:

- **`ThemeScript`** (`theme_script.dfy`) is the script the plugin puts into every
  page: the `DLT` object and the public `window.DarkLightToggle` API. The class
  `Dlt` holds the page state the script changes:
  - the `data-theme` attribute of the document element (`Option<string>`);
  - the origin's local storage (`map<string, string>`, of which only `dlt-theme`
    is used);
  - the `dltThemeChanged` events it has dispatched (the sequence of their
    `detail.theme` values);
  - whether the `prefers-color-scheme` change listener is installed.

  The `enable_auto_detect` setting is the constant `autoDetect`. Only the exact
  string `yes` picks the auto-detecting variant of the generated code. Several
  things are operation parameters: whether a storage read or write throws
  (`readOk`, `writeOk`), whether `window.matchMedia` exists and what it
  reports. Pure functions (`DefaultTheme`, `ChooseTheme`, `InitialTheme`,
  `Toggled`, `SavedTheme`, `StorageAfterSave`) specify the methods, and lemmas
  state the precedence rules.
- **`Settings`** (`settings.dfy`) holds the three validators and the option store
  of `DLT_Settings_Manager`. The WordPress options table is a
  `map<string, string>` keyed by the full option name (`dlt_` + short name).
  The class `SettingsManager` reads and writes it through `get_option`,
  `update_option`, `delete_option`, `get_all_options` and `set_defaults`.
- **`CssHandler`** (`css_handler.dfy`) is the stylesheet generator. Its output is
  a sequence of fragments:
  - the static CSS is five named, opaque blocks;
  - the four inserted values are the strings themselves;
  - each block records the rule, and the custom property if any, still open
    where it ends.

  That is enough to state where each setting lands.

Four behaviours of the code are kept as written:
- A saved theme is not checked to be `light` or `dark`. Any non-empty stored string is applied as the theme.
- `toggleTheme` treats every value other than `dark` (absent, empty, unrecognised) as light, so it switches to `dark`.
- The public `setTheme` accepts any string.
- `validate_color` can return `#` + six hex digits + `"\n"`. PCRE's `$` also matches before a final newline (`ValidateColorKeepsTrailingNewline`), so colours are not always seven characters.

## Model

| member | source | states |
|---|---|---|
| ThemeScript.DefaultTheme | includes/class-dlt-javascript-handler.php:76-81 | the default is `dark` iff the flag is exactly `yes`, `matchMedia` exists and it reports dark; otherwise `light` |
| ThemeScript.ChooseTheme | includes/class-dlt-javascript-handler.php:63 | `savedTheme \|\| defaultTheme`: any non-empty saved string wins unvalidated; null or "" falls back to the default |
| ThemeScript.InitialTheme | includes/class-dlt-javascript-handler.php:60-66 | the loaded theme is the stored `dlt-theme` value when the read works and the value is non-empty, otherwise the default theme |
| ThemeScript.SavedTheme | includes/class-dlt-javascript-handler.php:68-74 | `getSavedTheme` is null when the read throws or nothing is stored, else the stored string |
| ThemeScript.StorageAfterSave | includes/class-dlt-javascript-handler.php:52-58 | a successful save makes the slot read back as the theme; a failed one changes nothing; no other key is touched |
| ThemeScript.Toggled | includes/class-dlt-javascript-handler.php:39-41 | the new theme is `light` iff the attribute is `dark`, and `dark` for every other value including absent |
| ThemeScript.ToggleTwice | includes/class-dlt-javascript-handler.php:39-41 | toggling twice returns `light`/`dark` to itself and turns any other value into `light` |
| ThemeScript.SavedChoiceWins | includes/class-dlt-javascript-handler.php:60-66 | a non-empty saved theme beats the auto-detect flag and the system preference |
| ThemeScript.UnsavedFollowsDefault | includes/class-dlt-javascript-handler.php:60-81 | with no saved theme that is set (absent, unreadable or `""`), the loaded theme is the default: the system preference only when auto-detect is `yes`, else `light` |
| ThemeScript.SaveThenReload | includes/class-dlt-javascript-handler.php:52-74 | a successful save of a non-empty theme is read back and applied on the next load |
| ThemeScript.Dlt.Init | includes/class-dlt-javascript-handler.php:33-37 | init applies the initial theme and installs the listener only when auto-detect is `yes` and `matchMedia` exists |
| ThemeScript.Dlt.ToggleTheme | includes/class-dlt-javascript-handler.php:39-46 | a toggle sets the attribute to the toggled theme, saves that same value (or nothing on failure) and appends exactly one event with it |
| ThemeScript.Dlt.SetTheme | includes/class-dlt-javascript-handler.php:48-50 | the internal setter writes the attribute and nothing else |
| ThemeScript.Dlt.SaveTheme | includes/class-dlt-javascript-handler.php:52-58 | a failing write is swallowed and leaves storage unchanged |
| ThemeScript.Dlt.LoadTheme | includes/class-dlt-javascript-handler.php:60-66 | the attribute becomes `InitialTheme` of the current storage and environment |
| ThemeScript.Dlt.GetSavedTheme | includes/class-dlt-javascript-handler.php:68-74 | returns the stored string, or null on a failed read or an empty slot |
| ThemeScript.Dlt.GetDefaultTheme | includes/class-dlt-javascript-handler.php:76-81 | the generated variant's default: `dark` iff auto-detect is `yes` and the system prefers dark |
| ThemeScript.Dlt.WatchSystemPreference | includes/class-dlt-javascript-handler.php:98-102 | the listener is installed only when `matchMedia` exists |
| ThemeScript.Dlt.OnSystemPreferenceChange | includes/class-dlt-javascript-handler.php:102-108 | with the listener installed and no saved theme, the attribute follows the reported preference and one event is appended; otherwise nothing changes; storage is never written |
| ThemeScript.Dlt.DispatchThemeEvent | includes/class-dlt-javascript-handler.php:111-117 | appends exactly one event carrying the theme |
| ThemeScript.DarkLightToggle.Toggle | includes/class-dlt-javascript-handler.php:125 | the API toggle has the same effect as a click |
| ThemeScript.DarkLightToggle.SetTheme | includes/class-dlt-javascript-handler.php:126-130 | sets the attribute to any given string, saves it unless the write fails, and appends one event with it |
| ThemeScript.DarkLightToggle.GetTheme | includes/class-dlt-javascript-handler.php:131 | returns the attribute as it is now |
| ThemeScript.SetThemeIdempotent | includes/class-dlt-javascript-handler.php:48-50 | applying a theme twice leaves the same state as applying it once |
| ThemeScript.ToggleFromLight | includes/class-dlt-javascript-handler.php:39-46 | from light, two toggles give dark then light, with one event each |
| ThemeScript.SetThenReload | includes/class-dlt-javascript-handler.php:126-131 | after `setTheme('dark')`, `getTheme()` is dark and a reload applies dark |
| Settings.ValidatePosition | includes/class-dlt-settings-manager.php:64-67 | the result is one of the four corners; it equals the input iff the input is one; otherwise `top-right` |
| Settings.ValidateYesNo | includes/class-dlt-settings-manager.php:69-71 | the result is `yes` or `no`; it equals the input iff the input is one of them; otherwise `yes` |
| Settings.TrimLeadingHashes | includes/class-dlt-settings-manager.php:75 | `ltrim($v, '#')` removes a prefix made only of `#` and leaves a string that does not start with `#` |
| Settings.ValidateColor | includes/class-dlt-settings-manager.php:73-84 | `#` + the trimmed input when the pattern accepts it, else `#4a9eff`; the output is 7 characters, or 8 ending in a newline |
| Settings.ValidatePositionIdempotent | includes/class-dlt-settings-manager.php:64-67 | validating a position twice equals validating it once |
| Settings.ValidateYesNoIdempotent | includes/class-dlt-settings-manager.php:69-71 | validating a yes/no value twice equals validating it once |
| Settings.TrimOneHash | includes/class-dlt-settings-manager.php:75 | a single `#` before a hex digit is exactly what `ltrim` removes |
| Settings.ValidateColorIdempotent | includes/class-dlt-settings-manager.php:73-84 | every validated colour is accepted unchanged |
| Settings.ValidateColorAddsHash | includes/class-dlt-settings-manager.php:73-80 | `1a2b3c` becomes `#1a2b3c` |
| Settings.ValidateColorStripsHashes | includes/class-dlt-settings-manager.php:75-79 | `##1a2b3c` becomes `#1a2b3c` |
| Settings.ValidateColorRejectsName | includes/class-dlt-settings-manager.php:82-83 | `red` becomes `#4a9eff` |
| Settings.ValidateColorKeepsTrailingNewline | includes/class-dlt-settings-manager.php:78-79 | six hex digits and a final newline pass the pattern, so the 8-character output keeps the newline |
| Settings.OptionName | includes/class-dlt-settings-manager.php:60-62 | the stored name is `dlt_` followed by the short name |
| Settings.OptionNameInjective | includes/class-dlt-settings-manager.php:60-62 | two short names share a stored name iff they are equal |
| Settings.DefaultFor | includes/class-dlt-settings-manager.php:19-26 | a name has a default iff it is in the table, and the default is that entry's value |
| Settings.DefaultForFirst | includes/class-dlt-settings-manager.php:29-30 | `$defaults[$name]` is the value of the entry with that name, the names being distinct |
| Settings.DefaultsNames | includes/class-dlt-settings-manager.php:19-26 | the table's names are exactly the six settings |
| Settings.StoredOrDefault | includes/class-dlt-settings-manager.php:28-34 | `get_option` returns the stored value, else the explicit default, else the table default, else null |
| Settings.SettingsManager.GetOption | includes/class-dlt-settings-manager.php:28-34 | returns `StoredOrDefault` of the current table, and null for an unknown, unstored name without a default |
| Settings.SettingsManager.UpdateOption | includes/class-dlt-settings-manager.php:36-38 | stores the value under the prefixed name; `get_option` then returns it; other names read as before |
| Settings.SettingsManager.DeleteOption | includes/class-dlt-settings-manager.php:40-42 | removes the prefixed name; `get_option` then returns the default; other names read as before |
| Settings.SettingsManager.GetAllOptions | includes/class-dlt-settings-manager.php:44-52 | returns exactly the six names, each with its `get_option` value |
| Settings.SettingsManager.SetDefaults | includes/class-dlt-settings-manager.php:54-58 | all six prefixed names become present; stored values are kept; nothing else is added |
| Settings.AddAllKeepsExisting | includes/class-dlt-settings-manager.php:54-58 | adding defaults never overwrites a stored value |
| Settings.AddAllAddsEveryName | includes/class-dlt-settings-manager.php:54-58 | every table entry's prefixed name is present afterwards |
| Settings.AddAllAddsNothingElse | includes/class-dlt-settings-manager.php:54-58 | every newly present name is the prefixed name of a table entry |
| Settings.AddAllFirstWins | includes/class-dlt-settings-manager.php:54-58 | a name that was absent gets its table default |
| Settings.SetDefaultsThenGet | includes/class-dlt-settings-manager.php:54-58 | `set_defaults` does not change what `get_option` returns for a defaulted name |
| Settings.UpdateThenGet | includes/class-dlt-settings-manager.php:36-38 | update then get returns the new value; other names are unchanged |
| Settings.DeleteThenGet | includes/class-dlt-settings-manager.php:40-42 | delete then get returns the table default; other names are unchanged |
| CssHandler.PositionStyles | includes/class-dlt-css-handler.php:35-44 | a table position gets its own entry; any other value gets `top: 20px; right: 20px;` |
| CssHandler.PositionRulesMatchValidator | includes/class-dlt-css-handler.php:36-41 | the table's keys are the validator's four positions, each with a different rule |
| CssHandler.PositionStylesOfValidated | includes/class-dlt-css-handler.php:43 | validating a position first selects the same styles |
| CssHandler.TextDisplay | includes/class-dlt-css-handler.php:30 | `display: none;` exactly when `show_text` is `no`, the empty string otherwise |
| CssHandler.GenerateCss | includes/class-dlt-css-handler.php:46-315 | the four values are inserted once each, in the order link colour, button background, position, text display |
| CssHandler.GenerateCssPlacement | includes/class-dlt-css-handler.php:61-272 | the link colour is the value of `--dlt-link-color` and the button colour of `--dlt-button-bg` in the dark rule; the position styles sit in `.dlt-toggle` and the text display in `.dlt-toggle-text` |
| CssHandler.GetCss | includes/class-dlt-css-handler.php:23-33 | the CSS is built from the four settings `get_option` reads |
| CssHandler.GetCssInvalidPosition | includes/class-dlt-css-handler.php:23-44 | a stored position outside the table gives the same CSS as a stored `top-right` |
| CssHandler.GetCssDependsOnSettings | includes/class-dlt-css-handler.php:23-33 | two stores that agree on the four settings give the same CSS |
| CssHandler.GetCssDefaults | includes/class-dlt-css-handler.php:23-33 | with nothing stored, the CSS uses top-right, a visible label and `#4a9eff` for both colours |

## Left out

- Logo swapping: `includes/class-dlt-frontend-ui.php` is not part of this model. No logo discovery or swapping exists in the files modelled; only the `dark_mode_logo` default does.
- `includes/class-dlt-admin-ui.php` renders the admin page and registers settings and menus. Its `sanitize_*` methods only call the validators modelled here.
- `pluglio-dark-mode-toggle.php` registers hooks and enqueues the inline CSS and script; it is WordPress wiring.
- `setupEventListeners` finds the button, deferring to `DOMContentLoaded` only while `document.readyState` is `loading`. A click is modelled as a call to `Dlt.ToggleTheme`.
- How a `prefers-color-scheme` listener is registered, and how a `CustomEvent` bubbles, are left out. A preference change is a call to `Dlt.OnSystemPreferenceChange` with the reported boolean. An event is an append to `events`.
- `console.warn` on a failed save is output only and is not modelled.
- The static CSS text is five opaque blocks, not its characters. Rendering the fragments to one string is left out. A literal of that size is too costly to verify.
- Settings.SettingsManager.GetAllOptions: returns a map, so the declaration order of PHP's `$options` array is not kept.
- WordPress option internals are left out: serialisation, caching, autoload and filters. Options hold strings only.
- Settings.SettingsManager.UpdateOption: its result value stands for WordPress's (false when the same value is already stored). Database failures are not modelled.
- PHP's loose `in_array` comparison is modelled as string equality. That is exact for string inputs; non-string inputs are out of scope.
- ThemeScript.DarkLightToggle.SetTheme: takes a string. JavaScript's conversion of other values to strings (`setAttribute` and `setItem` of `null` give `"null"`) is not modelled.
