# CoinScan: settings merge, localisation and window state in Dafny

CoinScan is a desktop application that scans Euro coins through a webcam. This
project models the parts of it that hold exact logic and proves properties of them:

- **Settings** (`settings.dfy`, from `CoinScan/settings_manager.py`). `_validate_and_merge`
  turns an untrusted loaded object into a settings dictionary. A Python value is a tagged
  datatype (`Str | Int | Bool | Dict | Other`). `type(x) is type(d)` is equality of the exact
  runtime type, so a bool is not an int. The merge is a method with a loop over the default
  keys. It is proved equal to the specification function `Merge`, and the lemmas state the
  merge rules about `Merge`. The `TypeError` guard of `save_settings` is modelled too.
- **Language** (`language.dfy`, from `CoinScan/language.py`). The two string tables and the
  lookups `normalize_lang`, `get_strings`, `get_text`, `get_tooltip` and `format_total`, as
  functions. None of them has a precondition, so none can fail. A table value is an `Entry`:
  a string, or the nested tooltip dictionary. The amount is a number of cents rendered as
  `<int>.<2 digits>`. `str.format` is modelled for the `{amount}` field.
- **Window state** (`app.dfy`, from `CoinScan/CoinScan.py`). A class `Window` holds the
  globals `current_size`, `current_lang` and `high_contrast`, three font objects, and the
  colours, state and text the callbacks set on widgets. It has methods for
  `change_font_size`, `set_current_lang`, `toggle_size` and `toggle_contrast`.
- `wrappers.dfy` holds `Option` and `Result`.

## Where the model follows the code rather than the description

- `toggle_size` reads `strings["size_minus"]` and `strings["size_plus"]`. Neither language
  table has these keys (`App.ShippedTablesLackSizeLabels`). As written, an enabled
  `toggle_size` first changes `current_size` and then raises `KeyError`, so the button text
  never changes. `Window.ToggleSize` takes the table as a parameter. Its contract covers both
  cases: a table that has the key, and the shipped tables that do not. A failed lookup comes
  back as a `Fault` value.
- `toggle_size` looks up `LANGUAGES[current_lang]` before it checks the scan button. An
  unsupported `current_lang` therefore raises `KeyError` even when the button is disabled.
  `set_current_lang` accepts any string.
- `get_text` is annotated `-> str`, but for the key `"tooltips"` it returns the nested
  dictionary (`Language.GetTextOfTooltipsIsTable`).
- `CoinScan/CoinScan.py` cannot start as it stands. Lines 7-15 import `UI_FONT_PARAMS`,
  `TITLE_FONT_PARAMS`, `MONO_FONT_PARAMS`, `BUTTON_STYLE_PARAMS`, `on_enter` and `on_leave`
  from `ui_config`, and `switch_language` from `language`. Neither file defines them. Line 193 of
  `main` also reads `LANGUAGES[current_lang]["exit"]`, a key that exists only among the tooltips,
  so it raises `KeyError`. The callbacks are modelled as they are written, as if these were
  repaired.

## Model

| member | source | states |
|---|---|---|
| `Settings.ValidateAndMerge` | CoinScan/settings_manager.py:58-79 | the copy, bulk update and per-key loop compute exactly the merged dictionary `Merge(data)` |
| `Settings.NonDictGivesDefaults` | CoinScan/settings_manager.py:59-60 | any value that is not a dict yields exactly the defaults |
| `Settings.MergeKeys` | CoinScan/settings_manager.py:62-63 | the result's keys are the default keys plus the input's keys; unknown keys keep their incoming values |
| `Settings.MergeDefaultKey` | CoinScan/settings_manager.py:65-72 | a default key is always present; same exact type keeps the incoming value; another type or absence gives the default |
| `Settings.BoolAndIntAreDistinct` | CoinScan/settings_manager.py:69-72 | `high_contrast: 1` and `font_size: True` are both replaced by their defaults |
| `Settings.Merge` | CoinScan/settings_manager.py:58-79 | the closed form of the merge; whatever the input, every default key holds a value of its default's exact type (the key and value rules are `MergeKeys` and `MergeDefaultKey`) |
| `Settings.MergeFixpoint` | CoinScan/settings_manager.py:58-79 | the merge leaves a dictionary unchanged exactly when it is well typed |
| `Settings.MergeIdempotent` | CoinScan/settings_manager.py:58-79 | merging an already merged result returns it unchanged |
| `Settings.SaveSettings` | CoinScan/settings_manager.py:93-97 | fails with `TypeError("settings must be a dict")` exactly for non-dict input, before any merge; otherwise the dictionary to write is the well-typed merge |
| `Language.LanguagesWellFormed` | CoinScan/language.py:13-68 | the supported codes are `de` and `en`; each table's tooltips are a dictionary and its `total_fmt` a string |
| `Language.NormalizeLang` | CoinScan/language.py:96-98 | the result is always a supported code; a supported code is returned as is, anything else gives `en` |
| `Language.NormalizeLangIdempotent` | CoinScan/language.py:96-98 | normalising twice equals normalising once |
| `Language.GetStrings` | CoinScan/language.py:101-103 | the table of the normalised language; an unsupported language gets the English table; the `.get` fallback is never needed |
| `Language.GetText` | CoinScan/language.py:106-108 | the entry under the key in the normalised language's table, else the caller's default |
| `Language.GetTextUnsupportedReadsEnglish` | CoinScan/language.py:106-108 | an unsupported language reads the English table |
| `Language.GetTextOfTooltipsIsTable` | CoinScan/language.py:106-108 | asking for `"tooltips"` yields the nested dictionary, not a string |
| `Language.GetTooltip` | CoinScan/language.py:111-113 | the tooltip under the key in the normalised language's tooltips, else the caller's default |
| `Language.DecimalDigits` | CoinScan/language.py:123 | the integer part is written as one or more decimal digits, `0` for zero and without a leading zero otherwise |
| `Language.DecimalDigitsRoundTrip` | CoinScan/language.py:123 | reading the written digits back gives the number |
| `Language.AmountText` | CoinScan/language.py:123 | the amount text is at least four characters long; the third character from the end is the point and all others are digits; a leading `0` only in `0.xx` |
| `Language.AmountTextRoundTrip` | CoinScan/language.py:123 | the whole part and the two decimals read back give the number of cents |
| `Language.Replace` | CoinScan/language.py:125 | same length; every occurrence of the old character becomes the new one; every other character stays |
| `Language.Substitute` | CoinScan/language.py:126 | `fmt.format(amount=value)` for the `{amount}` field; its properties are `SubstituteLiteral` and `SubstituteTemplate` |
| `Language.SubstituteLiteral` | CoinScan/language.py:126 | formatting passes text without braces through unchanged |
| `Language.SubstituteTemplate` | CoinScan/language.py:126 | a template `prefix{amount}suffix` with brace-free text around the field formats to prefix, value, suffix |
| `Language.GermanTemplate` | CoinScan/language.py:19 | the German template puts the amount between `GESAMT: ` and ` €` |
| `Language.EnglishTemplate` | CoinScan/language.py:46 | the English template appends the amount to `TOTAL: €` |
| `Language.TotalTemplate` | CoinScan/language.py:121-122 | the template is the German one for German and the English one for every other language |
| `Language.LocalAmount` | CoinScan/language.py:123-125 | German writes a comma where the point was and no point remains; other languages keep the point; the digits do not change |
| `Language.FormatTotal` | CoinScan/language.py:116-126 | German gives `"GESAMT: " + amount + " €"`; English and unsupported languages give `"TOTAL: €" + amount`, with the amount as `LocalAmount` writes it |
| `Language.ZeroAmount` | CoinScan/language.py:123-125 | zero cents are written `0.00`, and `0,00` after the German swap |
| `Language.ZeroTotal` | CoinScan/language.py:116-126 | the total of zero is `GESAMT: 0,00 €` in German and `TOTAL: €0.00` in every other language |
| `Language.InitialTotals` | CoinScan/language.py:18-45 | the German table's initial total is `GESAMT: 0,00 €` and the English one `TOTAL: €0.00` |
| `Language.TotalLabelIsZeroTotal` | CoinScan/language.py:18-46 | each table's initial `"total"` text equals the formatted total of zero |
| `App.ClampFontSize` | CoinScan/CoinScan.py:27-29 | the new size lies in [8, 32]; a size already in range is kept; a size outside becomes the nearer bound |
| `App.ClampStepBack` | CoinScan/CoinScan.py:25-30 | for a size in [8, 31], A+ followed by A- restores it |
| `App.NextSize` | CoinScan/CoinScan.py:45-50 | the toggle switches to (640,480) exactly from (320,240), and never stays where it was |
| `App.SizeLabelKey` | CoinScan/CoinScan.py:45-50 | the button text key is `size_minus` exactly when the toggle switched to the large size, `size_plus` exactly when it switched to the small one |
| `App.NextSizeCycle` | CoinScan/CoinScan.py:45-50 | the toggle always lands on (320,240) or (640,480); two toggles return to the start exactly when it was one of these two; two toggles from (320,240) return to (320,240) |
| `App.ShippedTablesLackSizeLabels` | CoinScan/CoinScan.py:42-50 | neither shipped table has `size_minus` or `size_plus`, so the text lookup of an enabled toggle raises |
| `App.ContrastTheme` | CoinScan/CoinScan.py:86-99 | the colours `toggle_contrast` applies for each value of `high_contrast`; their properties are `ContrastThemeReadable` |
| `App.ContrastThemeReadable` | CoinScan/CoinScan.py:86-99 | high contrast means black background and yellow text; normal means white and black; each theme keeps text and background apart |
| `App.Window.constructor` | CoinScan/CoinScan.py:20-22 | the initial size is (320,240), the language `de`, high contrast off; the fonts are fresh and distinct |
| `App.Window.SetCurrentLang` | CoinScan/CoinScan.py:33-36 | `current_lang` becomes the argument and nothing else changes |
| `App.Window.ChangeFontSize` | CoinScan/CoinScan.py:25-30 | each of the three fonts becomes its own old size plus delta, clamped into [8, 32]; nothing else changes |
| `App.Window.ToggleSize` | CoinScan/CoinScan.py:39-50 | a missing table raises KeyError with no change; a disabled scan button changes nothing; otherwise the size switches, and the button gets the `size_minus`/`size_plus` text if the table has it, else the call raises KeyError with the size already switched |
| `App.Window.ToggleContrast` | CoinScan/CoinScan.py:82-113 | `high_contrast` is negated and every widget carries the colours the new value selects; the menu bar keeps its colours when configuring it fails |

## Left out

- Coin detection and classification: no shown file contains them. `CoinScan/webcam_stream.py` fills the result list with two fixed entries and a fixed total of 1.05. The rest of that file is camera I/O and a thread, and it is not part of this model.
- `load_settings`, the file writing in `save_settings` and `_default_settings_path`: these use the filesystem, environment variables, temporary files, `fsync` and `os.replace`. `Settings.SaveSettings` returns the dictionary that would be written.
- Settings keys are strings, as `json.load` produces them. Dictionary key order is not modelled: the file's key order does not affect the merged values.
- `Settings.PyValue`: floats, `None` and lists are modelled only by the name of their type (`Other`). The merge looks at nothing else.
- `Language.FormatTotal`: the float formatting `f"{amount:.2f}"` is modelled for a non-negative number of cents. Rounding of binary floats and negative amounts are not modelled. `str.format` is modelled for the `{amount}` field only. Other fields and brace escapes do not occur in the shipped templates.
- `get_text` and `get_tooltip` give `default` the value `""` when the caller omits it. `Language.GetText` and `Language.GetTooltip` take `default` as an explicit argument, because Dafny has no default arguments.
- The `logger.debug` message `_validate_and_merge` writes for a value of the wrong type: logging is output only and does not change the result.
- `ABOUT_TEXTS` in `language.py`: no core function reads it.
- `CoinScan/ui_config.py`: constant tables, plus icon paths built with filesystem `resolve`.
- `main`, `exit_program`, `show_help`, `show_about` and `center_windowframe`: these are tkinter widget construction, dialogs and screen geometry. `App.Window.constructor` keeps only the initial globals and the fonts, and it sets neutral widget texts.
- Widgets are reduced to the options the callbacks set: `bg`/`fg` colours, the scan button's `state` and the size button's `text`. The contrast button is also a child of the sidebar and is painted twice with the same colours, so it is modelled once by its own field. Font objects are kept as objects because `change_font_size` updates them in place.
- App.Window.ToggleContrast: whether configuring the menu bar raises is a boolean parameter, because that depends on the platform's tkinter.
