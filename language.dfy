/**
  Localised strings of CoinScan (CoinScan/language.py): a constant table per
  language and lookups that fall back instead of failing.
*/
module Language {

  /** A value of a language table: a string, or the nested tooltip dictionary. */
  datatype Entry = Text(s: string) | Table(t: map<string, string>)

  type Strings = map<string, Entry>

  /** The language every lookup falls back to. */
  const DEFAULT_LANG: string := "en"

  /** The German table. */
  const GERMAN: Strings := map[
      "title" := Text("P R O S E G U R"),
      "scan" := Text("🔍 Münzen scannen"),
      "results" := Text("Ergebnisse"),
      "total" := Text("GESAMT: 0,00 €"),
      "total_fmt" := Text("GESAMT: {amount} €"),
      "about" := Text("Über CoinScan"),
      "settings" := Text("Einstellungen"),
      "close" := Text("Schließen"),
      "exit_confirm" := Text("Möchten Sie CoinScan wirklich beenden?"),
      "no_coin" := Text("Keine Münze im Zentrum erkannt."),
      "camera_fail" := Text("Kamera konnte nicht geöffnet werden."),
      "frame_fail" := Text("Bild konnte nicht gelesen werden."),
      "tooltips" := Table(map[
        "scan_btn" := "Münzen im Zentrum scannen",
        "size_small" := "Webcam-Auflösung 480x360",
        "contrast" := "Hochkontrast umschalten",
        "flag_de" := "Deutsch wählen",
        "flag_en" := "Englisch wählen",
        "home" := "Start / Ergebnisse löschen",
        "settings" := "Einstellungen öffnen",
        "about" := "Info zu CoinScan",
        "exit" := "Anwendung beenden",
        "webcam" := "Webcam-Vorschau",
        "results_panel" := "Erkannte Münzen und Gesamt"
      ])
    ]

  /** The English table. */
  const ENGLISH: Strings := map[
      "title" := Text("P R O S E G U R"),
      "scan" := Text("🔍 Scan Coins"),
      "results" := Text("Results"),
      "total" := Text("TOTAL: €0.00"),
      "total_fmt" := Text("TOTAL: €{amount}"),
      "about" := Text("About CoinScan"),
      "settings" := Text("Settings"),
      "close" := Text("Close"),
      "exit_confirm" := Text("Are you sure you want to exit CoinScan?"),
      "no_coin" := Text("No coin detected in centre."),
      "camera_fail" := Text("Camera open failed"),
      "frame_fail" := Text("Frame read failed"),
      "tooltips" := Table(map[
        "scan_btn" := "Scan coins in centre",
        "size_small" := "Set webcam resolution 480x360",
        "contrast" := "Toggle high-contrast mode",
        "flag_de" := "Switch to German",
        "flag_en" := "Switch to English",
        "home" := "Home / Clear results",
        "settings" := "Open Settings",
        "about" := "About CoinScan",
        "exit" := "Exit application",
        "webcam" := "Webcam preview",
        "results_panel" := "Detected coins and totals"
      ])
    ]

  /** The supported languages by code. */
  const LANGUAGES: map<string, Strings> := map["de" := GERMAN, "en" := ENGLISH]

  /** Python's `m.get(k, default)`. */
  function Get<K, V>(m: map<K, V>, k: K, default: V): V
  {
    if k in m then m[k] else default
  }

  /** A table the helpers can read without raising: tooltips are a dictionary, the total template a string. */
  ghost predicate WellFormed(s: Strings)
  {
    && "tooltips" in s && s["tooltips"].Table?
    && "total_fmt" in s && s["total_fmt"].Text?
  }

  /** The supported languages are German and English, and both tables are well formed. */
  lemma LanguagesWellFormed()
    ensures LANGUAGES.Keys == {"de", "en"}
    ensures forall code :: code in LANGUAGES ==> WellFormed(LANGUAGES[code])
  {
    assert WellFormed(LANGUAGES["de"]);
    assert WellFormed(LANGUAGES["en"]);
  }

  /** `normalize_lang`: a supported code stays, anything else becomes the default language. */
  function NormalizeLang(lang: string): (r: string)
    ensures r in LANGUAGES
    ensures lang in LANGUAGES ==> r == lang
    ensures lang !in LANGUAGES ==> r == DEFAULT_LANG
  {
    if lang in LANGUAGES then lang else DEFAULT_LANG
  }

  /** Normalising twice is the same as normalising once. */
  lemma NormalizeLangIdempotent(lang: string)
    ensures NormalizeLang(NormalizeLang(lang)) == NormalizeLang(lang)
  {
  }

  /** `get_strings`: the table of the normalised language; the `.get` fallback is never taken. */
  function GetStrings(lang: string): (r: Strings)
    ensures r == LANGUAGES[NormalizeLang(lang)]
    ensures lang !in LANGUAGES ==> r == LANGUAGES[DEFAULT_LANG]
    ensures WellFormed(r)
  {
    LanguagesWellFormed();
    Get(LANGUAGES, NormalizeLang(lang), LANGUAGES[DEFAULT_LANG])
  }

  /**
    `get_text`: the entry stored under `key`, else the caller's default. The
    result is an Entry because the key "tooltips" yields the nested dictionary.
  */
  function GetText(lang: string, key: string, default: string): (r: Entry)
    ensures key in LANGUAGES[NormalizeLang(lang)] ==> r == LANGUAGES[NormalizeLang(lang)][key]
    ensures key !in LANGUAGES[NormalizeLang(lang)] ==> r == Text(default)
  {
    Get(GetStrings(lang), key, Text(default))
  }

  /** An unsupported language reads the English table. */
  lemma GetTextUnsupportedReadsEnglish(lang: string, key: string, default: string)
    requires lang !in LANGUAGES
    ensures GetText(lang, key, default) == GetText("en", key, default)
  {
  }

  /** Asking `get_text` for "tooltips" returns the whole tooltip dictionary, not a string. */
  lemma GetTextOfTooltipsIsTable(lang: string, default: string)
    ensures GetText(lang, "tooltips", default).Table?
  {
    assert WellFormed(GetStrings(lang));
  }

  /** `get_tooltip`: the tooltip stored under `key`, else the caller's default. */
  function GetTooltip(lang: string, key: string, default: string): (r: string)
    ensures var tips := LANGUAGES[NormalizeLang(lang)]["tooltips"].t;
      (key in tips ==> r == tips[key]) && (key !in tips ==> r == default)
  {
    match Get(GetStrings(lang), "tooltips", Table(map[]))
    case Table(tips) => Get(tips, key, default)
    case Text(_) => assert false; default
  }

  /** The ten decimal digits, as `str(d)` writes them. */
  function Digit(d: nat): (c: char)
    requires d < 10
    ensures '0' <= c <= '9'
  {
    ('0' as int + d) as char
  }

  /** The digit a character stands for. */
  function DigitValue(c: char): nat
  {
    if '0' <= c <= '9' then (c as int - '0' as int) else 0
  }

  /** `str(n)` for a non-negative integer: its decimal digits, most significant first. */
  function DecimalDigits(n: nat): (r: string)
    ensures |r| >= 1
    ensures forall i :: 0 <= i < |r| ==> '0' <= r[i] <= '9'
    ensures n == 0 ==> r == "0"
    ensures n > 0 ==> r[0] != '0'
  {
    if n < 10 then [Digit(n)] else DecimalDigits(n / 10) + [Digit(n % 10)]
  }

  /** The number a string of decimal digits denotes. */
  function DigitsValue(s: string): nat
  {
    if s == [] then 0 else 10 * DigitsValue(s[..|s| - 1]) + DigitValue(s[|s| - 1])
  }

  /** Reading back the digits of `n` gives `n`. */
  lemma {:induction false} DecimalDigitsRoundTrip(n: nat)
    ensures DigitsValue(DecimalDigits(n)) == n
  {
    if n >= 10 {
      DecimalDigitsRoundTrip(n / 10);
      var s := DecimalDigits(n);
      assert s[..|s| - 1] == DecimalDigits(n / 10);
    }
  }

  /**
    `f"{amount:.2f}"` for an amount of `cents` hundredths: the whole part, a
    point, then exactly two digits.
  */
  function AmountText(cents: nat): (r: string)
    ensures |r| >= 4 && r[|r| - 3] == '.'
    ensures forall i :: 0 <= i < |r| && i != |r| - 3 ==> '0' <= r[i] <= '9'
    ensures r[0] == '0' ==> |r| == 4
  {
    DecimalDigits(cents / 100) + "." + [Digit(cents / 10 % 10), Digit(cents % 10)]
  }

  /** Reading the digits of the amount back gives the number of cents. */
  lemma AmountTextRoundTrip(cents: nat)
    ensures var r := AmountText(cents);
      100 * DigitsValue(r[..|r| - 3]) + DigitsValue(r[|r| - 2..]) == cents
  {
    var r := AmountText(cents);
    var whole, tens, ones := cents / 100, cents / 10 % 10, cents % 10;
    assert r[..|r| - 3] == DecimalDigits(whole);
    DecimalDigitsRoundTrip(whole);
    var tail := r[|r| - 2..];
    assert tail == [Digit(tens), Digit(ones)];
    assert tail[..1] == [Digit(tens)] && [Digit(tens)][..0] == [];
    assert DigitValue(Digit(tens)) == tens && DigitValue(Digit(ones)) == ones;
    assert DigitsValue([Digit(tens)]) == tens;
    assert DigitsValue(tail) == 10 * DigitsValue(tail[..1]) + DigitValue(tail[1]);
    assert cents / 10 == 10 * whole + tens;
  }

  /** `s.replace(old, new)` for single characters. */
  function Replace(s: string, oldChar: char, newChar: char): (r: string)
    ensures |r| == |s|
    ensures forall i :: 0 <= i < |s| ==> r[i] == if s[i] == oldChar then newChar else s[i]
  {
    if s == [] then []
    else [if s[0] == oldChar then newChar else s[0]] + Replace(s[1..], oldChar, newChar)
  }

  /** The placeholder `format_total` fills in. */
  const PLACEHOLDER: string := "{amount}"

  /** `fmt.format(amount=value)`: every `{amount}` field replaced by `value`. */
  function Substitute(fmt: string, value: string): string
    decreases |fmt|
  {
    if fmt == [] then []
    else if |PLACEHOLDER| <= |fmt| && fmt[..|PLACEHOLDER|] == PLACEHOLDER then
      value + Substitute(fmt[|PLACEHOLDER|..], value)
    else [fmt[0]] + Substitute(fmt[1..], value)
  }

  /** Text without braces passes through the substitution unchanged. */
  lemma {:induction false} SubstituteLiteral(prefix: string, rest: string, value: string)
    requires '{' !in prefix
    ensures Substitute(prefix + rest, value) == prefix + Substitute(rest, value)
  {
    if prefix != [] {
      var s := prefix + rest;
      assert s[0] == prefix[0];
      assert prefix[0] in prefix;
      assert |PLACEHOLDER| <= |s| ==> s[..|PLACEHOLDER|][0] != PLACEHOLDER[0];
      assert s[1..] == prefix[1..] + rest;
      SubstituteLiteral(prefix[1..], rest, value);
      calc {
        Substitute(s, value);
        [s[0]] + Substitute(s[1..], value);
        [prefix[0]] + (prefix[1..] + Substitute(rest, value));
        { assert [prefix[0]] + prefix[1..] == prefix; }
        prefix + Substitute(rest, value);
      }
    } else {
      assert prefix + rest == rest;
    }
  }

  /** A template `prefix{amount}suffix` with brace-free text around the field. */
  lemma SubstituteTemplate(prefix: string, suffix: string, value: string)
    requires '{' !in prefix && '{' !in suffix
    ensures Substitute(prefix + PLACEHOLDER + suffix, value) == prefix + value + suffix
  {
    var field := PLACEHOLDER + suffix;
    assert prefix + PLACEHOLDER + suffix == prefix + field;
    SubstituteLiteral(prefix, field, value);
    assert field[..|PLACEHOLDER|] == PLACEHOLDER;
    assert field[|PLACEHOLDER|..] == suffix;
    assert Substitute(field, value) == value + Substitute(suffix, value);
    SubstituteLiteral(suffix, [], value);
    assert suffix + [] == suffix;
  }

  /** The amount as `format_total` shows it: German writes a decimal comma. */
  function LocalAmount(lang: string, cents: nat): (r: string)
    ensures var a := AmountText(cents);
      |r| == |a| && r[|r| - 3] == (if NormalizeLang(lang) == "de" then ',' else '.')
      && (forall i :: 0 <= i < |r| && i != |r| - 3 ==> r[i] == a[i])
      && (NormalizeLang(lang) == "de" ==> '.' !in r)
  {
    var amountText := AmountText(cents);
    if NormalizeLang(lang) == "de" then Replace(amountText, '.', ',') else amountText
  }

  /** `strings.get("total_fmt", "TOTAL: €{amount}")` in `format_total`. */
  function TotalTemplate(lang: string): (fmt: Entry)
    ensures fmt == Text(if NormalizeLang(lang) == "de" then "GESAMT: {amount} €" else "TOTAL: €{amount}")
  {
    var strings := GetStrings(lang);
    assert NormalizeLang(lang) == "de" ==> strings == LANGUAGES["de"];
    assert NormalizeLang(lang) != "de" ==> strings == LANGUAGES["en"];
    Get(strings, "total_fmt", Text("TOTAL: €{amount}"))
  }

  /** The German template puts the amount between "GESAMT: " and " €". */
  lemma GermanTemplate(v: string)
    ensures Substitute("GESAMT: {amount} €", v) == "GESAMT: " + v + " €"
  {
    assert "GESAMT: {amount} €" == "GESAMT: " + PLACEHOLDER + " €";
    SubstituteTemplate("GESAMT: ", " €", v);
  }

  /** The English template appends the amount to "TOTAL: €". */
  lemma EnglishTemplate(v: string)
    ensures Substitute("TOTAL: €{amount}", v) == "TOTAL: €" + v
  {
    assert "TOTAL: €{amount}" == "TOTAL: €" + PLACEHOLDER + "";
    SubstituteTemplate("TOTAL: €", "", v);
    assert "TOTAL: €" + v + "" == "TOTAL: €" + v;
  }

  /**
    `format_total`: the language's `total_fmt` with the localised amount
    substituted, which is "GESAMT: <amount> €" in German and "TOTAL: €<amount>"
    in every other language.
  */
  function FormatTotal(lang: string, cents: nat): (r: string)
    ensures NormalizeLang(lang) == "de" ==> r == "GESAMT: " + LocalAmount(lang, cents) + " €"
    ensures NormalizeLang(lang) != "de" ==> r == "TOTAL: €" + LocalAmount(lang, cents)
  {
    var v := LocalAmount(lang, cents);
    match TotalTemplate(lang)
    case Text(fmt) =>
      if NormalizeLang(lang) == "de" then
        GermanTemplate(v);
        Substitute(fmt, v)
      else
        EnglishTemplate(v);
        Substitute(fmt, v)
    case Table(_) => assert false; ""
  }

  /** Zero cents are written "0.00". */
  lemma ZeroAmount()
    ensures AmountText(0) == "0.00"
    ensures Replace("0.00", '.', ',') == "0,00"
  {
    assert DecimalDigits(0) == "0";
  }

  /** The total of zero cents: "GESAMT: 0,00 €" in German, "TOTAL: €0.00" in every other language. */
  lemma ZeroTotal(lang: string)
    ensures FormatTotal(lang, 0) == if NormalizeLang(lang) == "de" then "GESAMT: 0,00 €" else "TOTAL: €0.00"
  {
    ZeroAmount();
    var v := LocalAmount(lang, 0);
    if NormalizeLang(lang) == "de" {
      assert v == "0,00";
      assert "GESAMT: " + v + " €" == "GESAMT: 0,00 €";
    } else {
      assert v == "0.00";
      assert "TOTAL: €" + v == "TOTAL: €0.00";
    }
  }

  /** The initial "total" texts of the two tables. */
  lemma InitialTotals()
    ensures GERMAN["total"] == Text("GESAMT: 0,00 €")
    ensures ENGLISH["total"] == Text("TOTAL: €0.00")
  {
  }

  /** The initial "total" label of each language is the formatted total of zero. */
  lemma TotalLabelIsZeroTotal(lang: string)
    requires lang in LANGUAGES
    ensures LANGUAGES[lang]["total"] == Text(FormatTotal(lang, 0))
  {
    LanguagesWellFormed();
    InitialTotals();
    ZeroTotal(lang);
    if lang == "de" {
      assert LANGUAGES[lang] == GERMAN;
    } else {
      assert LANGUAGES[lang] == ENGLISH;
    }
  }
}
