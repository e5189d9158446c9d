/**
  The window state of CoinScan (CoinScan/CoinScan.py): the globals
  `current_size`, `current_lang` and `high_contrast`, the three fonts, and the
  widgets whose options the callbacks reconfigure. Widgets are reduced to the
  options those callbacks touch.
*/
module App {
  import opened Wrappers
  import Language

  const MIN_FONT_SIZE: int := 8
  const MAX_FONT_SIZE: int := 32

  /** The two capture sizes the size button switches between. */
  const SMALL_SIZE: (int, int) := (320, 240)
  const LARGE_SIZE: (int, int) := (640, 480)

  /** `max(min_size, min(max_size, n))`: a font size forced into [8, 32]. */
  function ClampFontSize(n: int): (r: int)
    ensures MIN_FONT_SIZE <= r <= MAX_FONT_SIZE
    ensures MIN_FONT_SIZE <= n <= MAX_FONT_SIZE ==> r == n
    ensures n < MIN_FONT_SIZE ==> r == MIN_FONT_SIZE
    ensures n > MAX_FONT_SIZE ==> r == MAX_FONT_SIZE
  {
    var capped := if MAX_FONT_SIZE < n then MAX_FONT_SIZE else n;
    if capped < MIN_FONT_SIZE then MIN_FONT_SIZE else capped
  }

  /** One step up and one step down give back a size that had room to grow. */
  lemma ClampStepBack(n: int)
    requires MIN_FONT_SIZE <= n < MAX_FONT_SIZE
    ensures ClampFontSize(ClampFontSize(n + 1) - 1) == n
  {
  }

  /** The capture size `toggle_size` switches to. */
  function NextSize(size: (int, int)): (r: (int, int))
    ensures r == LARGE_SIZE <==> size == SMALL_SIZE
    ensures r != size
  {
    if size == SMALL_SIZE then LARGE_SIZE else SMALL_SIZE
  }

  /** The language key whose text the size button gets after the switch. */
  function SizeLabelKey(size: (int, int)): (key: string)
    ensures key == "size_minus" <==> NextSize(size) == LARGE_SIZE
    ensures key == "size_plus" <==> NextSize(size) == SMALL_SIZE
  {
    if size == SMALL_SIZE then "size_minus" else "size_plus"
  }

  /**
    Switching always lands on one of the two sizes, and switching twice comes
    back exactly when the size started as one of them.
  */
  lemma NextSizeCycle(size: (int, int))
    ensures NextSize(size) == SMALL_SIZE || NextSize(size) == LARGE_SIZE
    ensures NextSize(NextSize(size)) == size <==> size == SMALL_SIZE || size == LARGE_SIZE
    ensures NextSize(NextSize(SMALL_SIZE)) == SMALL_SIZE
  {
  }

  /** Neither shipped language table has the size button texts. */
  lemma ShippedTablesLackSizeLabels(lang: string)
    requires lang in Language.LANGUAGES
    ensures "size_minus" !in Language.LANGUAGES[lang]
    ensures "size_plus" !in Language.LANGUAGES[lang]
  {
    if lang == "de" {
      assert Language.LANGUAGES[lang] == Language.GERMAN;
    } else {
      assert Language.LANGUAGES[lang] == Language.ENGLISH;
    }
  }

  /** The colours `toggle_contrast` applies. */
  datatype Theme = Theme(bg: string, fg: string, buttonBg: string, buttonFg: string, entryBg: string, entryFg: string)

  /** High contrast is yellow on black; the normal theme is black on white with the button style's colours. */
  function ContrastTheme(high: bool, styleBg: string, styleFg: string): Theme
  {
    if high then Theme("black", "yellow", "#333", "white", "black", "yellow")
    else Theme("white", "black", styleBg, styleFg, "white", "black")
  }

  /** Every theme keeps text and background apart; buttons too, as long as the button style does. */
  lemma ContrastThemeReadable(high: bool, styleBg: string, styleFg: string)
    ensures var t := ContrastTheme(high, styleBg, styleFg);
      t.bg != t.fg && t.entryBg != t.entryFg && (high || styleBg != styleFg ==> t.buttonBg != t.buttonFg)
    ensures ContrastTheme(high, styleBg, styleFg).bg == (if high then "black" else "white")
    ensures ContrastTheme(high, styleBg, styleFg).fg == (if high then "yellow" else "black")
  {
  }

  /** The exception a failed table lookup raises. */
  datatype Fault = KeyError(key: string)

  /** A tkinter font; only its size is modelled. */
  class Font {
    var size: int

    constructor (size: int)
      ensures this.size == size
    {
      this.size := size;
    }
  }

  /** The `bg` and `fg` options of one widget. */
  datatype Colours = Colours(bg: string, fg: string)

  class Window {
    var currentSize: (int, int)
    var currentLang: string
    var highContrast: bool

    const uiFont: Font
    const titleFont: Font
    const monoFont: Font

    /** `BUTTON_STYLE["bg"]` and `BUTTON_STYLE["fg"]`. */
    const styleBg: string
    const styleFg: string

    /** The widgets' colours; `sidebarButtons` holds those of `sidebar.winfo_children()` in order. */
    var sidebar: Colours
    var sidebarButtons: seq<Colours>
    var content: Colours
    var title: Colours
    var totalLabel: Colours
    var recognition: Colours
    var scanButton: Colours
    var sizeButton: Colours
    var contrastButton: Colours
    var menuBar: Colours

    /** `scan_button["state"]` and the last `text` option given to the size button. */
    var scanButtonState: string
    var sizeButtonText: Language.Entry

    /** The three fonts are distinct objects. */
    ghost predicate Valid()
    {
      uiFont != titleFont && uiFont != monoFont && titleFont != monoFont
    }

    /**
      The window as `main` builds it, with the globals' initial values: three
      icon buttons and the A+/A- buttons in the sidebar (the contrast button,
      also a sidebar child, has its own field).
    */
    constructor (uiSize: int, titleSize: int, monoSize: int, styleBg: string, styleFg: string)
      ensures Valid()
      ensures currentSize == SMALL_SIZE && currentLang == "de" && !highContrast
      ensures uiFont.size == uiSize && titleFont.size == titleSize && monoFont.size == monoSize
      ensures this.styleBg == styleBg && this.styleFg == styleFg
      ensures scanButtonState == "normal"
      ensures fresh(uiFont) && fresh(titleFont) && fresh(monoFont)
    {
      currentSize := SMALL_SIZE;
      currentLang := "de";
      highContrast := false;
      uiFont := new Font(uiSize);
      titleFont := new Font(titleSize);
      monoFont := new Font(monoSize);
      this.styleBg := styleBg;
      this.styleFg := styleFg;
      var icon := Colours("#2c3e50", "white");
      sidebar := Colours("#2c3e50", "");
      sidebarButtons := [icon, icon, icon, Colours("", ""), Colours("", "")];
      content := Colours("white", "");
      title := Colours("white", "");
      totalLabel := Colours("white", "");
      recognition := Colours("", "");
      scanButton := Colours(styleBg, styleFg);
      sizeButton := Colours(styleBg, styleFg);
      contrastButton := Colours(styleBg, styleFg);
      menuBar := Colours("", "");
      scanButtonState := "normal";
      sizeButtonText := Language.Text("");
    }

    /** `set_current_lang`: only `current_lang` changes. */
    method SetCurrentLang(lang: string)
      modifies this`currentLang
      ensures currentLang == lang
    {
      currentLang := lang;
    }

    /** `change_font_size`: each font moves by `delta` from its own size, clamped into [8, 32]. */
    method ChangeFontSize(delta: int)
      requires Valid()
      modifies uiFont, titleFont, monoFont
      ensures uiFont.size == ClampFontSize(old(uiFont.size) + delta)
      ensures titleFont.size == ClampFontSize(old(titleFont.size) + delta)
      ensures monoFont.size == ClampFontSize(old(monoFont.size) + delta)
    {
      var fonts := [uiFont, titleFont, monoFont];
      for i := 0 to |fonts|
        invariant forall j :: 0 <= j < i ==> fonts[j].size == ClampFontSize(old(fonts[j].size) + delta)
        invariant forall j :: i <= j < |fonts| ==> fonts[j].size == old(fonts[j].size)
      {
        var font := fonts[i];
        font.size := ClampFontSize(font.size + delta);
      }
      assert fonts[0] == uiFont && fonts[1] == titleFont && fonts[2] == monoFont;
    }

    /**
      `toggle_size`: the table of the current language is looked up first (a
      KeyError when it is missing); a disabled scan button then leaves
      everything as it is; otherwise the capture size switches and the size
      button gets the matching text, or the text lookup raises KeyError after
      the size has already changed.
    */
    method ToggleSize(languages: map<string, Language.Strings>) returns (fault: Option<Fault>)
      modifies this`currentSize, this`sizeButtonText
      ensures currentLang !in languages ==>
        fault == Some(KeyError(currentLang)) && currentSize == old(currentSize) && sizeButtonText == old(sizeButtonText)
      ensures currentLang in languages && scanButtonState == "disabled" ==>
        fault == None && currentSize == old(currentSize) && sizeButtonText == old(sizeButtonText)
      ensures currentLang in languages && scanButtonState != "disabled" ==>
        && currentSize == NextSize(old(currentSize))
        && var key := SizeLabelKey(old(currentSize));
           if key in languages[currentLang]
           then fault == None && sizeButtonText == languages[currentLang][key]
           else fault == Some(KeyError(key)) && sizeButtonText == old(sizeButtonText)
    {
      if currentLang !in languages {
        return Some(KeyError(currentLang));
      }
      var strings := languages[currentLang];
      if scanButtonState == "disabled" {
        return None;
      }
      var key;
      if currentSize == SMALL_SIZE {
        currentSize := LARGE_SIZE;
        key := "size_minus";
      } else {
        currentSize := SMALL_SIZE;
        key := "size_plus";
      }
      if key !in strings {
        return Some(KeyError(key));
      }
      sizeButtonText := strings[key];
      fault := None;
    }

    /** The widgets carry the colours of theme `t`; the menu bar only if it accepted them. */
    ghost predicate Themed(t: Theme, menuAccepted: bool)
      reads this
    {
      && sidebar.bg == t.bg
      && (forall i :: 0 <= i < |sidebarButtons| ==> sidebarButtons[i] == Colours(t.buttonBg, t.buttonFg))
      && content.bg == t.bg
      && title == Colours(t.bg, t.fg)
      && totalLabel == Colours(t.bg, t.fg)
      && recognition == Colours(t.entryBg, t.entryFg)
      && scanButton == Colours(t.buttonBg, t.buttonFg)
      && sizeButton == Colours(t.buttonBg, t.buttonFg)
      && contrastButton == Colours(t.buttonBg, t.buttonFg)
      && (menuAccepted ==> menuBar == Colours(t.bg, t.fg))
    }

    /**
      `toggle_contrast`: flip `high_contrast` and paint every widget with the
      theme it selects. The menu bar's colours are set in a `try` whose
      exception is swallowed; `menuAccepts` says whether that call succeeds.
    */
    method ToggleContrast(menuAccepts: bool)
      modifies this`highContrast, this`sidebar, this`sidebarButtons, this`content, this`title,
        this`totalLabel, this`recognition, this`scanButton, this`sizeButton, this`contrastButton, this`menuBar
      ensures highContrast == !old(highContrast)
      ensures Themed(ContrastTheme(highContrast, styleBg, styleFg), menuAccepts)
      ensures |sidebarButtons| == |old(sidebarButtons)|
      ensures !menuAccepts ==> menuBar == old(menuBar)
      ensures sidebar.fg == old(sidebar.fg) && content.fg == old(content.fg)
    {
      highContrast := !highContrast;
      var t := ContrastTheme(highContrast, styleBg, styleFg);
      sidebar := sidebar.(bg := t.bg);
      for i := 0 to |sidebarButtons|
        invariant highContrast == !old(highContrast)
        invariant sidebar == old(sidebar).(bg := t.bg) && content == old(content) && menuBar == old(menuBar)
        invariant |sidebarButtons| == |old(sidebarButtons)|
        invariant forall j :: 0 <= j < i ==> sidebarButtons[j] == Colours(t.buttonBg, t.buttonFg)
      {
        sidebarButtons := sidebarButtons[i := Colours(t.buttonBg, t.buttonFg)];
      }
      content := content.(bg := t.bg);
      title := Colours(t.bg, t.fg);
      totalLabel := Colours(t.bg, t.fg);
      recognition := Colours(t.entryBg, t.entryFg);
      scanButton := Colours(t.buttonBg, t.buttonFg);
      sizeButton := Colours(t.buttonBg, t.buttonFg);
      contrastButton := Colours(t.buttonBg, t.buttonFg);
      if menuAccepts {
        menuBar := Colours(t.bg, t.fg);
      }
    }
  }
}
