/** Font and class selection for single glyphs (RenderTreeBuilder.kt, makeSymbol
    to makeOrd): the font-choice tables and the value of the symbol box that
    makeSymbol builds. */
module Fonts {
  import opened Common
  import opened Symbols
  import opened BoxModel

  /** A font name for the metric lookup together with the CSS class of that font. */
  datatype FontChoice = FontChoice(fontName: string, fontClass: CssClass)

  /** Symbols whose glyphs exist only in Main-Italic. */
  const MathitLetters: set<string> :=
    {"\\imath", "ı", "\\jmath", "ȷ", "\\pounds", "\\mathsterling", "\\textsterling", "£"}

  /** The regular expression [0-9] on one character. */
  predicate IsDigit(c: char)
  {
    '0' <= c <= '9'
  }

  /** mathdefault: always Math-Italic; the class is mathit for a leading digit
      or a Main-Italic letter and mathdefault otherwise.  The first character
      is read before anything else, so an empty value throws. */
  function Mathdefault(value: string): (r: Result<FontChoice>)
    ensures value == [] <==> r == Err(EmptyText)
    ensures r.Ok? ==> r.value.fontName == "Math-Italic"
    ensures r.Ok? ==> (r.value.fontClass == mathit <==> IsDigit(value[0]) || value in MathitLetters)
    ensures r.Ok? ==> r.value.fontClass in {mathit, mathdefault}
  {
    if value == [] then Err(EmptyText)
    else if IsDigit(value[0]) || value in MathitLetters then Ok(FontChoice("Math-Italic", mathit))
    else Ok(FontChoice("Math-Italic", mathdefault))
  }

  /** mathnormal: a Main-Italic letter first, then a leading digit, then the
      default math italic. */
  function Mathnormal(value: string): (r: Result<FontChoice>)
    ensures value == [] <==> r == Err(EmptyText)
    ensures value in MathitLetters ==> r == Ok(FontChoice("Main-Italic", mathit))
    ensures value !in MathitLetters && value != [] && IsDigit(value[0]) ==>
              r == Ok(FontChoice("Caligraphic-Regular", mathcal))
    ensures value !in MathitLetters && value != [] && !IsDigit(value[0]) ==>
              r == Ok(FontChoice("Math-Italic", mathdefault))
  {
    if value in MathitLetters then Ok(FontChoice("Main-Italic", mathit))
    else if value == [] then Err(EmptyText)
    else if IsDigit(value[0]) then Ok(FontChoice("Caligraphic-Regular", mathcal))
    else Ok(FontChoice("Math-Italic", mathdefault))
  }

  /** The two default fonts disagree: a digit is mathit in Math-Italic by
      default and mathcal in Caligraphic under \mathnormal. */
  lemma {:induction false} DefaultAndNormalDisagreeOnDigits(value: string)
    requires value != [] && IsDigit(value[0]) && value !in MathitLetters
    ensures Mathdefault(value) == Ok(FontChoice("Math-Italic", mathit))
    ensures Mathnormal(value) == Ok(FontChoice("Caligraphic-Regular", mathcal))
  {
  }

  /** boldsymbol: Math-BoldItalic when that font has the glyph, else Main-Bold. */
  function Boldsymbol(tables: SymbolTables, mm: MetricMap, value: string, mode: Mode)
    : (r: Result<FontChoice>)
    ensures HasGlyph(tables, mm, value, "Math-BoldItalic", mode).Err? <==> r.Err?
    ensures r.Ok? ==>
              r.value == if HasGlyph(tables, mm, value, "Math-BoldItalic", mode).value
                         then FontChoice("Math-BoldItalic", boldsymbol)
                         else FontChoice("Main-Bold", mathbf)
  {
    var has :- HasGlyph(tables, mm, value, "Math-BoldItalic", mode);
    if has then Ok(FontChoice("Math-BoldItalic", boldsymbol)) else Ok(FontChoice("Main-Bold", mathbf))
  }

  /** mathsym's choice of font and of the classes added to `classes`. */
  function MathsymChoice(tables: SymbolTables, mm: MetricMap, value: string, mode: Mode,
                         options: Option<Options>, classes: set<CssClass>)
    : (r: Result<(string, set<CssClass>)>)
    ensures options.Some? && options.value.font == "boldsymbol" &&
            HasGlyph(tables, mm, value, "Main-Bold", mode) == Ok(true) ==>
              r == Ok(("Main-Bold", classes + {mathbf}))
    ensures !(options.Some? && options.value.font == "boldsymbol") ||
            HasGlyph(tables, mm, value, "Main-Bold", mode) == Ok(false) ==>
              r == if value == "\\" || (value in tables.Get(mode) && tables.Get(mode)[value].font == "main")
                   then Ok(("Main-Regular", classes))
                   else Ok(("AMS-Regular", classes + {amsrm}))
    ensures r.Err? ==> options.Some? && options.value.font == "boldsymbol" &&
                       HasGlyph(tables, mm, value, "Main-Bold", mode).Err? &&
                       r.error == HasGlyph(tables, mm, value, "Main-Bold", mode).error
  {
    var bold :-
      if options.Some? && options.value.font == "boldsymbol" then HasGlyph(tables, mm, value, "Main-Bold", mode)
      else Ok(false);
    if bold then Ok(("Main-Bold", classes + {mathbf}))
    else if value == "\\" || (value in tables.Get(mode) && tables.Get(mode)[value].font == "main") then
      Ok(("Main-Regular", classes))
    else Ok(("AMS-Regular", classes + {amsrm}))
  }

  /** knownFontNameToCssClass: the seven families it knows; every other name,
      including mathbf, mathit and mathrm, is not implemented. */
  function KnownFontNameToCssClass(fontName: string): (r: Result<CssClass>)
    ensures r.Err? <==>
              fontName !in {"amsrm", "textrm", "textsf", "texttt", "mathcal", "mathbb", "mathscr"}
    ensures r.Err? ==> r.error == CustomFontNotImplemented(fontName)
  {
    match fontName
    case "amsrm" => Ok(amsrm)
    case "textrm" => Ok(textrm)
    case "textsf" => Ok(textsf)
    case "texttt" => Ok(texttt)
    case "mathcal" => Ok(mathcal)
    case "mathbb" => Ok(mathbb)
    case "mathscr" => Ok(mathscr)
    case _ => Err(CustomFontNotImplemented(fontName))
  }

  /** The class is the family's own name, for each family it knows. */
  lemma KnownFontClassIsNamesake()
    ensures KnownFontNameToCssClass("amsrm") == Ok(amsrm)
    ensures KnownFontNameToCssClass("textrm") == Ok(textrm)
    ensures KnownFontNameToCssClass("textsf") == Ok(textsf)
    ensures KnownFontNameToCssClass("texttt") == Ok(texttt)
    ensures KnownFontNameToCssClass("mathcal") == Ok(mathcal)
    ensures KnownFontNameToCssClass("mathbb") == Ok(mathbb)
    ensures KnownFontNameToCssClass("mathscr") == Ok(mathscr)
    ensures KnownFontNameToCssClass("mathbf").Err? && KnownFontNameToCssClass("mathit").Err?
  {
  }

  /** The font-name prefix of a text family; unknown families are used as is. */
  function BaseFontName(fontFamily: string): string
  {
    match fontFamily
    case "amsrm" => "AMS"
    case "textrm" => "Main"
    case "textsf" => "SansSerif"
    case "texttt" => "Typewriter"
    case _ => fontFamily
  }

  /** The style suffix: the weight decides, the shape counts only together
      with bold, and an italic *weight* (not shape) gives Italic. */
  function FontStylesName(fontWeight: CssClass, fontShape: CssClass): (s: string)
    ensures s in {"BoldItalic", "Bold", "Italic", "Regular"}
  {
    if fontWeight == textbf && fontShape == textit then "BoldItalic"
    else if fontWeight == textbf then "Bold"
    else if fontWeight == textit then "Italic"
    else "Regular"
  }

  /** retrieveTextFontName: "<base>-<style>". */
  function RetrieveTextFontName(fontFamily: string, fontWeight: CssClass, fontShape: CssClass)
    : (name: string)
  {
    BaseFontName(fontFamily) + "-" + FontStylesName(fontWeight, fontShape)
  }

  /** The shape is ignored unless the weight is bold: an italic shape alone
      still gives a Regular font. */
  lemma {:induction false} ShapeMattersOnlyWhenBold(fontFamily: string, w: CssClass, s1: CssClass, s2: CssClass)
    requires w != textbf
    ensures RetrieveTextFontName(fontFamily, w, s1) == RetrieveTextFontName(fontFamily, w, s2)
    ensures RetrieveTextFontName("textrm", EMPTY, textit) == "Main-Regular"
    ensures RetrieveTextFontName("textrm", textbf, textit) == "Main-BoldItalic"
    ensures RetrieveTextFontName("textrm", textit, EMPTY) == "Main-Italic"
  {
  }

  /** An entry of fontMap: the MathML variant and the metric font name. */
  datatype FontMapElem = FontMapElem(variant: string, fontName: string)

  /** fontMap, for the ten font commands it knows. */
  function FontMap(name: string): (r: Option<FontMapElem>)
    ensures r.Some? <==> name in {"mathbf", "mathrm", "textit", "mathit", "mathbb", "mathcal",
                                  "mathfrak", "mathscr", "mathsf", "mathtt"}
  {
    match name
    case "mathbf" => Some(FontMapElem("bold", "Main-Bold"))
    case "mathrm" => Some(FontMapElem("normal", "Main-Regular"))
    case "textit" => Some(FontMapElem("italic", "Main-Italic"))
    case "mathit" => Some(FontMapElem("italic", "Main-Italic"))
    case "mathbb" => Some(FontMapElem("double-struck", "AMS-Regular"))
    case "mathcal" => Some(FontMapElem("script", "Caligraphic-Regular"))
    case "mathfrak" => Some(FontMapElem("fraktur", "Fraktur-Regular"))
    case "mathscr" => Some(FontMapElem("script", "Script-Regular"))
    case "mathsf" => Some(FontMapElem("sans-serif", "SansSerif-Regular"))
    case "mathtt" => Some(FontMapElem("monospace", "Typewriter-Regular"))
    case _ => None
  }

  /** fontMap.getValue: a missing key throws. */
  function FontMapValue(name: string): (r: Result<FontMapElem>)
    ensures FontMap(name).None? <==> r == Err(NoSuchFont(name))
    ensures FontMap(name).Some? ==> r == Ok(FontMap(name).value)
  {
    match FontMap(name)
    case None => Err(NoSuchFont(name))
    case Some(e) => Ok(e)
  }

  /** The explicitly chosen font of makeOrd for a non-empty font or family:
      the font name and the classes it adds. */
  function ExplicitFont(tables: SymbolTables, mm: MetricMap, text: string, mode: Mode,
                        options: Options, isFont: bool, fontOrFamily: string)
    : (r: Result<(string, set<CssClass>)>)
  {
    if fontOrFamily == "boldsymbol" || fontOrFamily == "mathnormal" then
      var choice :- if fontOrFamily == "boldsymbol" then Boldsymbol(tables, mm, text, mode)
                    else Mathnormal(text);
      Ok((choice.fontName, {choice.fontClass}))
    else if text in MathitLetters then
      Ok(("Main-Italic", {mathit}))
    else if isFont then
      var elem :- FontMapValue(fontOrFamily);
      var cls :- KnownFontNameToCssClass(fontOrFamily);
      Ok((elem.fontName, {cls}))
    else
      var name := RetrieveTextFontName(fontOrFamily, options.fontWeight, options.fontShape);
      var cls :- KnownFontNameToCssClass(fontOrFamily);
      Ok((name, {cls, options.fontWeight, options.fontShape}))
  }

  /** The default font of makeOrd: mathdefault for a mathord; for a textord the
      font tag of its symbol table entry picks the text family. */
  function DefaultOrdFont(tables: SymbolTables, group: ParseNode, options: Options)
    : (r: Result<(string, set<CssClass>)>)
    requires group.MathOrd? || group.TextOrd?
  {
    if group.MathOrd? then
      var choice :- Mathdefault(group.text);
      Ok((choice.fontName, {mord, choice.fontClass}))
    else
      var w, s := options.fontWeight, options.fontShape;
      var t := tables.Get(group.mode);
      var font := if group.text in t then Some(t[group.text].font) else None;
      if font == Some("ams") then
        Ok((RetrieveTextFontName("amsrm", w, s), {mord, amsrm, w, s}))
      else if font == Some("main") || font.None? then
        Ok((RetrieveTextFontName("textrm", w, s), {mord, w, s}))
      else
        Ok((RetrieveTextFontName(font.value, w, s), {mord, w, s}))
  }

  /** Whether makeOrd reads the font command rather than the text family: in
      math mode, and in text mode under an old-style font such as \rm. */
  predicate OrdIsFont(mode: Mode, options: Options)
  {
    mode == Math || (mode == Text && options.font != "")
  }

  /** The font command or text family makeOrd tries first. */
  function OrdFontOrFamily(mode: Mode, options: Options): string
  {
    if OrdIsFont(mode, options) then options.font else options.fontFamily
  }

  /** makeOrd's decision: the font and the full class set of the symbol it
      makes.  An explicit font is used only when it has the glyph; otherwise
      the default font of the node's kind is used. */
  function OrdChoice(tables: SymbolTables, mm: MetricMap, group: ParseNode, options: Options)
    : (r: Result<(string, set<CssClass>)>)
    ensures !(group.MathOrd? || group.TextOrd?) ==> r == Err(UnexpectedNodeShape("makeOrd"))
    ensures r.Ok? ==> mord in r.value.1
  {
    if !(group.MathOrd? || group.TextOrd?) then Err(UnexpectedNodeShape("makeOrd"))
    else
      var mode, text := group.mode, group.text;
      var isFont := OrdIsFont(mode, options);
      var fontOrFamily := OrdFontOrFamily(mode, options);
      if fontOrFamily != "" then
        var (fontName, fontClasses) :- ExplicitFont(tables, mm, text, mode, options, isFont, fontOrFamily);
        var has :- HasGlyph(tables, mm, text, fontName, mode);
        if has then Ok((fontName, {mord} + fontClasses))
        else DefaultOrdFont(tables, group, options)
      else DefaultOrdFont(tables, group, options)
  }

  /** The whole of makeOrd's font choice: without a font or family the default
      font of the node's kind is used; otherwise the explicit font is used,
      with mord added to its classes, exactly when it resolves and has the
      glyph; when it lacks the glyph the default font is used; an error of
      the explicit choice or of the glyph lookup is passed on. */
  lemma {:induction false} OrdChoiceDecision(tables: SymbolTables, mm: MetricMap, group: ParseNode, options: Options)
    requires group.MathOrd? || group.TextOrd?
    ensures var f := OrdFontOrFamily(group.mode, options);
            var e := ExplicitFont(tables, mm, group.text, group.mode, options, OrdIsFont(group.mode, options), f);
            var r := OrdChoice(tables, mm, group, options);
            && (f == "" ==> r == DefaultOrdFont(tables, group, options))
            && (f != "" && e.Err? ==> r == Err(e.error))
            && (f != "" && e.Ok? ==>
                  var h := HasGlyph(tables, mm, group.text, e.value.0, group.mode);
                  && (h.Err? ==> r == Err(h.error))
                  && (h == Ok(true) ==> r == Ok((e.value.0, {mord} + e.value.1)))
                  && (h == Ok(false) ==> r == DefaultOrdFont(tables, group, options)))
  {
  }

  /** The default font of a mathord is mathdefault's, with mord; a textord
      whose symbol is an AMS symbol gets the amsrm family. */
  lemma {:induction false} DefaultOrdFontChoice(tables: SymbolTables, group: ParseNode, options: Options)
    requires group.MathOrd? || group.TextOrd?
    ensures var r := DefaultOrdFont(tables, group, options);
            && (group.MathOrd? ==>
                  (Mathdefault(group.text).Err? ==> r == Err(Mathdefault(group.text).error)) &&
                  (Mathdefault(group.text).Ok? ==>
                     r == Ok((Mathdefault(group.text).value.fontName,
                              {mord, Mathdefault(group.text).value.fontClass}))))
            && (group.TextOrd? ==> r.Ok? && mord in r.value.1)
            && (var t := tables.Get(group.mode);
                group.TextOrd? && group.text in t && t[group.text].font == "ams" ==>
                  && r.Ok? && amsrm in r.value.1
                  && r.value.0 == RetrieveTextFontName("amsrm", options.fontWeight, options.fontShape))
  {
  }

  /** A mathord with no font at all is set by mathdefault, in Math-Italic. */
  lemma {:induction false} PlainMathOrdIsMathItalic(tables: SymbolTables, mm: MetricMap, text: string, options: Options)
    requires options.font == "" && text != []
    ensures var r := OrdChoice(tables, mm, MathOrd(Math, text), options);
            r.Ok? && r.value.0 == "Math-Italic" &&
            r.value.1 == {mord, if IsDigit(text[0]) || text in MathitLetters then mathit else mathdefault}
  {
  }

  /** A math-mode font the class table does not know (\mathbf, \mathrm, ...)
      ends makeOrd with an exception, unless it is a Main-Italic letter; an
      unknown font command does too. */
  lemma {:induction false} UnknownMathFontThrows(tables: SymbolTables, mm: MetricMap, text: string, options: Options)
    requires options.font in {"mathbf", "mathrm", "mathit", "mathfrak", "mathsf", "mathtt", "bogus"}
    requires text !in MathitLetters
    ensures OrdChoice(tables, mm, MathOrd(Math, text), options).Err?
  {
    var f := options.font;
    assert ExplicitFont(tables, mm, text, Math, options, true, f).Err?;
  }

  /** A Main-Italic letter under an explicit font is drawn in Main-Italic when
      that font has it. */
  lemma {:induction false} MathitLetterUnderExplicitFont(tables: SymbolTables, mm: MetricMap, text: string, options: Options)
    requires options.font != "" && options.font != "boldsymbol" && options.font != "mathnormal"
    requires text in MathitLetters
    requires HasGlyph(tables, mm, text, "Main-Italic", Math) == Ok(true)
    ensures OrdChoice(tables, mm, MathOrd(Math, text), options) == Ok(("Main-Italic", {mord, mathit}))
  {
    var e := ExplicitFont(tables, mm, text, Math, options, true, options.font);
    assert e == Ok(("Main-Italic", {mathit}));
    var (fontName, fontClasses) := e.value;
    assert fontName == "Main-Italic";
    assert {mord} + fontClasses == {mord, mathit};
  }

  /** The italic correction makeSymbol keeps: none in text mode or under the
      mathit font. */
  function SymbolItalic(m: CharacterMetrics, mode: Mode, options: Option<Options>): real
  {
    if mode == Text || (options.Some? && options.value.font == "mathit") then 0.0 else m.italic
  }

  /** The symbol box makeSymbol builds for `inValue` in `fontName`. */
  function SymbolBox(tables: SymbolTables, mm: MetricMap, inValue: string, fontName: string,
                     mode: Mode, options: Option<Options>, classes: set<CssClass>)
    : (r: Result<Box>)
    ensures LookupSymbol(tables, mm, inValue, fontName, mode).Err? ==>
              r == Err(LookupSymbol(tables, mm, inValue, fontName, mode).error)
    ensures r.Ok? ==> r.value.kind == SymbolNode && r.value.text == ReplacedValue(tables, inValue, mode)
  {
    var (value, metrics) :- LookupSymbol(tables, mm, inValue, fontName, mode);
    var b :=
      if metrics.Some? then
        var m := metrics.value;
        Box(SymbolNode, classes, DefaultStyle, m.height, m.depth, 0.0, value,
            SymbolItalic(m, mode, options), m.skew, m.width)
      else Box(SymbolNode, classes, DefaultStyle, 0.0, 0.0, 0.0, value, 0.0, 0.0, 0.0);
    if options.Some? then
      var o := options.value;
      Ok(b.(maxFontSize := o.sizeMultiplier,
            klasses := if o.style.isTight then classes + {mtight} else classes,
            style := if o.color.Some? then b.style.(color := o.color) else b.style))
    else Ok(b)
  }

  /** What makeSymbol promises about the box: missing metrics give an all-zero
      box rather than an error; the italic correction is dropped in text mode
      and under mathit; with options the box takes the size multiplier as its
      maximum font size, gets mtight exactly in a tight style and takes the
      colour when there is one; without options it keeps its classes and has
      no maximum font size and no colour. */
  lemma {:induction false} SymbolBoxProperties(tables: SymbolTables, mm: MetricMap, inValue: string, fontName: string,
                            mode: Mode, options: Option<Options>, classes: set<CssClass>)
    requires LookupSymbol(tables, mm, inValue, fontName, mode).Ok?
    ensures var r := SymbolBox(tables, mm, inValue, fontName, mode, options, classes);
            var m := LookupSymbol(tables, mm, inValue, fontName, mode).value.1;
            && r.Ok?
            && (m.None? ==> r.value.height == r.value.depth == r.value.italic ==
                             r.value.skew == r.value.width == 0.0)
            && (m.Some? ==> r.value.height == m.value.height && r.value.depth == m.value.depth &&
                             r.value.skew == m.value.skew && r.value.width == m.value.width)
            && (mode == Text || (options.Some? && options.value.font == "mathit") ==> r.value.italic == 0.0)
            && (m.Some? && mode == Math && !(options.Some? && options.value.font == "mathit") ==>
                  r.value.italic == m.value.italic)
            && (options.Some? ==>
                  && r.value.maxFontSize == options.value.sizeMultiplier
                  && (mtight in r.value.klasses <==> options.value.style.isTight || mtight in classes)
                  && r.value.klasses - {mtight} == classes - {mtight}
                  && r.value.style.color == (if options.value.color.Some? then options.value.color else None))
            && (options.None? ==> r.value.maxFontSize == 0.0 && r.value.klasses == classes &&
                                  r.value.style == DefaultStyle)
  {
  }
}
