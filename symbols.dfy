/** The metric resolver: symbol tables, the approximate-glyph table, and the
    lookup of a glyph's metrics in a font's metric table (Symbols.kt). */
module Symbols {
  import opened Common

  /** One glyph's box in one font, in em. */
  datatype CharacterMetrics = CharacterMetrics(
    depth: real, height: real, italic: real, skew: real, width: real)

  /** A row of the font-metric data; every row carries (at least) the five
      numbers depth, height, italic, skew and width, in that order. */
  type MetricRow = r: seq<real> | |r| >= 5 witness [0.0, 0.0, 0.0, 0.0, 0.0]

  /** Metric table of one font, keyed by the decimal code point of a character. */
  type FontTable = map<string, MetricRow>

  /** All metric tables, keyed by font name ("Main-Regular", ...). */
  type MetricMap = map<string, FontTable>

  /** A symbol table entry: the font tag ("main", "ams", ...), the symbol group
      and its optional replacement text. */
  datatype CharInfo = CharInfo(font: string, group: string, replace: Option<string>)

  /** The two symbol tables, one per mode. */
  datatype SymbolTables = SymbolTables(
    mathMap: map<string, CharInfo>, textMap: map<string, CharInfo>)
  {
    /** The table for `mode`. */
    function Get(mode: Mode): (m: map<string, CharInfo>)
      ensures m == if mode == Math then mathMap else textMap
    {
      if mode == Math then mathMap else textMap
    }
  }

  /** The other mode. */
  function OtherMode(mode: Mode): (o: Mode)
    ensures o != mode
  {
    if mode == Math then Text else Math
  }

  /** The approximate-glyph table (extraCharacterMap), read only.  Very rough
      approximations: Latin-1 and Cyrillic letters that the fonts lack, each
      mapped to a visually similar letter whose metrics stand in for it. */
  function ExtraCharacter(c: char): Option<char>
  {
    match c
    case 'Å' => Some('A')
    case 'Ç' => Some('C')
    case 'Ð' => Some('D')
    case 'Þ' => Some('o')
    case 'å' => Some('a')
    case 'ç' => Some('c')
    case 'ð' => Some('d')
    case 'þ' => Some('o')
    case 'А' => Some('A')
    case 'Б' => Some('B')
    case 'В' => Some('B')
    case 'Г' => Some('F')
    case 'Д' => Some('A')
    case 'Е' => Some('E')
    case 'Ж' => Some('K')
    case 'З' => Some('3')
    case 'И' => Some('N')
    case 'Й' => Some('N')
    case 'К' => Some('K')
    case 'Л' => Some('N')
    case 'М' => Some('M')
    case 'Н' => Some('H')
    case 'О' => Some('O')
    case 'П' => Some('N')
    case 'Р' => Some('P')
    case 'С' => Some('C')
    case 'Т' => Some('T')
    case 'У' => Some('y')
    case 'Ф' => Some('O')
    case 'Х' => Some('X')
    case 'Ц' => Some('U')
    case 'Ч' => Some('h')
    case 'Ш' => Some('W')
    case 'Щ' => Some('W')
    case 'Ъ' => Some('B')
    case 'Ы' => Some('X')
    case 'Ь' => Some('B')
    case 'Э' => Some('3')
    case 'Ю' => Some('X')
    case 'Я' => Some('R')
    case 'а' => Some('a')
    case 'б' => Some('b')
    case 'в' => Some('a')
    case 'г' => Some('r')
    case 'д' => Some('y')
    case 'е' => Some('e')
    case 'ж' => Some('m')
    case 'з' => Some('e')
    case 'и' => Some('n')
    case 'й' => Some('n')
    case 'к' => Some('n')
    case 'л' => Some('n')
    case 'м' => Some('m')
    case 'н' => Some('n')
    case 'о' => Some('o')
    case 'п' => Some('n')
    case 'р' => Some('p')
    case 'с' => Some('c')
    case 'т' => Some('o')
    case 'у' => Some('y')
    case 'ф' => Some('b')
    case 'х' => Some('x')
    case 'ц' => Some('n')
    case 'ч' => Some('n')
    case 'ш' => Some('w')
    case 'щ' => Some('w')
    case 'ъ' => Some('a')
    case 'ы' => Some('m')
    case 'ь' => Some('a')
    case 'э' => Some('e')
    case 'ю' => Some('m')
    case 'я' => Some('r')
    case _ => None
  }

  /** Only characters of the Basic Multilingual Plane have a stand-in, and every
      stand-in is an ASCII character that has no stand-in of its own. */
  lemma {:induction false} StandInsAreAscii(c: char)
    requires ExtraCharacter(c).Some?
    ensures c as int < 0x1_0000
    ensures ExtraCharacter(c).value as int < 128
    ensures ExtraCharacter(ExtraCharacter(c).value).None?
  {
  }

  /** The character whose metrics are looked up for `c`. */
  function Approximate(c: char): char
  {
    if ExtraCharacter(c).Some? then ExtraCharacter(c).value else c
  }

  /** Every code point counts as supported. */
  function SupportedCodepoint(ch: int): bool
  {
    true
  }

  // ---------------------------------------------------------------------
  // Decimal rendering of a code point (Int.toString) and its inverse.

  function DigitChar(d: nat): (c: char)
    requires d < 10
    ensures '0' <= c <= '9' && c as int - '0' as int == d
  {
    ('0' as int + d) as char
  }

  function DigitValue(c: char): nat
    requires '0' <= c <= '9'
  {
    c as int - '0' as int
  }

  /** The decimal digits of `n`, most significant first, without leading zeros. */
  function DecimalString(n: nat): (s: string)
    ensures |s| >= 1
    ensures forall i :: 0 <= i < |s| ==> '0' <= s[i] <= '9'
    ensures s[0] == '0' ==> n == 0 && s == "0"
  {
    if n < 10 then [DigitChar(n)] else DecimalString(n / 10) + [DigitChar(n % 10)]
  }

  /** The number a string of decimal digits denotes. */
  function DecimalValue(s: string): nat
    requires forall i :: 0 <= i < |s| ==> '0' <= s[i] <= '9'
  {
    if s == [] then 0 else DecimalValue(s[..|s| - 1]) * 10 + DigitValue(s[|s| - 1])
  }

  /** Reading back the decimal string of `n` gives `n`. */
  lemma {:induction false} DecimalRoundTrip(n: nat)
    ensures DecimalValue(DecimalString(n)) == n
  {
    var s := DecimalString(n);
    if n >= 10 {
      DecimalRoundTrip(n / 10);
      assert s[..|s| - 1] == DecimalString(n / 10);
    }
  }

  /** Distinct code points have distinct keys. */
  lemma {:induction false} DecimalStringInjective(m: nat, n: nat)
    requires DecimalString(m) == DecimalString(n)
    ensures m == n
  {
    DecimalRoundTrip(m);
    DecimalRoundTrip(n);
  }

  /** The first UTF-16 code unit of `c`, which is what indexing a Kotlin string
      reads: `c` itself in the Basic Multilingual Plane, its high surrogate
      above U+FFFF. */
  function FirstCodeUnit(c: char): (u: nat)
    ensures u < 0x1_0000
    ensures c as int < 0x1_0000 ==> u == c as int
    ensures c as int >= 0x1_0000 ==>
              0xD800 <= u < 0xDC00 && c as int / 0x400 == u - 0xD800 + 0x40
  {
    if c as int < 0x1_0000 then c as int else 0xD800 + (c as int - 0x1_0000) / 0x400
  }

  /** The code whose metrics are looked up for `c`: the code of its stand-in
      when it has one, else its first UTF-16 code unit.  A character above
      U+FFFF starts with a high surrogate, which has no stand-in. */
  function LookupCode(c: char): nat
  {
    if c as int < 0x1_0000 then Approximate(c) as int else FirstCodeUnit(c)
  }

  /** The key under which the metrics of `c` are stored: the decimal rendering
      of its lookup code. */
  function MetricKey(c: char): string
  {
    DecimalString(LookupCode(c))
  }

  /** Key "77" is the key of the capital M. */
  lemma CapitalMKey()
    ensures MetricKey('M') == "77"
  {
    assert DecimalString(7) == "7";
  }

  /** A metric row read as metrics: entries 0 to 4 are depth, height, italic,
      skew and width. */
  function FromRow(row: MetricRow): (m: CharacterMetrics)
    ensures m.depth == row[0] && m.height == row[1] && m.italic == row[2]
    ensures m.skew == row[3] && m.width == row[4]
  {
    CharacterMetrics(row[0], row[1], row[2], row[3], row[4])
  }

  /** getCharacterMetrics: the metrics of the first character of `character` in
      `font`.  The approximate-glyph substitution is applied before the lookup,
      whether or not the font has the original character; a miss in TEXT mode
      falls back to the metrics of "M". */
  function GetCharacterMetrics(mm: MetricMap, character: string, font: string, mode: Mode)
    : (r: Result<Option<CharacterMetrics>>)
    ensures font !in mm <==> r == Err(MissingFontMetrics(font))
    ensures font in mm && character == [] ==> r == Err(EmptyText)
    ensures font in mm && character != [] ==> r.Ok?
    ensures font in mm && character != [] && MetricKey(character[0]) in mm[font] ==>
              r == Ok(Some(FromRow(mm[font][MetricKey(character[0])])))
    ensures font in mm && character != [] && MetricKey(character[0]) !in mm[font] ==>
              r == if mode == Text && "77" in mm[font] then Ok(Some(FromRow(mm[font]["77"])))
                   else Ok(None)
  {
    if font !in mm then Err(MissingFontMetrics(font))
    else
      var metmap := mm[font];
      if character == [] then Err(EmptyText)
      else
        var chInt := LookupCode(character[0]);
        var ch := DecimalString(chInt);
        var metric: Option<MetricRow> := if ch in metmap then Some(metmap[ch]) else None;
        var metric' :=
          if metric.None? && mode == Text && SupportedCodepoint(chInt) then
            (if "77" in metmap then Some(metmap["77"]) else None)
          else metric;
        if metric'.None? then Ok(None)
        else Ok(Some(FromRow(metric'.value)))
  }

  /** Only the first character of the string is looked up. */
  lemma {:induction false} OnlyFirstCharacterCounts(mm: MetricMap, c: char, rest: string, font: string, mode: Mode)
    ensures GetCharacterMetrics(mm, [c] + rest, font, mode) == GetCharacterMetrics(mm, [c], font, mode)
  {
    assert ([c] + rest)[0] == c;
  }

  /** The substitution is unconditional: a character of the approximate-glyph
      table always gets the metrics of its stand-in, even when the font has an
      entry of its own. */
  lemma {:induction false} SubstitutionIsUnconditional(mm: MetricMap, c: char, font: string, mode: Mode)
    requires ExtraCharacter(c).Some?
    ensures GetCharacterMetrics(mm, [c], font, mode)
         == GetCharacterMetrics(mm, [ExtraCharacter(c).value], font, mode)
  {
    var d := ExtraCharacter(c).value;
    StandInsAreAscii(c);
    assert MetricKey(c) == MetricKey(d);
  }

  /** Above U+FFFF only the high surrogate is read: all characters that share
      it share their metrics. */
  lemma {:induction false} HighSurrogateDecides(mm: MetricMap, c: char, d: char, font: string, mode: Mode)
    requires c as int >= 0x1_0000 && d as int >= 0x1_0000
    requires c as int / 0x400 == d as int / 0x400
    ensures GetCharacterMetrics(mm, [c], font, mode) == GetCharacterMetrics(mm, [d], font, mode)
  {
    assert LookupCode(c) == LookupCode(d);
    assert [c][0] == c && [d][0] == d;
  }

  /** U+1D400 (bold capital A) is looked up under the key "55349" of its high
      surrogate U+D835, not under its own code point. */
  lemma BoldCapitalAKey()
    ensures MetricKey('\U{1D400}') == "55349"
  {
    assert LookupCode('\U{1D400}') == 55349;
    assert DecimalString(5) == "5" && DecimalString(55) == "55" && DecimalString(553) == "553";
    assert DecimalString(5534) == "5534";
  }

  /** Cyrillic capital De uses the metrics of Latin capital A. */
  lemma {:induction false} CyrillicDeUsesA(mm: MetricMap, font: string, mode: Mode)
    ensures GetCharacterMetrics(mm, "Д", font, mode) == GetCharacterMetrics(mm, "A", font, mode)
  {
    assert "Д"[0] == 'Д' && "A"[0] == 'A';
    assert Approximate('Д') == 'A' == Approximate('A');
  }

  /** The value a symbol is drawn with: its replacement when the table of `mode`
      registers one, else the value itself. */
  function ReplacedValue(tables: SymbolTables, value: string, mode: Mode): (v: string)
    ensures value in tables.Get(mode) && tables.Get(mode)[value].replace.Some? ==>
              v == tables.Get(mode)[value].replace.value
    ensures !(value in tables.Get(mode) && tables.Get(mode)[value].replace.Some?) ==> v == value
  {
    var t := tables.Get(mode);
    if value in t && t[value].replace.Some? then t[value].replace.value else value
  }

  /** lookupSymbol: the replaced value together with the metrics of the
      replaced value. */
  function LookupSymbol(tables: SymbolTables, mm: MetricMap, inValue: string, font: string, mode: Mode)
    : (r: Result<(string, Option<CharacterMetrics>)>)
    ensures var v := ReplacedValue(tables, inValue, mode);
            match GetCharacterMetrics(mm, v, font, mode)
            case Ok(m) => r == Ok((v, m))
            case Err(e) => r == Err(e)
  {
    var value := ReplacedValue(tables, inValue, mode);
    var metrics :- GetCharacterMetrics(mm, value, font, mode);
    Ok((value, metrics))
  }

  /** Whether `font` has metrics for the symbol `value` (after replacement);
      a missing metric table is the exception getCharacterMetrics throws. */
  function HasGlyph(tables: SymbolTables, mm: MetricMap, value: string, font: string, mode: Mode)
    : (r: Result<bool>)
    ensures font !in mm ==> r == Err(MissingFontMetrics(font))
    ensures r.Ok? <==> LookupSymbol(tables, mm, value, font, mode).Ok?
    ensures r.Ok? ==> (r.value <==> LookupSymbol(tables, mm, value, font, mode).value.1.Some?)
  {
    var (_, metrics) :- LookupSymbol(tables, mm, value, font, mode);
    Ok(metrics.Some?)
  }

  /** The tables after defineSymbol(mode, font, group, replace, name,
      acceptUnicodeChar). */
  function Define(tables: SymbolTables, mode: Mode, font: string, group: string,
                  replace: Option<string>, name: string, acceptUnicodeChar: bool)
    : (r: SymbolTables)
    ensures var info := CharInfo(font, group, replace);
            && name in r.Get(mode) && r.Get(mode)[name] == info
            && (acceptUnicodeChar && replace.Some? ==>
                  replace.value in r.Get(mode) && r.Get(mode)[replace.value] == info)
    ensures forall k :: k != name && !(acceptUnicodeChar && replace == Some(k)) ==>
              (k in r.Get(mode) <==> k in tables.Get(mode)) &&
              (k in tables.Get(mode) ==> r.Get(mode)[k] == tables.Get(mode)[k])
    ensures r.Get(OtherMode(mode)) == tables.Get(OtherMode(mode))
  {
    var info := CharInfo(font, group, replace);
    var t := tables.Get(mode)[name := info];
    var t' := if acceptUnicodeChar && replace.Some? then t[replace.value := t[name]] else t;
    if mode == Math then tables.(mathMap := t') else tables.(textMap := t')
  }

  /** After defining `name` with a replacement, looking `name` up yields the
      replacement, and so does looking up the replacement itself when it was
      registered as a unicode alias that has no replacement of its own. */
  lemma {:induction false} DefineThenLookup(tables: SymbolTables, mode: Mode, font: string, group: string,
                                            r: string, name: string, acceptUnicodeChar: bool)
    ensures var t := Define(tables, mode, font, group, Some(r), name, acceptUnicodeChar);
            ReplacedValue(t, name, mode) == r &&
            (acceptUnicodeChar ==> ReplacedValue(t, r, mode) == r)
  {
  }

  /** The process-wide symbol tables (the `Symbols` object), filled by
      defineSymbol during initialisation. */
  class SymbolRegistry {
    var mathMap: map<string, CharInfo>
    var textMap: map<string, CharInfo>

    /** Empty tables; the symbol definitions themselves are loaded by the caller. */
    constructor ()
      ensures mathMap == map[] && textMap == map[]
    {
      mathMap := map[];
      textMap := map[];
    }

    function Tables(): SymbolTables
      reads this
    {
      SymbolTables(mathMap, textMap)
    }

    /** Symbols.get(mode). */
    function Get(mode: Mode): (m: map<string, CharInfo>)
      reads this
      ensures m == Tables().Get(mode)
    {
      if mode == Math then mathMap else textMap
    }

    /** defineSymbol: stores CharInfo(font, group, replace) under `name` in the
        table of `mode`, and also under `replace` when unicode characters are
        accepted and there is a replacement. */
    method DefineSymbol(mode: Mode, font: string, group: string, replace: Option<string>,
                        name: string, acceptUnicodeChar: bool)
      modifies this
      ensures Tables() == Define(old(Tables()), mode, font, group, replace, name, acceptUnicodeChar)
    {
      var info := CharInfo(font, group, replace);
      if mode == Math {
        mathMap := mathMap[name := info];
        if acceptUnicodeChar && replace.Some? {
          mathMap := mathMap[replace.value := mathMap[name]];
        }
      } else {
        textMap := textMap[name := info];
        if acceptUnicodeChar && replace.Some? {
          textMap := textMap[replace.value := textMap[name]];
        }
      }
    }
  }
}
