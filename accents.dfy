/** The accent-composition tables of Symbols.kt, exposed read only: for a
    combining accent, the text-mode and math-mode accent commands; for a
    precomposed character, its base letter followed by its combining accents. */
module Accents {
  import opened Common

  /** The text-mode and math-mode commands of one combining accent. */
  datatype AccentRelation = AccentRelation(text: string, math: string)

  /** unicodeAccents, read only. */
  function UnicodeAccent(c: char): Option<AccentRelation>
  {
    match c
    case '\U{301}' => Some(AccentRelation("\\'", "\\acute"))
    case '\U{300}' => Some(AccentRelation("\\`", "\\grave"))
    case '\U{308}' => Some(AccentRelation("\\\"", "\\ddot"))
    case '\U{303}' => Some(AccentRelation("\\~", "\\tilde"))
    case '\U{304}' => Some(AccentRelation("\\=", "\\bar"))
    case '\U{306}' => Some(AccentRelation("\\u", "\\breve"))
    case '\U{30c}' => Some(AccentRelation("\\v", "\\check"))
    case '\U{302}' => Some(AccentRelation("\\^", "\\hat"))
    case '\U{307}' => Some(AccentRelation("\\.", "\\dot"))
    case '\U{30a}' => Some(AccentRelation("\\r", "\\mathring"))
    case '\U{30b}' => Some(AccentRelation("\\H", ""))
    case _ => None
  }

  /** unicodeSymbols, read only. */
  function UnicodeSymbol(c: char): Option<string>
  {
    match c
    case '\U{e1}' => Some("a\U{301}")
    case '\U{e0}' => Some("a\U{300}")
    case '\U{e4}' => Some("a\U{308}")
    case '\U{1df}' => Some("a\U{308}\U{304}")
    case '\U{e3}' => Some("a\U{303}")
    case '\U{101}' => Some("a\U{304}")
    case '\U{103}' => Some("a\U{306}")
    case '\U{1eaf}' => Some("a\U{306}\U{301}")
    case '\U{1eb1}' => Some("a\U{306}\U{300}")
    case '\U{1eb5}' => Some("a\U{306}\U{303}")
    case '\U{1ce}' => Some("a\U{30c}")
    case '\U{e2}' => Some("a\U{302}")
    case '\U{1ea5}' => Some("a\U{302}\U{301}")
    case '\U{1ea7}' => Some("a\U{302}\U{300}")
    case '\U{1eab}' => Some("a\U{302}\U{303}")
    case '\U{227}' => Some("a\U{307}")
    case '\U{1e1}' => Some("a\U{307}\U{304}")
    case '\U{e5}' => Some("a\U{30a}")
    case '\U{1fb}' => Some("a\U{30a}\U{301}")
    case '\U{1e03}' => Some("b\U{307}")
    case '\U{107}' => Some("c\U{301}")
    case '\U{10d}' => Some("c\U{30c}")
    case '\U{109}' => Some("c\U{302}")
    case '\U{10b}' => Some("c\U{307}")
    case '\U{10f}' => Some("d\U{30c}")
    case '\U{1e0b}' => Some("d\U{307}")
    case '\U{e9}' => Some("e\U{301}")
    case '\U{e8}' => Some("e\U{300}")
    case '\U{eb}' => Some("e\U{308}")
    case '\U{1ebd}' => Some("e\U{303}")
    case '\U{113}' => Some("e\U{304}")
    case '\U{1e17}' => Some("e\U{304}\U{301}")
    case '\U{1e15}' => Some("e\U{304}\U{300}")
    case '\U{115}' => Some("e\U{306}")
    case '\U{11b}' => Some("e\U{30c}")
    case '\U{ea}' => Some("e\U{302}")
    case '\U{1ebf}' => Some("e\U{302}\U{301}")
    case '\U{1ec1}' => Some("e\U{302}\U{300}")
    case '\U{1ec5}' => Some("e\U{302}\U{303}")
    case '\U{117}' => Some("e\U{307}")
    case '\U{1e1f}' => Some("f\U{307}")
    case '\U{1f5}' => Some("g\U{301}")
    case '\U{1e21}' => Some("g\U{304}")
    case '\U{11f}' => Some("g\U{306}")
    case '\U{1e7}' => Some("g\U{30c}")
    case '\U{11d}' => Some("g\U{302}")
    case '\U{121}' => Some("g\U{307}")
    case '\U{1e27}' => Some("h\U{308}")
    case '\U{21f}' => Some("h\U{30c}")
    case '\U{125}' => Some("h\U{302}")
    case '\U{1e23}' => Some("h\U{307}")
    case '\U{ed}' => Some("i\U{301}")
    case '\U{ec}' => Some("i\U{300}")
    case '\U{ef}' => Some("i\U{308}")
    case '\U{1e2f}' => Some("i\U{308}\U{301}")
    case '\U{129}' => Some("i\U{303}")
    case '\U{12b}' => Some("i\U{304}")
    case '\U{12d}' => Some("i\U{306}")
    case '\U{1d0}' => Some("i\U{30c}")
    case '\U{ee}' => Some("i\U{302}")
    case '\U{1f0}' => Some("j\U{30c}")
    case '\U{135}' => Some("j\U{302}")
    case '\U{1e31}' => Some("k\U{301}")
    case '\U{1e9}' => Some("k\U{30c}")
    case '\U{13a}' => Some("l\U{301}")
    case '\U{13e}' => Some("l\U{30c}")
    case '\U{1e3f}' => Some("m\U{301}")
    case '\U{1e41}' => Some("m\U{307}")
    case '\U{144}' => Some("n\U{301}")
    case '\U{1f9}' => Some("n\U{300}")
    case '\U{f1}' => Some("n\U{303}")
    case '\U{148}' => Some("n\U{30c}")
    case '\U{1e45}' => Some("n\U{307}")
    case '\U{f3}' => Some("o\U{301}")
    case '\U{f2}' => Some("o\U{300}")
    case '\U{f6}' => Some("o\U{308}")
    case '\U{22b}' => Some("o\U{308}\U{304}")
    case '\U{f5}' => Some("o\U{303}")
    case '\U{1e4d}' => Some("o\U{303}\U{301}")
    case '\U{1e4f}' => Some("o\U{303}\U{308}")
    case '\U{22d}' => Some("o\U{303}\U{304}")
    case '\U{14d}' => Some("o\U{304}")
    case '\U{1e53}' => Some("o\U{304}\U{301}")
    case '\U{1e51}' => Some("o\U{304}\U{300}")
    case '\U{14f}' => Some("o\U{306}")
    case '\U{1d2}' => Some("o\U{30c}")
    case '\U{f4}' => Some("o\U{302}")
    case '\U{1ed1}' => Some("o\U{302}\U{301}")
    case '\U{1ed3}' => Some("o\U{302}\U{300}")
    case '\U{1ed7}' => Some("o\U{302}\U{303}")
    case '\U{22f}' => Some("o\U{307}")
    case '\U{231}' => Some("o\U{307}\U{304}")
    case '\U{151}' => Some("o\U{30b}")
    case '\U{1e55}' => Some("p\U{301}")
    case '\U{1e57}' => Some("p\U{307}")
    case '\U{155}' => Some("r\U{301}")
    case '\U{159}' => Some("r\U{30c}")
    case '\U{1e59}' => Some("r\U{307}")
    case '\U{15b}' => Some("s\U{301}")
    case '\U{1e65}' => Some("s\U{301}\U{307}")
    case '\U{161}' => Some("s\U{30c}")
    case '\U{1e67}' => Some("s\U{30c}\U{307}")
    case '\U{15d}' => Some("s\U{302}")
    case '\U{1e61}' => Some("s\U{307}")
    case '\U{1e97}' => Some("t\U{308}")
    case '\U{165}' => Some("t\U{30c}")
    case '\U{1e6b}' => Some("t\U{307}")
    case '\U{fa}' => Some("u\U{301}")
    case '\U{f9}' => Some("u\U{300}")
    case '\U{fc}' => Some("u\U{308}")
    case '\U{1d8}' => Some("u\U{308}\U{301}")
    case '\U{1dc}' => Some("u\U{308}\U{300}")
    case '\U{1d6}' => Some("u\U{308}\U{304}")
    case '\U{1da}' => Some("u\U{308}\U{30c}")
    case '\U{169}' => Some("u\U{303}")
    case '\U{1e79}' => Some("u\U{303}\U{301}")
    case '\U{16b}' => Some("u\U{304}")
    case '\U{1e7b}' => Some("u\U{304}\U{308}")
    case '\U{16d}' => Some("u\U{306}")
    case '\U{1d4}' => Some("u\U{30c}")
    case '\U{fb}' => Some("u\U{302}")
    case '\U{16f}' => Some("u\U{30a}")
    case '\U{171}' => Some("u\U{30b}")
    case '\U{1e7d}' => Some("v\U{303}")
    case '\U{1e83}' => Some("w\U{301}")
    case '\U{1e81}' => Some("w\U{300}")
    case '\U{1e85}' => Some("w\U{308}")
    case '\U{175}' => Some("w\U{302}")
    case '\U{1e87}' => Some("w\U{307}")
    case '\U{1e98}' => Some("w\U{30a}")
    case '\U{1e8d}' => Some("x\U{308}")
    case '\U{1e8b}' => Some("x\U{307}")
    case '\U{fd}' => Some("y\U{301}")
    case '\U{1ef3}' => Some("y\U{300}")
    case '\U{ff}' => Some("y\U{308}")
    case '\U{1ef9}' => Some("y\U{303}")
    case '\U{233}' => Some("y\U{304}")
    case '\U{177}' => Some("y\U{302}")
    case '\U{1e8f}' => Some("y\U{307}")
    case '\U{1e99}' => Some("y\U{30a}")
    case '\U{17a}' => Some("z\U{301}")
    case '\U{17e}' => Some("z\U{30c}")
    case '\U{1e91}' => Some("z\U{302}")
    case '\U{17c}' => Some("z\U{307}")
    case '\U{c1}' => Some("A\U{301}")
    case '\U{c0}' => Some("A\U{300}")
    case '\U{c4}' => Some("A\U{308}")
    case '\U{1de}' => Some("A\U{308}\U{304}")
    case '\U{c3}' => Some("A\U{303}")
    case '\U{100}' => Some("A\U{304}")
    case '\U{102}' => Some("A\U{306}")
    case '\U{1eae}' => Some("A\U{306}\U{301}")
    case '\U{1eb0}' => Some("A\U{306}\U{300}")
    case '\U{1eb4}' => Some("A\U{306}\U{303}")
    case '\U{1cd}' => Some("A\U{30c}")
    case '\U{c2}' => Some("A\U{302}")
    case '\U{1ea4}' => Some("A\U{302}\U{301}")
    case '\U{1ea6}' => Some("A\U{302}\U{300}")
    case '\U{1eaa}' => Some("A\U{302}\U{303}")
    case '\U{226}' => Some("A\U{307}")
    case '\U{1e0}' => Some("A\U{307}\U{304}")
    case '\U{c5}' => Some("A\U{30a}")
    case '\U{1fa}' => Some("A\U{30a}\U{301}")
    case '\U{1e02}' => Some("B\U{307}")
    case '\U{106}' => Some("C\U{301}")
    case '\U{10c}' => Some("C\U{30c}")
    case '\U{108}' => Some("C\U{302}")
    case '\U{10a}' => Some("C\U{307}")
    case '\U{10e}' => Some("D\U{30c}")
    case '\U{1e0a}' => Some("D\U{307}")
    case '\U{c9}' => Some("E\U{301}")
    case '\U{c8}' => Some("E\U{300}")
    case '\U{cb}' => Some("E\U{308}")
    case '\U{1ebc}' => Some("E\U{303}")
    case '\U{112}' => Some("E\U{304}")
    case '\U{1e16}' => Some("E\U{304}\U{301}")
    case '\U{1e14}' => Some("E\U{304}\U{300}")
    case '\U{114}' => Some("E\U{306}")
    case '\U{11a}' => Some("E\U{30c}")
    case '\U{ca}' => Some("E\U{302}")
    case '\U{1ebe}' => Some("E\U{302}\U{301}")
    case '\U{1ec0}' => Some("E\U{302}\U{300}")
    case '\U{1ec4}' => Some("E\U{302}\U{303}")
    case '\U{116}' => Some("E\U{307}")
    case '\U{1e1e}' => Some("F\U{307}")
    case '\U{1f4}' => Some("G\U{301}")
    case '\U{1e20}' => Some("G\U{304}")
    case '\U{11e}' => Some("G\U{306}")
    case '\U{1e6}' => Some("G\U{30c}")
    case '\U{11c}' => Some("G\U{302}")
    case '\U{120}' => Some("G\U{307}")
    case '\U{1e26}' => Some("H\U{308}")
    case '\U{21e}' => Some("H\U{30c}")
    case '\U{124}' => Some("H\U{302}")
    case '\U{1e22}' => Some("H\U{307}")
    case '\U{cd}' => Some("I\U{301}")
    case '\U{cc}' => Some("I\U{300}")
    case '\U{cf}' => Some("I\U{308}")
    case '\U{1e2e}' => Some("I\U{308}\U{301}")
    case '\U{128}' => Some("I\U{303}")
    case '\U{12a}' => Some("I\U{304}")
    case '\U{12c}' => Some("I\U{306}")
    case '\U{1cf}' => Some("I\U{30c}")
    case '\U{ce}' => Some("I\U{302}")
    case '\U{130}' => Some("I\U{307}")
    case '\U{134}' => Some("J\U{302}")
    case '\U{1e30}' => Some("K\U{301}")
    case '\U{1e8}' => Some("K\U{30c}")
    case '\U{139}' => Some("L\U{301}")
    case '\U{13d}' => Some("L\U{30c}")
    case '\U{1e3e}' => Some("M\U{301}")
    case '\U{1e40}' => Some("M\U{307}")
    case '\U{143}' => Some("N\U{301}")
    case '\U{1f8}' => Some("N\U{300}")
    case '\U{d1}' => Some("N\U{303}")
    case '\U{147}' => Some("N\U{30c}")
    case '\U{1e44}' => Some("N\U{307}")
    case '\U{d3}' => Some("O\U{301}")
    case '\U{d2}' => Some("O\U{300}")
    case '\U{d6}' => Some("O\U{308}")
    case '\U{22a}' => Some("O\U{308}\U{304}")
    case '\U{d5}' => Some("O\U{303}")
    case '\U{1e4c}' => Some("O\U{303}\U{301}")
    case '\U{1e4e}' => Some("O\U{303}\U{308}")
    case '\U{22c}' => Some("O\U{303}\U{304}")
    case '\U{14c}' => Some("O\U{304}")
    case '\U{1e52}' => Some("O\U{304}\U{301}")
    case '\U{1e50}' => Some("O\U{304}\U{300}")
    case '\U{14e}' => Some("O\U{306}")
    case '\U{1d1}' => Some("O\U{30c}")
    case '\U{d4}' => Some("O\U{302}")
    case '\U{1ed0}' => Some("O\U{302}\U{301}")
    case '\U{1ed2}' => Some("O\U{302}\U{300}")
    case '\U{1ed6}' => Some("O\U{302}\U{303}")
    case '\U{22e}' => Some("O\U{307}")
    case '\U{230}' => Some("O\U{307}\U{304}")
    case '\U{150}' => Some("O\U{30b}")
    case '\U{1e54}' => Some("P\U{301}")
    case '\U{1e56}' => Some("P\U{307}")
    case '\U{154}' => Some("R\U{301}")
    case '\U{158}' => Some("R\U{30c}")
    case '\U{1e58}' => Some("R\U{307}")
    case '\U{15a}' => Some("S\U{301}")
    case '\U{1e64}' => Some("S\U{301}\U{307}")
    case '\U{160}' => Some("S\U{30c}")
    case '\U{1e66}' => Some("S\U{30c}\U{307}")
    case '\U{15c}' => Some("S\U{302}")
    case '\U{1e60}' => Some("S\U{307}")
    case '\U{164}' => Some("T\U{30c}")
    case '\U{1e6a}' => Some("T\U{307}")
    case '\U{da}' => Some("U\U{301}")
    case '\U{d9}' => Some("U\U{300}")
    case '\U{dc}' => Some("U\U{308}")
    case '\U{1d7}' => Some("U\U{308}\U{301}")
    case '\U{1db}' => Some("U\U{308}\U{300}")
    case '\U{1d5}' => Some("U\U{308}\U{304}")
    case '\U{1d9}' => Some("U\U{308}\U{30c}")
    case '\U{168}' => Some("U\U{303}")
    case '\U{1e78}' => Some("U\U{303}\U{301}")
    case '\U{16a}' => Some("U\U{304}")
    case '\U{1e7a}' => Some("U\U{304}\U{308}")
    case '\U{16c}' => Some("U\U{306}")
    case '\U{1d3}' => Some("U\U{30c}")
    case '\U{db}' => Some("U\U{302}")
    case '\U{16e}' => Some("U\U{30a}")
    case '\U{170}' => Some("U\U{30b}")
    case '\U{1e7c}' => Some("V\U{303}")
    case '\U{1e82}' => Some("W\U{301}")
    case '\U{1e80}' => Some("W\U{300}")
    case '\U{1e84}' => Some("W\U{308}")
    case '\U{174}' => Some("W\U{302}")
    case '\U{1e86}' => Some("W\U{307}")
    case '\U{1e8c}' => Some("X\U{308}")
    case '\U{1e8a}' => Some("X\U{307}")
    case '\U{dd}' => Some("Y\U{301}")
    case '\U{1ef2}' => Some("Y\U{300}")
    case '\U{178}' => Some("Y\U{308}")
    case '\U{1ef8}' => Some("Y\U{303}")
    case '\U{232}' => Some("Y\U{304}")
    case '\U{176}' => Some("Y\U{302}")
    case '\U{1e8e}' => Some("Y\U{307}")
    case '\U{179}' => Some("Z\U{301}")
    case '\U{17d}' => Some("Z\U{30c}")
    case '\U{1e90}' => Some("Z\U{302}")
    case '\U{17b}' => Some("Z\U{307}")
    case '\U{3ac}' => Some("\U{3b1}\U{301}")
    case '\U{1f70}' => Some("\U{3b1}\U{300}")
    case '\U{1fb1}' => Some("\U{3b1}\U{304}")
    case '\U{1fb0}' => Some("\U{3b1}\U{306}")
    case '\U{3ad}' => Some("\U{3b5}\U{301}")
    case '\U{1f72}' => Some("\U{3b5}\U{300}")
    case '\U{3ae}' => Some("\U{3b7}\U{301}")
    case '\U{1f74}' => Some("\U{3b7}\U{300}")
    case '\U{3af}' => Some("\U{3b9}\U{301}")
    case '\U{1f76}' => Some("\U{3b9}\U{300}")
    case '\U{3ca}' => Some("\U{3b9}\U{308}")
    case '\U{390}' => Some("\U{3b9}\U{308}\U{301}")
    case '\U{1fd2}' => Some("\U{3b9}\U{308}\U{300}")
    case '\U{1fd1}' => Some("\U{3b9}\U{304}")
    case '\U{1fd0}' => Some("\U{3b9}\U{306}")
    case '\U{3cc}' => Some("\U{3bf}\U{301}")
    case '\U{1f78}' => Some("\U{3bf}\U{300}")
    case '\U{3cd}' => Some("\U{3c5}\U{301}")
    case '\U{1f7a}' => Some("\U{3c5}\U{300}")
    case '\U{3cb}' => Some("\U{3c5}\U{308}")
    case '\U{3b0}' => Some("\U{3c5}\U{308}\U{301}")
    case '\U{1fe2}' => Some("\U{3c5}\U{308}\U{300}")
    case '\U{1fe1}' => Some("\U{3c5}\U{304}")
    case '\U{1fe0}' => Some("\U{3c5}\U{306}")
    case '\U{3ce}' => Some("\U{3c9}\U{301}")
    case '\U{1f7c}' => Some("\U{3c9}\U{300}")
    case '\U{38e}' => Some("\U{3a5}\U{301}")
    case '\U{1fea}' => Some("\U{3a5}\U{300}")
    case '\U{3ab}' => Some("\U{3a5}\U{308}")
    case '\U{1fe9}' => Some("\U{3a5}\U{304}")
    case '\U{1fe8}' => Some("\U{3a5}\U{306}")
    case '\U{38f}' => Some("\U{3a9}\U{301}")
    case '\U{1ffa}' => Some("\U{3a9}\U{300}")
    case _ => None
  }

  /** Two sample entries: a with acute accent, and the double acute accent,
      which has no math-mode command. */
  lemma SampleEntries()
    ensures UnicodeSymbol('\U{e1}') == Some("a\U{301}")
    ensures UnicodeAccent('\U{30b}') == Some(AccentRelation("\\H", ""))
  {
  }
}
