# kotlitex box assembly, metric resolution and markdown math splitting in Dafny

This project models three parts of kotlitex, a Kotlin port of KaTeX that
typesets TeX math for Android, and proves properties of the model.

1. **The render-tree builder** (`RenderTreeBuilder.kt`). It builds render
   nodes (spans and symbols) from parse nodes through a registry of group
   builders. It picks fonts and CSS classes for glyphs. Then it runs the
   assembly passes over the list of built nodes:
   - bin cancellation (rules 5 and 6 of Appendix G of The TeXbook);
   - implicit inter-atom glue from the spacing tables of chapter 18 of The
     TeXbook;
   - merging of compatible neighbouring symbols (`tryCombineChars`);
   - cutting the expression into unbreakable chunks, each with a strut
     (`buildHTML`, `buildHTMLUnbreakable`).
2. **The metric resolver** (`Symbols.kt`). It holds the per-mode symbol
   tables and the approximate-glyph table. It looks up a glyph's metrics by
   the decimal code of the first UTF-16 code unit of the text (after the
   approximate-glyph substitution), with a TEXT-mode fallback
   to the capital M, and applies the symbol tables' replacement aliases.
3. **The markdown math splitter** `MathSpanBuilder` (`view/MarkdownView.kt`).
   It is a two-state, line-by-line machine. It cuts each line into plain
   text, inline `$$…$$` expressions and display math, collects `$$` blocks,
   and reports every piece to a handler.

In the model, code that changes objects in place is a class:
- `RenderNode` and `RenderTreeBuilder` (module `RenderTree`);
- `SymbolRegistry` (module `Symbols`);
- `MathSpanBuilder` and `EventLog` (module `Markdown`).

Their methods carry loops with invariants, as the Kotlin code does. Each
method is proved against a value-level specification written as functions:
- `Spacing.CancelBins`, `Spacing.GluePlan`;
- `Assembly.Combine`, `Assembly.Pieces`;
- `Fonts.SymbolBox`, `Fonts.OrdChoice`;
- `Markdown.Segments`, `Markdown.Step`.

Lemmas then prove what the code promises about those specifications.

Modules, in dependency order:
- `Common`: options, classes, errors and `Result`;
- `Symbols`, `Accents`: the metric resolver and its tables;
- `BoxModel`: render nodes and their value view `Box`;
- `Seqs`: filtering by a mask, and weaving glue in after elements;
- `Spacing`: atom classes, cancellation and spacing tables;
- `Fonts`: font choice and the symbol box;
- `Assembly`: merging and chunking on values;
- `RenderTree`: the builder class and its in-place passes;
- `Markdown`: the splitter.

Exceptions become `Err` values of a `Result`. Each kind of failure gets its
own error value:
- a missing font metric table;
- an unregistered node type (`ParseError`);
- reading the first character of an empty string;
- an unknown font command (`fontMap.getValue`);
- a font family that has no CSS class (`NotImplementedError`);
- a parse node of the wrong shape.

Metrics are Dafny `real`s.

## Model

| member | source | states |
|---|---|---|
| Symbols.ExtraCharacter | kotlitex/src/main/java/io/github/karino2/kotlitex/Symbols.kt:32-108 | none of its own; the table is pinned down by StandInsAreAscii, CyrillicDeUsesA and SubstitutionIsUnconditional |
| Symbols.StandInsAreAscii | kotlitex/src/main/java/io/github/karino2/kotlitex/Symbols.kt:32-108 | only characters below U+10000 have a stand-in; every stand-in of the approximate-glyph table is ASCII and has no stand-in of its own, so one substitution step is final |
| Symbols.DecimalString | kotlitex/src/main/java/io/github/karino2/kotlitex/Symbols.kt:118 | the key is a non-empty string of decimal digits with no leading zero |
| Symbols.DecimalRoundTrip | kotlitex/src/main/java/io/github/karino2/kotlitex/Symbols.kt:118 | reading the decimal key back gives the code point |
| Symbols.DecimalStringInjective | kotlitex/src/main/java/io/github/karino2/kotlitex/Symbols.kt:118 | distinct code points never share a metric key |
| Symbols.CapitalMKey | kotlitex/src/main/java/io/github/karino2/kotlitex/Symbols.kt:131 | "77" is the key of the capital M |
| Symbols.FromRow | kotlitex/src/main/java/io/github/karino2/kotlitex/Symbols.kt:139 | metric entries 0 to 4 become depth, height, italic, skew and width, in that order |
| Symbols.GetCharacterMetrics | kotlitex/src/main/java/io/github/karino2/kotlitex/Symbols.kt:114-140 | a font without a metric table fails, and only then; reading an empty string fails; otherwise the row under the key of the first character's lookup code (its stand-in, or else its first UTF-16 code unit); on a miss, the "77" row in TEXT mode when there is one, and no metrics otherwise |
| Symbols.OnlyFirstCharacterCounts | kotlitex/src/main/java/io/github/karino2/kotlitex/Symbols.kt:117 | characters after the first never change the result |
| Symbols.HighSurrogateDecides | kotlitex/src/main/java/io/github/karino2/kotlitex/Symbols.kt:117 | above U+FFFF only the high surrogate is read, so characters sharing it get the same metrics |
| Symbols.BoldCapitalAKey | kotlitex/src/main/java/io/github/karino2/kotlitex/Symbols.kt:117-118 | U+1D400 is looked up under "55349", the code of its high surrogate |
| Symbols.SubstitutionIsUnconditional | kotlitex/src/main/java/io/github/karino2/kotlitex/Symbols.kt:117 | a character of the approximate-glyph table always gets the metrics of its stand-in, even when the font has its own entry |
| Symbols.CyrillicDeUsesA | kotlitex/src/main/java/io/github/karino2/kotlitex/Symbols.kt:48 | 'Д' resolves exactly as 'A' does |
| Symbols.ReplacedValue | kotlitex/src/main/java/io/github/karino2/kotlitex/Symbols.kt:143-146 | a value is replaced exactly when the table of its mode registers it with a replacement; otherwise it is kept |
| Symbols.LookupSymbol | kotlitex/src/main/java/io/github/karino2/kotlitex/Symbols.kt:142-148 | the replaced value together with the metrics of the replaced value, or the resolver's error |
| Symbols.HasGlyph | kotlitex/src/main/java/io/github/karino2/kotlitex/RenderTreeBuilder.kt:207 | the test `lookupSymbol(...).second != null`: it fails exactly when the lookup fails, and is true exactly when metrics were found |
| Symbols.Define | kotlitex/src/main/java/io/github/karino2/kotlitex/Symbols.kt:150-156 | the entry is stored under the name in the mode's table, and also under the replacement exactly when unicode characters are accepted and there is a replacement; every other key and the other mode's table are unchanged |
| Symbols.DefineThenLookup | kotlitex/src/main/java/io/github/karino2/kotlitex/Symbols.kt:142-156 | after a definition with a replacement, looking the name up gives the replacement, and a unicode alias looks up to itself |
| Symbols.SymbolRegistry.constructor | kotlitex/src/main/java/io/github/karino2/kotlitex/Symbols.kt:20-21 | both tables start empty; the symbol definitions that the source's initialiser loads are supplied afterwards through DefineSymbol |
| Symbols.SymbolRegistry.DefineSymbol | kotlitex/src/main/java/io/github/karino2/kotlitex/Symbols.kt:150-156 | the registry's tables become the `Define` of the old tables |
| Accents.SampleEntries | kotlitex/src/main/java/io/github/karino2/kotlitex/Symbols.kt:161-176 | á decomposes to a and a combining acute; the double acute accent is `\H` in text mode and has no math command |
| BoxModel.RenderNode.Span | kotlitex/src/main/java/io/github/karino2/kotlitex/RenderTreeBuilder.kt:44 | a span stores its classes, children and style, with zero metrics until it is sized |
| BoxModel.RenderNode.Symbol | kotlitex/src/main/java/io/github/karino2/kotlitex/RenderTreeBuilder.kt:127-133 | a symbol stores its text, metrics and classes, with no children, the default style and no maximum font size |
| BoxModel.RenderNode.FromBox | kotlitex/src/main/java/io/github/karino2/kotlitex/RenderTreeBuilder.kt:84 | the node an external builder returns, holding exactly the given box and no children |
| BoxModel.Max | kotlitex/src/main/java/io/github/karino2/kotlitex/RenderTreeBuilder.kt:791-792 | Math.max: at least both arguments and equal to one of them |
| BoxModel.MaxOrZero | kotlitex/src/main/java/io/github/karino2/kotlitex/RenderTreeBuilder.kt:34-36 | 0 for an empty list; otherwise an element that bounds every element |
| Spacing.ClassOf | kotlitex/src/main/java/io/github/karino2/kotlitex/RenderTreeBuilder.kt:495-508 | EMPTY or an atom class that the node has |
| Spacing.ClassOfIsFirstAtomClass | kotlitex/src/main/java/io/github/karino2/kotlitex/RenderTreeBuilder.kt:484-508 | EMPTY exactly when the node has no class of domEnum; otherwise the earliest class of domEnum that the node has |
| Spacing.AtomRank | kotlitex/src/main/java/io/github/karino2/kotlitex/RenderTreeBuilder.kt:484-493 | the position of an atom class in domEnum |
| Spacing.LeftCancels | kotlitex/src/main/java/io/github/karino2/kotlitex/RenderTreeBuilder.kt:513-528 | a missing neighbour cancels exactly in a real group; a present one cancels exactly when its class is bin, open, rel, op or punct |
| Spacing.RightCancels | kotlitex/src/main/java/io/github/karino2/kotlitex/RenderTreeBuilder.kt:530-539 | a missing neighbour cancels exactly in a real group; a present one cancels exactly when its class is rel, close or punct |
| Spacing.StepOn | kotlitex/src/main/java/io/github/karino2/kotlitex/RenderTreeBuilder.kt:694-704 | none of its own; see StepOnEitherSide and CancelBinsCharacterization |
| Spacing.StepOnEitherSide | kotlitex/src/main/java/io/github/karino2/kotlitex/RenderTreeBuilder.kt:691-706 | the left test and then the right test together turn a bin into an ord exactly when either side cancels, and at most once |
| Spacing.CancelFrom | kotlitex/src/main/java/io/github/karino2/kotlitex/RenderTreeBuilder.kt:691-706 | the left-to-right cancellation loop keeps the number of nodes |
| Spacing.CancelBins | kotlitex/src/main/java/io/github/karino2/kotlitex/RenderTreeBuilder.kt:691-706 | the cancellation pass keeps the number of nodes |
| Spacing.CancelFromKeepsPrefix | kotlitex/src/main/java/io/github/karino2/kotlitex/RenderTreeBuilder.kt:691-706 | nodes the loop has passed are not touched again |
| Spacing.CancelFromAt | kotlitex/src/main/java/io/github/karino2/kotlitex/RenderTreeBuilder.kt:691-706 | each node is one step on its already rewritten left neighbour and its not yet rewritten right neighbour |
| Spacing.CancelBinsCharacterization | kotlitex/src/main/java/io/github/karino2/kotlitex/RenderTreeBuilder.kt:691-706 | without the loop: a node becomes an ord exactly when it is a bin and its rewritten left neighbour cancels on the left or its original right neighbour cancels on the right |
| Spacing.CancelBinsOnlyTurnsBinsIntoOrds | kotlitex/src/main/java/io/github/karino2/kotlitex/RenderTreeBuilder.kt:694-704 | every node is unchanged, or a former bin with mbin replaced by mord; no other class changes |
| Spacing.LeadingBinInRealGroup | kotlitex/src/main/java/io/github/karino2/kotlitex/RenderTreeBuilder.kt:691-706 | the leading `+` of a real group `+2` becomes an ord |
| Spacing.BinAfterRel | kotlitex/src/main/java/io/github/karino2/kotlitex/RenderTreeBuilder.kt:521 | in `x = + y` the `+` after the relation becomes an ord |
| Spacing.LoneBinInPartialGroup | kotlitex/src/main/java/io/github/karino2/kotlitex/RenderTreeBuilder.kt:526 | in a partial group a lone bin stays a bin |
| Spacing.GetSpacings | kotlitex/src/main/java/io/github/karino2/kotlitex/RenderTreeBuilder.kt:546-602 | none of its own; see SpacingsFollowTexBook, SpacingSamples and NoSpaceBesideNonAtoms |
| Spacing.GetTightSpacings | kotlitex/src/main/java/io/github/karino2/kotlitex/RenderTreeBuilder.kt:605-619 | none of its own; see TightSpacingsFollowTexBook, TightSpacingEntries and TightIsSubsetOfNormal |
| Spacing.SpacingsFollowTexBook | kotlitex/src/main/java/io/github/karino2/kotlitex/RenderTreeBuilder.kt:546-602 | getSpacings equals The TeXbook's display and text style table on every pair of atom classes except (punct, rel), which is thick here and thin in TeX |
| Spacing.TightSpacingsFollowTexBook | kotlitex/src/main/java/io/github/karino2/kotlitex/RenderTreeBuilder.kt:605-619 | getTightSpacings equals the script-style reading of The TeXbook's table on every pair of atom classes |
| Spacing.NoSpaceBesideNonAtoms | kotlitex/src/main/java/io/github/karino2/kotlitex/RenderTreeBuilder.kt:546-619 | neither table has space next to a non-atom class |
| Spacing.TightIsSubsetOfNormal | kotlitex/src/main/java/io/github/karino2/kotlitex/RenderTreeBuilder.kt:546-619 | every tight space is a thin space that the normal table also puts there |
| Spacing.SpacingSamples | kotlitex/src/main/java/io/github/karino2/kotlitex/RenderTreeBuilder.kt:546-602 | (ord, bin) is 4mu, (ord, rel) is 5mu, (ord, op) is 3mu, and open on the left is never followed by space |
| Spacing.TightSpacingEntries | kotlitex/src/main/java/io/github/karino2/kotlitex/RenderTreeBuilder.kt:605-619 | no tight space after bin, rel, open or punct; there is a tight space exactly for (ord, op), (op, ord), (op, op), (close, op) and (inner, op) |
| Spacing.CalculateSize | kotlitex/src/main/java/io/github/karino2/kotlitex/RenderTreeBuilder.kt:630-634 | the width is the smaller of number times cssEmPerMu and maxSize |
| Spacing.GlueConditions | kotlitex/src/main/java/io/github/karino2/kotlitex/RenderTreeBuilder.kt:719-762 | glue follows a node exactly when it is not a space, the group is real, there is a next non-space node, neither class is EMPTY and the table has an entry; the table is the tight one when the next node is mtight |
| Spacing.NoGlueAfterSpacesOrAtTheEnd | kotlitex/src/main/java/io/github/karino2/kotlitex/RenderTreeBuilder.kt:719 | no glue after an explicit space or after the last non-space node |
| Spacing.GluePlanSample | kotlitex/src/main/java/io/github/karino2/kotlitex/RenderTreeBuilder.kt:708-766 | `1+2` gets a medium space after the 1 and after the + |
| Fonts.Mathdefault | kotlitex/src/main/java/io/github/karino2/kotlitex/RenderTreeBuilder.kt:162-178 | always Math-Italic; the class is mathit exactly for a leading digit or a Main-Italic letter, and mathdefault otherwise; an empty value fails |
| Fonts.Mathnormal | kotlitex/src/main/java/io/github/karino2/kotlitex/RenderTreeBuilder.kt:186-193 | a Main-Italic letter gives (Main-Italic, mathit); otherwise a leading digit gives (Caligraphic-Regular, mathcal); otherwise (Math-Italic, mathdefault); an empty value fails |
| Fonts.DefaultAndNormalDisagreeOnDigits | kotlitex/src/main/java/io/github/karino2/kotlitex/RenderTreeBuilder.kt:162-193 | a digit is mathit in Math-Italic by default and mathcal in Caligraphic under mathnormal |
| Fonts.Boldsymbol | kotlitex/src/main/java/io/github/karino2/kotlitex/RenderTreeBuilder.kt:201-214 | Math-BoldItalic with boldsymbol when that font has the glyph, else Main-Bold with mathbf; fails exactly when the lookup fails |
| Fonts.MathsymChoice | kotlitex/src/main/java/io/github/karino2/kotlitex/RenderTreeBuilder.kt:222-245 | under boldsymbol with a Main-Bold glyph: Main-Bold, with mathbf added; otherwise, including boldsymbol without that glyph, `\` or a main-font symbol gives Main-Regular; everything else gives AMS-Regular with amsrm added; fails only on the bold lookup |
| Fonts.KnownFontNameToCssClass | kotlitex/src/main/java/io/github/karino2/kotlitex/RenderTreeBuilder.kt:247-258 | fails exactly for names outside the seven known families, with a not-implemented error |
| Fonts.KnownFontClassIsNamesake | kotlitex/src/main/java/io/github/karino2/kotlitex/RenderTreeBuilder.kt:249-256 | each of the seven known families (amsrm, textrm, textsf, texttt, mathcal, mathbb, mathscr) maps to its own class; mathbf and mathit are not implemented |
| Fonts.RetrieveTextFontName | kotlitex/src/main/java/io/github/karino2/kotlitex/RenderTreeBuilder.kt:261-281 | none of its own; see FontStylesName and ShapeMattersOnlyWhenBold |
| Fonts.FontStylesName | kotlitex/src/main/java/io/github/karino2/kotlitex/RenderTreeBuilder.kt:270-278 | one of BoldItalic, Bold, Italic and Regular |
| Fonts.ShapeMattersOnlyWhenBold | kotlitex/src/main/java/io/github/karino2/kotlitex/RenderTreeBuilder.kt:261-281 | unless the weight is bold the shape never changes the name; an italic weight, not shape, gives Italic |
| Fonts.FontMap | kotlitex/src/main/java/io/github/karino2/kotlitex/RenderTreeBuilder.kt:291-339 | defined exactly for the ten font commands of the map |
| Fonts.FontMapValue | kotlitex/src/main/java/io/github/karino2/kotlitex/RenderTreeBuilder.kt:405 | `getValue`: the map's entry, or a no-such-font error exactly for a missing command |
| Fonts.ExplicitFont | kotlitex/src/main/java/io/github/karino2/kotlitex/RenderTreeBuilder.kt:395-413 | none of its own; see OrdChoiceDecision, UnknownMathFontThrows and MathitLetterUnderExplicitFont |
| Fonts.DefaultOrdFont | kotlitex/src/main/java/io/github/karino2/kotlitex/RenderTreeBuilder.kt:427-461 | none of its own; see DefaultOrdFontChoice and PlainMathOrdIsMathItalic |
| Fonts.OrdChoice | kotlitex/src/main/java/io/github/karino2/kotlitex/RenderTreeBuilder.kt:376-462 | a node that is not an ord fails; every chosen class set contains mord |
| Fonts.OrdChoiceDecision | kotlitex/src/main/java/io/github/karino2/kotlitex/RenderTreeBuilder.kt:385-431 | with no font or family the default font is used; otherwise the explicit font, with mord added, exactly when it resolves and has the glyph, the default font when the glyph is missing, and the error of the explicit choice or of the glyph lookup otherwise |
| Fonts.DefaultOrdFontChoice | kotlitex/src/main/java/io/github/karino2/kotlitex/RenderTreeBuilder.kt:427-461 | a mathord gets mathdefault's font and class with mord, or its error; a textord always succeeds with mord, and an AMS symbol gets the amsrm family |
| Fonts.PlainMathOrdIsMathItalic | kotlitex/src/main/java/io/github/karino2/kotlitex/RenderTreeBuilder.kt:428-431 | a math ord with no font is Math-Italic, with classes mord and the mathdefault class |
| Fonts.UnknownMathFontThrows | kotlitex/src/main/java/io/github/karino2/kotlitex/RenderTreeBuilder.kt:404-405 | under mathbf, mathrm, mathit, mathfrak, mathsf, mathtt or an unknown command, an ord that is not a Main-Italic letter fails |
| Fonts.MathitLetterUnderExplicitFont | kotlitex/src/main/java/io/github/karino2/kotlitex/RenderTreeBuilder.kt:402-413 | a Main-Italic letter under an explicit font is drawn in Main-Italic with mord and mathit, when that font has it |
| Fonts.SymbolBox | kotlitex/src/main/java/io/github/karino2/kotlitex/RenderTreeBuilder.kt:113-148 | fails exactly with the lookup's error; a built symbol carries the replaced value |
| Fonts.SymbolBoxProperties | kotlitex/src/main/java/io/github/karino2/kotlitex/RenderTreeBuilder.kt:120-145 | missing metrics give all-zero metrics; otherwise the looked-up metrics; no italic correction in TEXT mode or under mathit; with options: the size multiplier as maximum font size, mtight exactly in a tight style, and the colour when there is one; without options the classes and style are kept |
| Assembly.CombinableByKey | kotlitex/src/main/java/io/github/karino2/kotlitex/RenderTreeBuilder.kt:805-830 | canCombine only looks at kind, classes, skew, maximum font size and style |
| Assembly.Merge | kotlitex/src/main/java/io/github/karino2/kotlitex/RenderTreeBuilder.kt:790-796 | merging keeps the fields canCombine compares |
| Assembly.Combine | kotlitex/src/main/java/io/github/karino2/kotlitex/RenderTreeBuilder.kt:780-803 | the result is no longer than the input, and its head has the input head's key |
| Assembly.CombineLeavesNothingToCombine | kotlitex/src/main/java/io/github/karino2/kotlitex/RenderTreeBuilder.kt:780-803 | no two neighbours of the result can be combined |
| Assembly.CombinePreservesText | kotlitex/src/main/java/io/github/karino2/kotlitex/RenderTreeBuilder.kt:790 | the joined text of the result is the joined text of the input |
| Assembly.RunMergesIntoOne | kotlitex/src/main/java/io/github/karino2/kotlitex/RenderTreeBuilder.kt:786-798 | a run of combinable symbols becomes one symbol with the run's text, its largest height and depth (each reached by a member) and the last symbol's italic correction |
| Assembly.CombineSplits | kotlitex/src/main/java/io/github/karino2/kotlitex/RenderTreeBuilder.kt:780-803 | where two neighbours do not combine, the result is that of the part before followed by that of the part after |
| Assembly.RunThenRest | kotlitex/src/main/java/io/github/karino2/kotlitex/RenderTreeBuilder.kt:780-803 | a run that does not combine with the next box becomes one symbol (as RunMergesIntoOne states) in front of the combination of the rest |
| Assembly.NonSymbolStaysInPlace | kotlitex/src/main/java/io/github/karino2/kotlitex/RenderTreeBuilder.kt:780-803 | a box that is not a symbol is kept, unchanged and in place, between the combinations of the parts before and after it |
| Assembly.Plan | kotlitex/src/main/java/io/github/karino2/kotlitex/RenderTreeBuilder.kt:883-921 | none of its own; see PlanAtOperator, PlanAtNewline, PlanAtOther, PlanCovers and PlanIsWellCut |
| Assembly.Pieces | kotlitex/src/main/java/io/github/karino2/kotlitex/RenderTreeBuilder.kt:883-921 | none of its own; the plan from the first box, see PlanCovers and PlanIsWellCut |
| Assembly.GlueEnd | kotlitex/src/main/java/io/github/karino2/kotlitex/RenderTreeBuilder.kt:894-901 | the post-operator glue: every box up to the end is an mspace, and the next box is not |
| Assembly.PlanAtOperator | kotlitex/src/main/java/io/github/karino2/kotlitex/RenderTreeBuilder.kt:887-906 | at a bin or rel box the part runs on through the glue when some of it has nobreak, and otherwise ends after the glue |
| Assembly.PlanAtNewline | kotlitex/src/main/java/io/github/karino2/kotlitex/RenderTreeBuilder.kt:907-916 | a newline box ends the part before it, if any, and stands alone |
| Assembly.PlanAtOther | kotlitex/src/main/java/io/github/karino2/kotlitex/RenderTreeBuilder.kt:886 | any other box joins the current part |
| Assembly.PlanCovers | kotlitex/src/main/java/io/github/karino2/kotlitex/RenderTreeBuilder.kt:883-921 | the chunks and standalone newlines hold every position of the expression exactly once, in order |
| Assembly.PlanIsWellCut | kotlitex/src/main/java/io/github/karino2/kotlitex/RenderTreeBuilder.kt:883-921 | every chunk is non-empty and ends at the end, before a standalone newline, or after an operator's glue that has no nobreak; a standalone newline is a newline box that is not an operator |
| Assembly.ChunkSample | kotlitex/src/main/java/io/github/karino2/kotlitex/RenderTreeBuilder.kt:883-921 | `a+b=c` is cut after `a+`, after `b=` and at the end |
| Assembly.NobreakSample | kotlitex/src/main/java/io/github/karino2/kotlitex/RenderTreeBuilder.kt:898-903 | a nobreak space after an operator keeps the line unbroken |
| Assembly.NewlineSample | kotlitex/src/main/java/io/github/karino2/kotlitex/RenderTreeBuilder.kt:907-916 | a newline flushes the line before it and stands alone |
| RenderTree.BuiltBox | kotlitex/src/main/java/io/github/karino2/kotlitex/RenderTreeBuilder.kt:950-960 | makeOrd fails on a non-ord node and the atom builder on a non-atom; an external builder's box is its own result; built-in builders make symbols |
| RenderTree.AtomKeepsFamilyClass | kotlitex/src/main/java/io/github/karino2/kotlitex/RenderTreeBuilder.kt:954-958 | an atom's symbol carries the class of its family |
| RenderTree.GlueBox | kotlitex/src/main/java/io/github/karino2/kotlitex/RenderTreeBuilder.kt:639-645 | glue is an mspace span whose right margin is the calculated size |
| RenderTree.ClassesOfFilter | kotlitex/src/main/java/io/github/karino2/kotlitex/RenderTreeBuilder.kt:679 | the classes of the filtered nodes are the filtered classes |
| RenderTree.UnitBoxIsMax | kotlitex/src/main/java/io/github/karino2/kotlitex/RenderTreeBuilder.kt:840 | a chunk's base span is as tall, deep and large as its largest part, or 0 for none |
| RenderTree.MergedAt | kotlitex/src/main/java/io/github/karino2/kotlitex/RenderTreeBuilder.kt:790-797 | one merge shortens the list by one |
| RenderTree.CombineMerged | kotlitex/src/main/java/io/github/karino2/kotlitex/RenderTreeBuilder.kt:786-799 | a merge at the cursor leaves the final result unchanged |
| RenderTree.CombineSkipped | kotlitex/src/main/java/io/github/karino2/kotlitex/RenderTreeBuilder.kt:800 | stepping past a node that does not combine leaves the final result unchanged |
| RenderTree.CombinedAtEnd | kotlitex/src/main/java/io/github/karino2/kotlitex/RenderTreeBuilder.kt:783 | when the loop stops, the list is the combination |
| RenderTree.AdvanceSpacing | kotlitex/src/main/java/io/github/karino2/kotlitex/RenderTreeBuilder.kt:714-765 | a spacing round that does not stop at the left sentinel keeps the loop state |
| RenderTree.CancelledNodes | kotlitex/src/main/java/io/github/karino2/kotlitex/RenderTreeBuilder.kt:679-706 | after cancellation only the classes of non-space nodes differ from the built boxes; the space mask is unchanged |
| RenderTree.SpacedExpressionBuilt | kotlitex/src/main/java/io/github/karino2/kotlitex/RenderTreeBuilder.kt:655-768 | cancellation's and spacing's outcomes together give what buildExpression promises |
| RenderTree.GluesFitAppend | kotlitex/src/main/java/io/github/karino2/kotlitex/RenderTreeBuilder.kt:760 | one more glue slot that fits the plan keeps the list fitting |
| RenderTree.GluesFitAt | kotlitex/src/main/java/io/github/karino2/kotlitex/RenderTreeBuilder.kt:760 | every slot of a fitting list fits its planned space |
| RenderTree.SpacingStep | kotlitex/src/main/java/io/github/karino2/kotlitex/RenderTreeBuilder.kt:719-763 | at a non-space node the two slots the loop reads give exactly the planned glue; at a space node no glue is planned; the cursor moves exactly past non-space nodes |
| RenderTree.RenderTreeBuilder.Init | kotlitex/src/main/java/io/github/karino2/kotlitex/RenderTreeBuilder.kt:950-960 | mathord, textord, supsub and atom are registered over the library's builders |
| RenderTree.RenderTreeBuilder.RegisterBuilder | kotlitex/src/main/java/io/github/karino2/kotlitex/RenderTreeBuilder.kt:25-27 | the builder replaces any earlier one for the type, and nothing else changes |
| RenderTree.RenderTreeBuilder.GroupBox | kotlitex/src/main/java/io/github/karino2/kotlitex/RenderTreeBuilder.kt:81-99 | an unregistered type fails with a parse error |
| RenderTree.RenderTreeBuilder.SizeElementFromChildren | kotlitex/src/main/java/io/github/karino2/kotlitex/RenderTreeBuilder.kt:33-41 | height, depth and maximum font size become the children's maxima (0 for none), and nothing else changes |
| RenderTree.RenderTreeBuilder.MakeSpan | kotlitex/src/main/java/io/github/karino2/kotlitex/RenderTreeBuilder.kt:43-47 | a new span with the given classes, children and style, sized from its children |
| RenderTree.RenderTreeBuilder.MakeSymbol | kotlitex/src/main/java/io/github/karino2/kotlitex/RenderTreeBuilder.kt:113-148 | fails exactly when SymbolBox fails, with its error; otherwise a new childless node holding the SymbolBox |
| RenderTree.RenderTreeBuilder.MathSym | kotlitex/src/main/java/io/github/karino2/kotlitex/RenderTreeBuilder.kt:222-245 | the SymbolBox in the font and classes MathsymChoice picks, or its error |
| RenderTree.RenderTreeBuilder.MakeOrd | kotlitex/src/main/java/io/github/karino2/kotlitex/RenderTreeBuilder.kt:376-462 | the SymbolBox in the font and classes OrdChoice picks, or its error |
| RenderTree.RenderTreeBuilder.CallBuilder | kotlitex/src/main/java/io/github/karino2/kotlitex/RenderTreeBuilder.kt:84 | a new childless node holding the box the registered builder makes, or its error |
| RenderTree.RenderTreeBuilder.BuildGroup | kotlitex/src/main/java/io/github/karino2/kotlitex/RenderTreeBuilder.kt:76-101 | no group gives an empty span; an unregistered type fails; on a size change the node is wrapped in a sizing span with the child's height and depth times the ratio of the size multipliers; otherwise it is the builder's node |
| RenderTree.RenderTreeBuilder.MakeGlue | kotlitex/src/main/java/io/github/karino2/kotlitex/RenderTreeBuilder.kt:639-645 | a new node holding the GlueBox |
| RenderTree.RenderTreeBuilder.BuildRawGroups | kotlitex/src/main/java/io/github/karino2/kotlitex/RenderTreeBuilder.kt:661-673 | succeeds exactly when every node builds, and fails with the first failing node's error; the nodes are new and distinct, one per parse node, in order |
| RenderTree.RenderTreeBuilder.CancelAt | kotlitex/src/main/java/io/github/karino2/kotlitex/RenderTreeBuilder.kt:692-705 | the node's classes become StepOn of its neighbours' classes; nothing else changes |
| RenderTree.RenderTreeBuilder.CancelRound | kotlitex/src/main/java/io/github/karino2/kotlitex/RenderTreeBuilder.kt:691-706 | one round rewrites slot i as StepOn prescribes, and no other node |
| RenderTree.RenderTreeBuilder.CancelBinsInPlace | kotlitex/src/main/java/io/github/karino2/kotlitex/RenderTreeBuilder.kt:691-706 | the non-space nodes' classes become CancelBins of their old classes; nothing else changes, and no node gains or loses mspace |
| RenderTree.RenderTreeBuilder.SpacingGlue | kotlitex/src/main/java/io/github/karino2/kotlitex/RenderTreeBuilder.kt:729-762 | a new glue node exactly when the slots' classes plan one, holding that glue |
| RenderTree.RenderTreeBuilder.InsertSpacing | kotlitex/src/main/java/io/github/karino2/kotlitex/RenderTreeBuilder.kt:708-767 | every node is kept in order, each followed by a new glue node exactly where GluePlan has a space |
| RenderTree.RenderTreeBuilder.SpacingRound | kotlitex/src/main/java/io/github/karino2/kotlitex/RenderTreeBuilder.kt:714-765 | one round keeps the loop state, either advancing i with one more glue slot, or stepping back once at the left sentinel |
| RenderTree.RenderTreeBuilder.BuildExpression | kotlitex/src/main/java/io/github/karino2/kotlitex/RenderTreeBuilder.kt:655-768 | fails exactly when some node fails, with the first failing node's error; otherwise each node is built as GroupBox says, only the non-space nodes' classes change, and exactly as CancelBins says; the result is the nodes in order, woven with the glue of GluePlan |
| RenderTree.RenderTreeBuilder.CancelAndSpace | kotlitex/src/main/java/io/github/karino2/kotlitex/RenderTreeBuilder.kt:679-767 | cancellation then glue insertion on built nodes meet what buildExpression promises |
| RenderTree.RenderTreeBuilder.CanCombine | kotlitex/src/main/java/io/github/karino2/kotlitex/RenderTreeBuilder.kt:805-830 | none of its own; on symbol nodes it is Assembly.Combinable, see CombinableByKey and TryCombineChars |
| RenderTree.RenderTreeBuilder.Absorb | kotlitex/src/main/java/io/github/karino2/kotlitex/RenderTreeBuilder.kt:790-796 | the left node becomes the Merge of both |
| RenderTree.RenderTreeBuilder.TryCombineChars | kotlitex/src/main/java/io/github/karino2/kotlitex/RenderTreeBuilder.kt:780-803 | the values of the result are Combine of the input values, using the input's own nodes; dropped nodes are untouched and no node's children change |
| RenderTree.RenderTreeBuilder.CombineRound | kotlitex/src/main/java/io/github/karino2/kotlitex/RenderTreeBuilder.kt:784-800 | one round merges at the cursor or steps past it, and either way what the loop will compute is unchanged |
| RenderTree.RenderTreeBuilder.MergeAt | kotlitex/src/main/java/io/github/karino2/kotlitex/RenderTreeBuilder.kt:790-798 | node i absorbs node i+1, which leaves the list; the values become MergedAt |
| RenderTree.RenderTreeBuilder.BuildHTMLUnbreakable | kotlitex/src/main/java/io/github/karino2/kotlitex/RenderTreeBuilder.kt:838-855 | a new base span sized by the parts, whose children are a new strut followed by the parts; the strut's vertical alignment is minus the depth and reaches up to the height |
| RenderTree.RenderTreeBuilder.MakeStrut | kotlitex/src/main/java/io/github/karino2/kotlitex/RenderTreeBuilder.kt:849-851 | a new strut span with CSS height equal to height plus depth, and vertical alignment minus the depth |
| RenderTree.RenderTreeBuilder.ChunkLines | kotlitex/src/main/java/io/github/karino2/kotlitex/RenderTreeBuilder.kt:883-921 | one output node per piece of Pieces: an unbreakable unit for each chunk, and the newline box itself for each standalone newline; every chunk unit and its strut are new nodes |
| RenderTree.RenderTreeBuilder.BuildHTML | kotlitex/src/main/java/io/github/karino2/kotlitex/RenderTreeBuilder.kt:861-948 | the first failing node's error, or the expression built as a real group and cut into the pieces Pieces plans, in order; every chunk unit and its strut are new nodes, not boxes of the expression |
| RenderTree.RenderTreeBuilder.CutChunk | kotlitex/src/main/java/io/github/karino2/kotlitex/RenderTreeBuilder.kt:904 | a finished part becomes a new unbreakable unit over exactly those boxes |
| RenderTree.RenderTreeBuilder.TakeGlue | kotlitex/src/main/java/io/github/karino2/kotlitex/RenderTreeBuilder.kt:893-901 | the inner loop stops at GlueEnd, and nobreak is set exactly when one of the absorbed spaces has nobreak |
| RenderTree.RenderTreeBuilder.ChunkRound | kotlitex/src/main/java/io/github/karino2/kotlitex/RenderTreeBuilder.kt:885-918 | one round keeps the chunking state and moves forward; every node it outputs carries its piece |
| RenderTree.RenderTreeBuilder.OperatorRound | kotlitex/src/main/java/io/github/karino2/kotlitex/RenderTreeBuilder.kt:887-906 | the round at an operator keeps the chunking state |
| RenderTree.RenderTreeBuilder.NewlineRound | kotlitex/src/main/java/io/github/karino2/kotlitex/RenderTreeBuilder.kt:907-916 | the round at a newline keeps the chunking state |
| Markdown.EventLog.AppendNormal | kotlitex/src/main/java/io/github/karino2/kotlitex/view/MarkdownView.kt:13 | the handler records one plain-text call |
| Markdown.EventLog.AppendInlineMathExp | kotlitex/src/main/java/io/github/karino2/kotlitex/view/MarkdownView.kt:14 | the handler records one inline-math call |
| Markdown.EventLog.AppendDisplayMathExp | kotlitex/src/main/java/io/github/karino2/kotlitex/view/MarkdownView.kt:15 | the handler records one display-math call |
| Markdown.EventLog.AppendEndOfLine | kotlitex/src/main/java/io/github/karino2/kotlitex/view/MarkdownView.kt:16 | the handler records one end-of-line call |
| Markdown.NextDollar | kotlitex/src/main/java/io/github/karino2/kotlitex/view/MarkdownView.kt:22 | the next dollar at or after the position, or the end of the line |
| Markdown.NextDollarSkips | kotlitex/src/main/java/io/github/karino2/kotlitex/view/MarkdownView.kt:22 | NextDollar passes over no dollar |
| Markdown.MatchAt | kotlitex/src/main/java/io/github/karino2/kotlitex/view/MarkdownView.kt:22 | a match at p has non-empty contents and fits in the line |
| Markdown.MatchAtShape | kotlitex/src/main/java/io/github/karino2/kotlitex/view/MarkdownView.kt:22 | a match at p with contents up to q exactly when the text there is `$$`, non-empty dollar-free contents, and `$$` |
| Markdown.NextDollarIs | kotlitex/src/main/java/io/github/karino2/kotlitex/view/MarkdownView.kt:22 | NextDollar lands on the first dollar |
| Markdown.FindMatch | kotlitex/src/main/java/io/github/karino2/kotlitex/view/MarkdownView.kt:32-43 | the leftmost match at or after the position: no match starts before it, and none at all when there is no result |
| Markdown.DisplayLine | kotlitex/src/main/java/io/github/karino2/kotlitex/view/MarkdownView.kt:21 | none of its own; see DisplayLineExactly |
| Markdown.IsFence | kotlitex/src/main/java/io/github/karino2/kotlitex/view/MarkdownView.kt:23 | none of its own; the line is exactly `$$`; see Block and MathSpanBuilder.OneLine |
| Markdown.DisplayLineExactly | kotlitex/src/main/java/io/github/karino2/kotlitex/view/MarkdownView.kt:21 | a line is a display line exactly when it is `$$`, a non-empty dollar-free expression, `$$`, and then the expression is given back |
| Markdown.MatchFound | kotlitex/src/main/java/io/github/karino2/kotlitex/view/MarkdownView.kt:38-43 | a match's position, fences and contents |
| Markdown.Segments | kotlitex/src/main/java/io/github/karino2/kotlitex/view/MarkdownView.kt:27-47 | none of its own; see SegmentsAtMatch, SegmentsReassemble, SegmentsWellSplit and MathSpanBuilder.OneNormalLineWithoutEOL |
| Markdown.SegmentsAtMatch | kotlitex/src/main/java/io/github/karino2/kotlitex/view/MarkdownView.kt:39-42 | at a match: the text before it if there is any, the expression, and the segments after the match |
| Markdown.SegmentsReassemble | kotlitex/src/main/java/io/github/karino2/kotlitex/view/MarkdownView.kt:31-46 | putting each inline expression back between `$$` fences gives back the rest of the line |
| Markdown.NormalLineReassembles | kotlitex/src/main/java/io/github/karino2/kotlitex/view/MarkdownView.kt:27-47 | the calls for a line give back the line exactly |
| Markdown.SegmentsWellSplit | kotlitex/src/main/java/io/github/karino2/kotlitex/view/MarkdownView.kt:38-46 | only plain-text and inline calls; no plain text is empty; every expression is non-empty and dollar-free; never two plain texts in a row |
| Markdown.InBlock | kotlitex/src/main/java/io/github/karino2/kotlitex/view/MarkdownView.kt:51-63 | none of its own; see CollectLines, Block and BlockInside |
| Markdown.CollectLines | kotlitex/src/main/java/io/github/karino2/kotlitex/view/MarkdownView.kt:61-62 | inside a block, lines that are not fences are collected, each followed by a space, with no handler call |
| Markdown.Block | kotlitex/src/main/java/io/github/karino2/kotlitex/view/MarkdownView.kt:51-73 | a whole block makes one display call with the collected lines, or none for an empty block, and ends in the normal state with an empty buffer |
| Markdown.BlockInside | kotlitex/src/main/java/io/github/karino2/kotlitex/view/MarkdownView.kt:51-63 | inside a block, the lines and the closing fence make one display call with the collected lines, or none |
| Markdown.Step | kotlitex/src/main/java/io/github/karino2/kotlitex/view/MarkdownView.kt:65-81 | none of its own; see RunCons, StepKeepsNormalBufferEmpty, NormalLineEnds and MathSpanBuilder.OneLine |
| Markdown.RunCons | kotlitex/src/main/java/io/github/karino2/kotlitex/view/MarkdownView.kt:65-81 | feeding lines is one step and then the rest |
| Markdown.RunAppend | kotlitex/src/main/java/io/github/karino2/kotlitex/view/MarkdownView.kt:65-81 | feeding two groups of lines is feeding the first, then the second |
| Markdown.StepKeepsNormalBufferEmpty | kotlitex/src/main/java/io/github/karino2/kotlitex/view/MarkdownView.kt:49-63 | outside a block the buffer stays empty |
| Markdown.NormalLineEnds | kotlitex/src/main/java/io/github/karino2/kotlitex/view/MarkdownView.kt:79-80 | a normal line keeps the state and makes its split followed by exactly one end-of-line call; an empty line makes only the end-of-line call |
| Markdown.MathSpanBuilder.constructor | kotlitex/src/main/java/io/github/karino2/kotlitex/view/MarkdownView.kt:20-25 | the builder starts outside a block with an empty buffer |
| Markdown.MathSpanBuilder.OneNormalLineWithoutEOL | kotlitex/src/main/java/io/github/karino2/kotlitex/view/MarkdownView.kt:27-47 | the handler receives exactly the segments of the line, in order |
| Markdown.MathSpanBuilder.OneLineInMultilineMath | kotlitex/src/main/java/io/github/karino2/kotlitex/view/MarkdownView.kt:51-63 | state and handler calls follow the block step: the closing fence ends the block, hands over a non-empty buffer and clears it; any other line is collected with a space |
| Markdown.MathSpanBuilder.OneLine | kotlitex/src/main/java/io/github/karino2/kotlitex/view/MarkdownView.kt:65-81 | state and handler calls follow Step: the block step inside a block; otherwise an opening fence enters a block, a display line makes one display call, and any other line makes its split and one end-of-line call |

## Left out

- `RenderNode.kt`, `Options.kt`, `CssClass.kt`, `ParseNode.kt`, `MetricMap` and `SymbolDefinitions` are not part of this model. Render nodes are one class with a kind tag. Options, classes and parse nodes carry only the fields the core reads. The metric tables and the symbol definitions are parameters.
- The builders of the function library and `RenderBuilderSupsub` are opaque functions from a parse node and options to a box. They are modelled as returning a childless node.
- `getOutermostNode` and `wrapFragment` are the identity in the source. They are left out, and the class is read from the node itself. Document fragments do not exist in the core.
- The surrounding-class arguments of `buildExpression`, the `glueOptions` sizing and styling, and the `tag` handling of `buildHTML` are commented out in the source. They are left out.
- `makeLineSpan`, `makeNullDelimiter`, `staticPath` and the SVG path data are not used by the passes, and are left out.
- RenderTree.RenderTreeBuilder.MakeSpan: the `options` argument that makeSpan hands to the span constructor is dropped. `RenderNode.kt` is not part of this model, so whatever a span derives from its options is not recorded; the span holds only its classes, children, style and sizes.
- RenderTree.RenderTreeBuilder.TryCombineChars: requires the input nodes to be distinct. A list holding the same node twice (aliasing) is not modelled.
- The loop bodies of `buildExpression`, `tryCombineChars` and `buildHTML` are split into round methods (`SpacingRound`, `CombineRound`, `ChunkRound`), which the loops call. The control flow is that of the source: the `i--` step-backs become a round that leaves the cursor in place.
- CSS values are kept as numbers, not as the `"${size}em"` strings.
- `Double` arithmetic is exact real arithmetic; IEEE-754 rounding is not modelled.
- The `Log.d` call of `makeSymbol` is output only, and is left out.
- `Macros.kt`, `MathExpressionSpan.kt`, `MarkdownView` and `SpannableMathSpanHandler` are Android drawing, caching and coroutine code, and are not part of this model. The handler is modelled as a recorder of its calls (`EventLog`).
- The regular expressions of `MathSpanBuilder` are written out as functions: `FindMatch` and `MatchAt` for `mathExpPat`, `DisplayLine` for `mathExpLinePat`, and `IsFence` for `multiLineMathBeginEndPat`.
- The lazy initialisation of `Symbols`, and the thread safety of its `ConcurrentHashMap`s, are not modelled: the tables are plain maps.
- Accents.UnicodeAccent and Accents.UnicodeSymbol: the accent tables are read only and carry no contract of their own. Only sample entries are stated.

## Behaviour worth noting

- **Bin after a relation.** A bin directly after a rel becomes an ord, because the left-canceller set contains mrel (`RenderTreeBuilder.kt:521`). This is rule 5 of Appendix G of The TeXbook. `Spacing.BinAfterRel` states it.
- **Newline boxes inside chunks.** A newline box that is also a bin or rel box is handled as an operator and stays inside its chunk. So does a newline box that is also an mspace directly after an operator, because it is absorbed as post-operator glue. `Assembly.WellCut` and `Assembly.StandaloneNewline` state where a newline box can sit.
- **Punctuation before a relation.** getSpacings puts a thick space between punct and rel, where the table in chapter 18 of The TeXbook has a thin one. The code inherits this from KaTeX. `Spacing.SpacingsFollowTexBook` proves that this is the only pair where the two tables differ.
