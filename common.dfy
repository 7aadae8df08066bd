/** Shared vocabulary of the renderer: optional values, the result of an
    operation that can throw, the two parse modes, CSS classes, style records,
    measurements and the rendering options threaded through every builder. */
module Common {

  datatype Option<+T> = None | Some(value: T)

  /** The exceptions the renderer raises, one constructor per throw site kind. */
  datatype Error =
    | UnknownNodeType(nodeType: string)           // ParseError from buildGroup
    | MissingFontMetrics(font: string)            // no metric table for the font
    | UnexpectedNodeShape(builder: string)        // a builder got a node of the wrong class
    | CustomFontNotImplemented(fontName: string)  // NotImplementedError of knownFontNameToCssClass
    | NoSuchFont(fontName: string)                // fontMap.getValue on a missing key
    | EmptyText                                   // value[0] on an empty string

  /** Either a value or the exception that ended the computation. */
  datatype Result<+T> = Ok(value: T) | Err(error: Error) {
    predicate IsFailure() { Err? }
    function PropagateFailure<U>(): Result<U> requires Err? { Err(error) }
    function Extract(): T requires Ok? { value }
  }

  datatype Mode = Math | Text

  /** The CSS classes the core reads or writes.  The first eight are TeX's atom
      classes; `Named` stands for every other class string. */
  datatype CssClass =
    | mord | mop | mbin | mrel | mopen | mclose | mpunct | minner
    | EMPTY | mspace | mtight | nobreak | newline | base | strut
    | mathit | mathdefault | mathcal | mathbf | boldsymbol | amsrm
    | textrm | textsf | texttt | mathbb | mathscr | textbf | textit
    | sizing | ResetSize(fromSize: int) | SizeClass(toSize: int)
    | Named(name: string)

  /** The class of an atom node of the given family ("bin", "rel", ...). */
  function MFamily(family: string): CssClass
  {
    match family
    case "ord" => mord
    case "op" => mop
    case "bin" => mbin
    case "rel" => mrel
    case "open" => mopen
    case "close" => mclose
    case "punct" => mpunct
    case "inner" => minner
    case _ => Named("m" + family)
  }

  /** The style record of a node; lengths are kept as the number of em they carry. */
  datatype CssStyle = CssStyle(
    color: Option<string>,
    marginRight: Option<real>,
    height: Option<real>,
    verticalAlign: Option<real>)

  const DefaultStyle := CssStyle(None, None, None, None)

  /** A length such as 3mu. */
  datatype Measurement = Measurement(number: int, unit: string)

  type PosReal = r: real | r > 0.0 witness 1.0

  datatype FontMetrics = FontMetrics(cssEmPerMu: real, defaultRuleThickness: real)

  /** The TeX style; only whether it is a script style matters to the core. */
  datatype Style = Style(isTight: bool)

  datatype Options = Options(
    style: Style,
    size: int,
    sizeMultiplier: PosReal,
    font: string,
    fontFamily: string,
    fontWeight: CssClass,
    fontShape: CssClass,
    color: Option<string>,
    maxSize: real,
    fontMetrics: FontMetrics)

  /** The classes of the wrapper buildGroup puts around a group whose size differs
      from its parent's. */
  function SizingClasses(options: Options, base: Options): set<CssClass>
  {
    {sizing, ResetSize(base.size), SizeClass(options.size)}
  }

  /** The parser's output consumed by the builders: ordinary symbols of the two
      kinds, atoms with their family, and every other node kind by its type name. */
  datatype ParseNode =
    | MathOrd(mode: Mode, text: string)
    | TextOrd(mode: Mode, text: string)
    | Atom(mode: Mode, text: string, family: string)
    | OtherNode(nodeType: string, mode: Mode)
  {
    /** The `type` a builder is registered under. */
    function Type(): string
    {
      match this
      case MathOrd(_, _) => "mathord"
      case TextOrd(_, _) => "textord"
      case Atom(_, _, _) => "atom"
      case OtherNode(t, _) => t
    }
  }
}
