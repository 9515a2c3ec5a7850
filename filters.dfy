/**
 * The five filters the plugin registers on its template environment:
 * `attributes`, `body`, `render`, `markdown` and `date`. Each wraps its work
 * in `try { … } catch (e) { filterError(e); }`, so a thrown error becomes one
 * reported `PluginError` and the filter's value is undefined. Every failure
 * is taken to carry a non-empty message (see `Capabilities.Report`).
 */
module Filters {
  import opened Wrappers
  import opened JsValues
  import opened Capabilities
  import opened NodePath

  /** A filter's value together with the errors it reported on the error channel. */
  datatype FilterOutcome = FilterOutcome(value: Value, errors: seq<PluginError>)

  /** The `catch` branch: one report carrying the thrown message, and an undefined value. */
  function Caught(message: string): FilterOutcome {
    FilterOutcome(Undefined, [Report(message)])
  }

  function Returned(v: Value): FilterOutcome {
    FilterOutcome(v, [])
  }

  /**
   * How a filter whose work is `attempt` reports: a failure of the attempt is
   * reported exactly once with its message and leaves the value undefined; a
   * success reports nothing.
   */
  predicate ReportsOnce<T>(o: FilterOutcome, attempt: Result<T, string>) {
    match attempt
    case Err(e) => o == Caught(e)
    case Ok(_) => o.errors == []
  }

  /** `fm(fs.readFileSync(path.join(process.cwd(), file)).toString())`. */
  function ReadMatter(caps: Capabilities, file: Value): (r: Result<FrontMatter, string>)
    ensures !file.Str? ==> r == Err(caps.joinError(file))
    ensures file.Str? && caps.read(file.s).Err? ==> r == Err(caps.read(file.s).error)
    ensures file.Str? && caps.read(file.s).Ok? ==> r == caps.split(caps.read(file.s).value)
  {
    if !file.Str? then Err(caps.joinError(file))
    else
      match caps.read(file.s)
      case Err(e) => Err(e)
      case Ok(text) => caps.split(text)
  }

  /**
   * `attributes(file, attribute)`: the referenced file's front-matter
   * attributes, or the single entry `attribute` when that argument is truthy;
   * `{}` when the splitter produced no (truthy) attributes.
   */
  function AttributesFilter(caps: Capabilities, file: Value, attribute: Value): (r: FilterOutcome)
    ensures ReportsOnce(r, ReadMatter(caps, file))
    ensures ReadMatter(caps, file).Ok? && !Truthy(ReadMatter(caps, file).value.attributes) ==>
              r.value == Obj(map[])
    ensures ReadMatter(caps, file).Ok? && Truthy(ReadMatter(caps, file).value.attributes) ==>
              r.value == if Truthy(attribute)
                         then Get(ReadMatter(caps, file).value.attributes, ToText(attribute))
                         else ReadMatter(caps, file).value.attributes
  {
    match ReadMatter(caps, file)
    case Err(e) => Caught(e)
    case Ok(m) =>
      if Truthy(m.attributes) then
        if Truthy(attribute) then Returned(Get(m.attributes, ToText(attribute)))
        else Returned(m.attributes)
      else Returned(Obj(map[]))
  }

  /** `body(file)`: the referenced file's body, front matter removed. */
  function BodyFilter(caps: Capabilities, file: Value): (r: FilterOutcome)
    ensures ReportsOnce(r, ReadMatter(caps, file))
    ensures ReadMatter(caps, file).Ok? ==> r.value == Str(ReadMatter(caps, file).value.body)
  {
    match ReadMatter(caps, file)
    case Err(e) => Caught(e)
    case Ok(m) => Returned(Str(m.body))
  }

  /**
   * The template text and context the `render` filter hands to the engine:
   * the referenced file's body, converted by markdown exactly when the
   * file's extension is not ".html", and the file's own attributes.
   */
  function RenderSource(caps: Capabilities, file: Value): (r: Result<(string, Value), string>)
    ensures ReadMatter(caps, file).Err? ==> r == Err(ReadMatter(caps, file).error)
    ensures ReadMatter(caps, file).Ok? && Extname(file.s) == ".html" ==>
              r == Ok((ReadMatter(caps, file).value.body, ReadMatter(caps, file).value.attributes))
    ensures ReadMatter(caps, file).Ok? && Extname(file.s) != ".html" ==>
              var converted := caps.markdown(Str(ReadMatter(caps, file).value.body));
              (r.Ok? <==> converted.Ok?) &&
              (r.Err? ==> r.error == converted.error) &&
              (r.Ok? ==> r.value == (converted.value, ReadMatter(caps, file).value.attributes))
  {
    match ReadMatter(caps, file)
    case Err(e) => Err(e)
    case Ok(m) =>
      if Extname(file.s) != ".html" then
        match caps.markdown(Str(m.body))
        case Err(e) => Err(e)
        case Ok(html) => Ok((html, m.attributes))
      else Ok((m.body, m.attributes))
  }

  /**
   * `render(file)`: the referenced file rendered as a standalone template.
   * The errors its nested filters report come first; a failure of the read,
   * the split, the markdown conversion or the engine adds exactly one report
   * and leaves the value undefined.
   */
  function RenderFilter(caps: Capabilities, file: Value): (r: FilterOutcome)
    ensures RenderSource(caps, file).Err? ==> r == Caught(RenderSource(caps, file).error)
    ensures RenderSource(caps, file).Ok? ==>
              var out := caps.render(RenderSource(caps, file).value.0, RenderSource(caps, file).value.1);
              match out.output
              case Ok(text) => r == FilterOutcome(Str(text), out.filterErrors)
              case Err(e) => r == FilterOutcome(Undefined, out.filterErrors + [Report(e)])
  {
    match RenderSource(caps, file)
    case Err(e) => Caught(e)
    case Ok((text, context)) =>
      var out := caps.render(text, context);
      match out.output
      case Ok(html) => FilterOutcome(Str(html), out.filterErrors)
      case Err(e) => FilterOutcome(Undefined, out.filterErrors + [Report(e)])
  }

  /** `markdown(content)`: the markdown converter applied to `content`. */
  function MarkdownFilter(caps: Capabilities, content: Value): (r: FilterOutcome)
    ensures ReportsOnce(r, caps.markdown(content))
    ensures caps.markdown(content).Ok? ==> r.value == Str(caps.markdown(content).value)
  {
    match caps.markdown(content)
    case Err(e) => Caught(e)
    case Ok(html) => Returned(Str(html))
  }

  /** `date(content, format)`: the date formatter applied to its two arguments. */
  function DateFilter(caps: Capabilities, content: Value, format: Value): (r: FilterOutcome)
    ensures ReportsOnce(r, caps.dateFormat(content, format))
    ensures caps.dateFormat(content, format).Ok? ==> r.value == Str(caps.dateFormat(content, format).value)
  {
    match caps.dateFormat(content, format)
    case Err(e) => Caught(e)
    case Ok(text) => Returned(Str(text))
  }

  datatype BuiltinFilter = AttributesKind | BodyKind | RenderKind | MarkdownKind | DateKind

  /** The argument at position `i` of a filter call; a missing argument is undefined. */
  function Arg(args: seq<Value>, i: nat): Value {
    if i < |args| then args[i] else Undefined
  }

  /**
   * A built-in filter called by the engine with `args` (the piped value
   * first). Every built-in but `render` reports at most one error, and only
   * when its value is undefined.
   */
  function ApplyBuiltin(caps: Capabilities, kind: BuiltinFilter, args: seq<Value>): (r: FilterOutcome)
    ensures kind != RenderKind ==> |r.errors| <= 1 && (r.errors != [] ==> r.value == Undefined)
  {
    match kind
    case AttributesKind => AttributesFilter(caps, Arg(args, 0), Arg(args, 1))
    case BodyKind => BodyFilter(caps, Arg(args, 0))
    case RenderKind => RenderFilter(caps, Arg(args, 0))
    case MarkdownKind => MarkdownFilter(caps, Arg(args, 0))
    case DateKind => DateFilter(caps, Arg(args, 0), Arg(args, 1))
  }

  /**
   * A file without a front-matter block (the splitter returns `{}` and the
   * whole text): `attributes` gives `{}` whole and undefined for any key.
   */
  lemma AttributesOfPlainFile(caps: Capabilities, path: string, text: string, key: string)
    requires caps.read(path) == Ok(text)
    requires caps.split(text) == Ok(FrontMatter(Obj(map[]), text))
    requires key != ""
    ensures AttributesFilter(caps, Str(path), Undefined) == Returned(Obj(map[]))
    ensures AttributesFilter(caps, Str(path), Str(key)) == Returned(Undefined)
  {
  }

  /** A filter reading a path that does not exist reports exactly that one error and resolves to undefined. */
  lemma MissingFileReportedOnce(caps: Capabilities, path: string, message: string, attribute: Value)
    requires caps.read(path) == Err(message)
    ensures AttributesFilter(caps, Str(path), attribute) == FilterOutcome(Undefined, [Report(message)])
    ensures BodyFilter(caps, Str(path)) == FilterOutcome(Undefined, [Report(message)])
    ensures RenderFilter(caps, Str(path)) == FilterOutcome(Undefined, [Report(message)])
  {
  }
}
