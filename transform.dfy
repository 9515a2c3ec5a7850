/**
 * The per-file transform (the `through.obj` callback): drop files without
 * contents, refuse streams, render HTML files that carry metadata, and push
 * every other file on unchanged.
 */
module Transform {
  import opened Wrappers
  import opened JsValues
  import opened Capabilities
  import opened NodePath
  import opened RenderContext
  import opened TemplateWrapper

  /** A file's contents: absent, a stream, or a buffer (held here as its text). */
  datatype Contents = NullContents | StreamContents | Buffer(text: string)

  /** A snapshot of a file: path, contents, stat record and the metadata attached upstream. */
  datatype FileState = FileState(path: string, contents: Contents, stat: Stat, meta: Option<map<string, Value>>)

  const StreamsNotSupported := "Streams are not supported!"

  /** Only files with extension ".html" that carry metadata are rendered. */
  predicate Renderable(f: FileState): (r: bool)
    ensures r <==> EndsInHtmlName(TrimTrailingSlashes(f.path)) && f.meta.Some?
  {
    ExtnameIsHtml(f.path);
    Extname(f.path) == ".html" && f.meta.Some?
  }

  /**
   * The template source for body `body`: the body itself when the metadata
   * names no (truthy) template, and otherwise a source that extends the
   * named template and carries the whole body as its content block.
   */
  function TemplateSource(meta: map<string, Value>, body: string): (src: string)
    ensures !Truthy(Get(Obj(meta), "template")) ==> src == body
    ensures Truthy(Get(Obj(meta), "template")) && '"' !in ToText(meta["template"]) ==>
              Unwrap(src) == Some((ToText(meta["template"]), body))
  {
    if Truthy(Get(Obj(meta), "template")) then
      var name := ToText(meta["template"]);
      assert '"' !in name ==> Unwrap(WrapSource(name, body)) == Some((name, body)) by {
        if '"' !in name { UnwrapOfWrap(name, body); }
      }
      WrapSource(name, body)
    else body
  }

  /**
   * The effect of transforming one file: its new state, whether it was
   * pushed on, the errors reported in order, and the source handed to the
   * engine if a render was attempted.
   */
  datatype Step = Step(file: FileState, pushed: bool, errors: seq<PluginError>, source: Option<string>)

  /**
   * The transform of file `f` in a run with global variables `variables`,
   * where `render` is the engine's `renderString`. The context is the file's
   * metadata itself, so the file leaves with the context as its metadata.
   * The transform calls no other collaborator, so it takes the engine alone
   * rather than the whole `Capabilities` record, whose `render` field is the
   * same engine as seen from the filters.
   */
  function CompileStep(f: FileState, variables: Value, render: (string, Value) -> Rendered): (s: Step)
    ensures f.contents.NullContents? ==> s == Step(f, false, [], None)
    ensures f.contents.StreamContents? ==> s == Step(f, false, [Report(StreamsNotSupported)], None)
    ensures f.contents.Buffer? && !Renderable(f) ==> s == Step(f, true, [], None)
    ensures f.contents.Buffer? && Renderable(f) ==>
              var context := ContextOf(f.meta.value, f.path, f.stat, variables);
              var source := TemplateSource(f.meta.value, f.contents.text);
              var out := render(source, Obj(context));
              && s.pushed
              && s.source == Some(source)
              && s.file.path == f.path && s.file.stat == f.stat
              && s.file.meta == Some(context)
              && match out.output
                 case Ok(html) => s.file.contents == Buffer(html) && s.errors == out.filterErrors
                 case Err(e) => s.file.contents == f.contents && s.errors == out.filterErrors + [Report(e)]
  {
    match f.contents
    case NullContents => Step(f, false, [], None)
    case StreamContents => Step(f, false, [Report(StreamsNotSupported)], None)
    case Buffer(body) =>
      if !Renderable(f) then Step(f, true, [], None)
      else
        var context := ContextOf(f.meta.value, f.path, f.stat, variables);
        ContextKeepsTemplate(f.meta.value, f.path, f.stat, variables, body);
        var source := TemplateSource(context, body);
        var out := render(source, Obj(context));
        var withContext := f.(meta := Some(context));
        match out.output
        case Ok(html) => Step(withContext.(contents := Buffer(html)), true, out.filterErrors, Some(source))
        case Err(e) => Step(withContext, true, out.filterErrors + [Report(e)], Some(source))
  }

  /** `template` is not among the keys the context adds, so the context names the same parent as the metadata. */
  lemma ContextKeepsTemplate(meta: map<string, Value>, path: string, stat: Stat, variables: Value, body: string)
    ensures TemplateSource(ContextOf(meta, path, stat, variables), body) == TemplateSource(meta, body)
  {
  }

  /** A buffered file is rendered exactly when its path ends in a ".html" name and it carries metadata. */
  lemma RenderedExactlyWhenHtmlWithMeta(f: FileState, variables: Value, render: (string, Value) -> Rendered)
    requires f.contents.Buffer?
    ensures CompileStep(f, variables, render).source.Some?
            <==> EndsInHtmlName(TrimTrailingSlashes(f.path)) && f.meta.Some?
  {
    ExtnameIsHtml(f.path);
  }

  /** On a render failure the plugin itself adds exactly one report, and the file is pushed as it was. */
  lemma RenderFailureReportedOnce(f: FileState, variables: Value, render: (string, Value) -> Rendered)
    requires f.contents.Buffer? && Renderable(f)
    requires render(TemplateSource(f.meta.value, f.contents.text),
                    Obj(ContextOf(f.meta.value, f.path, f.stat, variables))).output.Err?
    ensures var s := CompileStep(f, variables, render);
            s.pushed && s.file.contents == f.contents &&
            |s.errors| == |render(s.source.value, Obj(s.file.meta.value)).filterErrors| + 1
  {
  }

  /** A renderable file whose metadata names template `t` is rendered from its body wrapped against `t`. */
  lemma NamedTemplateIsWrapped(f: FileState, t: string, variables: Value, render: (string, Value) -> Rendered)
    requires f.contents.Buffer? && Renderable(f)
    requires "template" in f.meta.value && f.meta.value["template"] == Str(t) && t != ""
    ensures CompileStep(f, variables, render).source == Some(WrapSource(t, f.contents.text))
  {
  }

  /**
   * `index.html` with metadata `{template: "layout.njk"}` and body
   * `<p>Hi</p>`: the engine is handed the wrapped body, with the layout as
   * the parent and the body as the content block.
   */
  lemma LayoutScenario(stat: Stat, variables: Value, render: (string, Value) -> Rendered)
    ensures var f := FileState("index.html", Buffer("<p>Hi</p>"), stat, Some(map["template" := Str("layout.njk")]));
            var s := CompileStep(f, variables, render);
            s.pushed && s.source == Some(WrapSource("layout.njk", "<p>Hi</p>"))
  {
    IndexHtmlIsHtml();
    var f := FileState("index.html", Buffer("<p>Hi</p>"), stat, Some(map["template" := Str("layout.njk")]));
    NamedTemplateIsWrapped(f, "layout.njk", variables, render);
  }

  lemma IndexHtmlIsHtml()
    ensures Extname("index.html") == ".html"
  {
    var path := "index.html";
    assert TrimTrailingSlashes(path) == path;
    assert EndsInHtmlName(path) by {
      assert path[|path| - 5..] == ".html";
    }
    ExtnameIsHtml(path);
  }

  /** A file object of the build stream; the plugin replaces its contents and extends its metadata in place. */
  class VinylFile {
    var path: string
    var contents: Contents
    var stat: Stat
    var meta: Option<map<string, Value>>

    constructor (path: string, contents: Contents, stat: Stat, meta: Option<map<string, Value>>)
      ensures State() == FileState(path, contents, stat, meta)
    {
      this.path := path;
      this.contents := contents;
      this.stat := stat;
      this.meta := meta;
    }

    function State(): FileState
      reads this
    {
      FileState(path, contents, stat, meta)
    }

    /** The context assignments: the metadata object becomes the context, one entry at a time. */
    method BuildContext(variables: Value)
      requires meta.Some?
      modifies this`meta
      ensures meta == Some(ContextOf(old(meta).value, path, stat, variables))
    {
      meta := Some(meta.value["filename" := Str(path)]);
      if !Truthy(Get(Obj(meta.value), "published")) {
        meta := Some(meta.value["published" := stat.birthtime]);
      }
      if !Truthy(Get(Obj(meta.value), "updated")) {
        meta := Some(meta.value["updated" := stat.mtime]);
      }
      meta := Some(meta.value["stats" := StatValue(stat)]);
      meta := Some(meta.value["global" := variables]);
    }
  }

  /** The plugin's output stream: the files pushed on and the errors emitted, in order. */
  class Stream {
    var pushed: seq<VinylFile>
    var errors: seq<PluginError>

    constructor ()
      ensures pushed == [] && errors == []
    {
      pushed := [];
      errors := [];
    }

    method Push(file: VinylFile)
      modifies this`pushed
      ensures pushed == old(pushed) + [file]
    {
      pushed := pushed + [file];
    }

    method Emit(error: PluginError)
      modifies this`errors
      ensures errors == old(errors) + [error]
    {
      errors := errors + [error];
    }

    /** The errors the filters emitted on this stream while the engine ran them. */
    method EmitAll(reported: seq<PluginError>)
      modifies this`errors
      ensures errors == old(errors) + reported
    {
      errors := errors + reported;
    }
  }

  /** The callback for one file: the stream ends up as `CompileStep` says. */
  method Compile(file: VinylFile, stream: Stream, variables: Value, render: (string, Value) -> Rendered)
    modifies file, stream
    ensures var step := CompileStep(old(file.State()), variables, render);
            && file.State() == step.file
            && stream.pushed == old(stream.pushed) + (if step.pushed then [file] else [])
            && stream.errors == old(stream.errors) + step.errors
  {
    ghost var before := file.State();
    ghost var step := CompileStep(before, variables, render);
    if file.contents.NullContents? {
      return;
    }
    if file.contents.StreamContents? {
      stream.Emit(Report(StreamsNotSupported));
      return;
    }
    var eligible := Extname(file.path) == ".html" && file.meta.Some?;
    assert eligible == Renderable(before);
    if eligible {
      RenderInPlace(file, stream, variables, render);
    } else {
      assert step == Step(before, true, [], None);
    }
    stream.Push(file);
  }

  /** Lines that render an eligible file: build the context, render, and keep or replace the contents. */
  method RenderInPlace(file: VinylFile, stream: Stream, variables: Value, render: (string, Value) -> Rendered)
    requires file.contents.Buffer? && Renderable(file.State())
    modifies file, stream
    ensures var step := CompileStep(old(file.State()), variables, render);
            && file.State() == step.file
            && stream.pushed == old(stream.pushed)
            && stream.errors == old(stream.errors) + step.errors
  {
    ghost var before := file.State();
    var body := file.contents.text;
    file.BuildContext(variables);
    var context := file.meta.value;
    ContextKeepsTemplate(before.meta.value, file.path, file.stat, variables, body);
    var out := render(TemplateSource(context, body), Obj(context));
    Store(file, stream, out);
  }

  /** The engine's callback: forward the filters' errors, then keep the HTML or report the failure. */
  method Store(file: VinylFile, stream: Stream, out: Rendered)
    modifies file`contents, stream`errors
    ensures match out.output
            case Ok(html) => file.contents == Buffer(html) && stream.errors == old(stream.errors) + out.filterErrors
            case Err(e) => file.contents == old(file.contents) && stream.errors == old(stream.errors) + (out.filterErrors + [Report(e)])
  {
    ghost var reported := stream.errors;
    stream.EmitAll(out.filterErrors);
    match out.output {
      case Ok(html) =>
        file.contents := Buffer(html);
      case Err(e) =>
        stream.Emit(Report(e));
        AppendAssociates(reported, out.filterErrors, [Report(e)]);
    }
  }

  lemma AppendAssociates<T>(a: seq<T>, b: seq<T>, c: seq<T>)
    ensures a + b + c == a + (b + c)
  {
  }
}
