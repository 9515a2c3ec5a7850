# gulp-armadillo `nunjucks` plugin — a Dafny model

This project models the decision layer of the `nunjucks` Gulp plugin of
gulp-armadillo (`helpers/nunjucks.js`). The plugin turns HTML content files
into rendered pages:

- it drops files that have no contents and refuses streamed contents;
- it renders a file only when the file's extension is `.html` and the file
  carries metadata (`file.meta`);
- it builds the render context from that metadata object itself, adding
  `filename`, `published`, `updated`, `stats` and `global`;
- when the metadata names a parent `template`, it wraps the body in a
  synthetic `{% extends "…" %}{% block content %}…{% endblock %}` template;
- it reports every render failure on the stream's error channel and still
  pushes the file on;
- it registers five filters (`attributes`, `body`, `render`, `markdown`,
  `date`), then the caller's filters and tags;
- it sets `failOnError` when `--fail` appears among the trailing process
  arguments.

The collaborators are function values held in `Capabilities.Capabilities`,
so every property holds for every file system, front-matter parser,
markdown converter, date formatter and template engine. Each of them may
fail, and a failure is a `Result.Err` carrying the thrown message, taken
to be non-empty. The
engine's `renderString` returns the errors that the plugin's filters
reported while the engine ran them, followed by the rendered text or the
engine's own error.

Files, one module each:

- `wrappers.dfy`: `Option` and `Result`.
- `values.dfy`: JavaScript values, truthiness, property reads and `String(v)`.
- `strings.dfy`: prefix and suffix tests on strings.
- `node_path.dfy`: Node's POSIX `path.extname`, with an exact
  characterisation of `extname(p) === '.html'`.
- `capabilities.dfy`: the collaborators and the `PluginError` value.
- `filters.dfy`: the five built-in filters.
- `registry.dfy`: the environment, the options, filter and tag
  registration, and `--fail`.
- `context.dfy`: the render context.
- `template_wrapper.dfy`: the extends/block wrapper and its inverse.
- `transform.dfy`: the per-file transform, together with the file and
  stream objects it updates in place.

Behaviour of the code worth knowing:

- A file with null contents is dropped: the callback returns without
  `push`. It does not pass through.
- `published` and `updated` come from the metadata only when the value there
  is truthy. A present but falsy value (`""`, `0`, `null`) is replaced by the
  stat time.
- The front-matter splitter may throw. Inside a filter this becomes one
  reported error.

## Model

| member | source | states |
|---|---|---|
| `NodePath.Extname` | helpers/nunjucks.js:151 | `path.extname(p)` is empty or a suffix of `p`'s last segment (trailing slashes ignored) that starts with its only `.`, holds no `/`, and is shorter than the segment. |
| `NodePath.ExtnameIsHtml` | helpers/nunjucks.js:170 | `extname(p) === '.html'` holds exactly when `p`, with trailing slashes removed, ends in a non-empty last segment followed by `.html`. |
| `Filters.ReadMatter` | helpers/nunjucks.js:55-57 | A non-string path fails with the message `path.join` throws for it. A failed read fails with the read's message. Otherwise the result is whatever the splitter returns for the text. |
| `Filters.AttributesFilter` | helpers/nunjucks.js:52-76 | A read or split failure is reported exactly once and the value is undefined. Success reports nothing. Falsy attributes give `{}`. Otherwise a truthy `attribute` selects that one entry and a falsy one gives the whole attributes. |
| `Filters.BodyFilter` | helpers/nunjucks.js:78-88 | A failure is reported once and the value is undefined. Otherwise the value is the referenced file's body. |
| `Filters.RenderSource` | helpers/nunjucks.js:90-99 | The engine renders the body itself when the extension is `.html`, and the markdown conversion of the body otherwise. A failed conversion fails. The context is always the referenced file's own attributes. |
| `Filters.RenderFilter` | helpers/nunjucks.js:90-106 | A failure before rendering gives one report and undefined. Otherwise the errors are the nested filter reports, plus exactly one more when the engine fails. The value is the rendered text or undefined. |
| `Filters.MarkdownFilter` | helpers/nunjucks.js:108-115 | A converter failure is reported once and the value is undefined. Otherwise the value is the converted text and nothing is reported. |
| `Filters.DateFilter` | helpers/nunjucks.js:117-124 | A formatter failure is reported once and the value is undefined. Otherwise the value is the formatted text and nothing is reported. |
| `Filters.ApplyBuiltin` | helpers/nunjucks.js:52-124 | Every built-in filter except `render` reports at most one error, and only when its value is undefined. |
| `Filters.AttributesOfPlainFile` | helpers/nunjucks.js:59-69 | For a file without a front-matter block, `attributes(path)` is `{}` and `attributes(path, key)` is undefined, with no error. |
| `Filters.MissingFileReportedOnce` | helpers/nunjucks.js:73-75 | When the read fails, `attributes`, `body` and `render` each report exactly that one error and resolve to undefined. |
| `Registry.FilterTable` | helpers/nunjucks.js:52-129 | The registry holds the five built-in names and the caller's names. A caller filter wins every clash. A built-in survives wherever the caller defines no filter of that name. |
| `Registry.CallerOverridesBuiltin` | helpers/nunjucks.js:127-129 | A caller filter named like a built-in replaces the built-in. |
| `Registry.FailFlagAfterLeadingThree` | helpers/nunjucks.js:139-145 | Whatever the first three arguments are, the flag counts exactly when `--fail` is among the arguments after them. |
| `Registry.Environment.Configure` | helpers/nunjucks.js:45-47 | The environment gets the search paths, caching disabled, and empty registries. |
| `Registry.Environment.AddFilter` | helpers/nunjucks.js:128 | A registration replaces any earlier filter of that name. |
| `Registry.Environment.AddBuiltinFilters` | helpers/nunjucks.js:52-124 | The five built-ins are added over the existing registry. |
| `Registry.Environment.AddCallerFilters` | helpers/nunjucks.js:127-129 | Whatever the key order, every caller filter is added over the existing registry under its own name. |
| `Registry.Environment.AddCallerTags` | helpers/nunjucks.js:132-134 | Whatever the key order, every caller tag is added as an extension over the existing extensions. |
| `Registry.Environment.AddExtension` | helpers/nunjucks.js:133 | A tag registration replaces any earlier extension of that name and leaves the others. |
| `Registry.Options.ReadCommandLine` | helpers/nunjucks.js:139-145 | `failOnError` afterwards is its old value, or true when `--fail` occurs at an index of 3 or more. |
| `Registry.Setup` | helpers/nunjucks.js:31-145 | From the options, the factory builds the environment with search paths, no cache, and the merged filter table and tags. It throws exactly when `filters` or `tags` is absent, and then skips the later steps. It applies `--fail` only when it does not throw. |
| `RenderContext.ContextOf` | helpers/nunjucks.js:172-183 | The context's keys are the metadata keys plus the five added ones, with `filename` = path, `stats` = stat record and `global` = variables. `published`/`updated` are the truthy metadata value, else birth/modification time. All other metadata entries are unchanged. |
| `RenderContext.ContextIdempotent` | helpers/nunjucks.js:172-183 | Building the context again on the same metadata object changes nothing. |
| `RenderContext.RebuildKeepsTimestamps` | helpers/nunjucks.js:175-180 | When stat times are truthy, a second pass with newer stat data keeps the first pass's timestamps, because they now sit in the metadata. |
| `TemplateWrapper.WrapSource` | helpers/nunjucks.js:189-190 | The source starts with `{% extends "` + name + `" %}{% block content %}`, ends with body + `{% endblock %}`, and has exactly the length of those five parts. For a template name without `"`, reading it back yields exactly that name and the whole body. |
| `TemplateWrapper.UnwrapOfWrap` | helpers/nunjucks.js:188-191 | For a template name without `"`, reading the wrapped source back yields exactly the template name and the whole body. |
| `TemplateWrapper.UnwrapIsWrapped` | helpers/nunjucks.js:188-191 | Every source of the extends/block shape is the wrapper of the quote-free name and the body it holds. |
| `Transform.CompileStep` | helpers/nunjucks.js:150-214 | Null contents: dropped, nothing reported. Stream: one "Streams are not supported!" error, dropped. Other non-renderable files: pushed unchanged, no render. Renderable files: pushed with the context as metadata, rendered from the (wrapped) body. On failure they keep their contents and gain one error after the filter reports; on success the contents are the rendered text. |
| `Transform.Renderable` | helpers/nunjucks.js:170-171 | A file is eligible for rendering exactly when its path, trailing slashes removed, ends in a non-empty name followed by `.html`, and it carries metadata. |
| `Transform.TemplateSource` | helpers/nunjucks.js:187-196 | Without a truthy `template` the source is the body itself. With one whose name has no `"`, the source reads back as extending exactly that name with the whole body as its content block. |
| `Transform.ContextKeepsTemplate` | helpers/nunjucks.js:187 | Reading `template` after building the context gives the same source as reading it from the original metadata. |
| `Transform.RenderedExactlyWhenHtmlWithMeta` | helpers/nunjucks.js:170-171 | A buffered file goes to the engine exactly when its path ends in a `.html` name and it carries metadata. |
| `Transform.RenderFailureReportedOnce` | helpers/nunjucks.js:186-201 | When the engine fails, the plugin adds exactly one report to the filter reports, and the file is pushed with its old contents. |
| `Transform.NamedTemplateIsWrapped` | helpers/nunjucks.js:187-193 | A renderable file whose metadata names template `t` is rendered from its body wrapped against `t`. |
| `Transform.LayoutScenario` | helpers/nunjucks.js:187-193 | `index.html` with `{template: "layout.njk"}` and body `<p>Hi</p>` is pushed, and the engine receives `{% extends "layout.njk" %}{% block content %}<p>Hi</p>{% endblock %}`. |
| `Transform.VinylFile.BuildContext` | helpers/nunjucks.js:172-183 | The file's metadata, updated entry by entry, ends up as `ContextOf` of the old metadata. |
| `Transform.RenderInPlace` | helpers/nunjucks.js:186-201 | For a renderable file, the in-place render leaves the file and the error channel as `CompileStep` says, and pushes nothing. |
| `Transform.Store` | helpers/nunjucks.js:185-200 | On success the contents become the rendered text, after the filter reports are emitted. On failure the contents are kept, and the filter reports are followed by one `filterError` report. |
| `Transform.Stream.EmitAll` | helpers/nunjucks.js:40-43 | The reports that `filterError` emitted while the engine ran are appended to the emitted errors, in order. |
| `Transform.Compile` | helpers/nunjucks.js:150-214 | After the callback, the file object is `CompileStep`'s new state. The stream has gained the file exactly when the step pushes it, and the step's errors in order. |
| `Transform.Stream.Push` | helpers/nunjucks.js:208 | The file is appended to the pushed files. |
| `Transform.Stream.Emit` | helpers/nunjucks.js:163 | The error is appended to the emitted errors. |

## Left out

- I/O: reading a file relative to the working directory (`fs.readFileSync(path.join(process.cwd(), …))`) is the `read` capability. Path joining and normalisation are part of it. The message `path.join` throws for a non-string argument depends on the Node version and the value, so it is the `joinError` capability.
- Foreign libraries: the template engine (`renderString`, `extends`/`include` resolution over the search paths, tag extensions), `front-matter`, `marked` and `dateformat` are uninterpreted capabilities. The engine does not consult the modelled registry, and the filters it calls are not tied to `Filters.ApplyBuiltin`.
- Engine built-ins: the engine's own built-in filters are not part of the registry model.
- Stream plumbing: through2, `cb()` and the `_this` rebinding are stream plumbing. "Push" and "emit" are appends to the stream object's sequences.
- Error listeners: the model treats the error channel as always listened to. In Node, an `'error'` event with no listener throws.
- Buffers: file contents are kept as text. The `Buffer` encoding and decoding (`toString`, `new Buffer`) is taken to be lossless.
- Numbers: JavaScript numbers are integers here. Fractions and NaN are not represented, dates are whatever values the stat record holds, and their string forms are not modelled.
- Property reads: reads on arrays and strings (indices, `length`) yield undefined. Only plain objects have properties, and only their own: inherited `Object.prototype` members (`constructor`, `toString`, `__proto__`, …) read as undefined, so `attributes(path, "constructor")` gives undefined where the code gives a function.
- Unsupported input shapes: a missing stat record, and metadata that is truthy but not an object, are not represented. A missing stat record throws at line 176 or 179 only when the metadata lacks a truthy `published` or `updated`. Otherwise `stats` is stored as null or undefined and the render goes ahead. Metadata that is a truthy primitive throws at line 173, because the module runs in strict mode.
- Path flavour: `NodePath.Extname` is Node's POSIX `path.extname`. On Windows, Node uses the win32 flavour, where `\` also separates segments: `C:\site\.html` has extension `''` there but `.html` in the model.
- Missing path: a file whose `path` is undefined cannot be expressed (`FileState.path` is a string). In the code, `path.extname` throws for it at line 151, before the null-contents check.
- `Capabilities.Report`: the model assumes every failure carries a non-empty message, and always builds the error value. In the code, `new gutil.PluginError(PLUGIN_NAME, e.message)` at line 41 throws when the message is falsy, e.g. an `Error` with an empty message or a thrown non-`Error` value. Inside a filter (lines 74, 86, 104, 113, 122) that throw leaves the filter's `catch` and aborts `renderString`. The catch at line 199 then reports it once, and the file keeps its old contents. The same throw at line 200 escapes the callback, so the file is not pushed.
- Template names: names containing `"` are not escaped by the wrapper. `TemplateWrapper.UnwrapOfWrap` states the round trip only for quote-free names.
- Recursion: recursive `render` chains (a file rendering itself) cannot arise in the model, because the engine is abstract. The code has no cycle guard.
- `failOnError`: the flag is parsed and stored. Nothing in the code consumes it.
- The `body` filter's unused second argument is not modelled.
