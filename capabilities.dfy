/**
 * The collaborators the plugin calls but does not implement, as function
 * values: reading a file relative to the working directory, the
 * front-matter splitter, the markdown converter, the date formatter and the
 * template engine's `renderString`. Each may fail with an error message.
 * Also the uniform error value the plugin reports.
 */
module Capabilities {
  import opened Wrappers
  import opened JsValues

  /** The stage name every reported error carries. */
  const PluginName := "nunjucks"

  /** `new gutil.PluginError(PLUGIN_NAME, message)`. */
  datatype PluginError = PluginError(plugin: string, message: string)

  function Report(message: string): PluginError {
    PluginError(PluginName, message)
  }

  /** What `fm(text)` returns: the attributes (possibly not an object) and the body. */
  datatype FrontMatter = FrontMatter(attributes: Value, body: string)

  /**
   * One `renderString(source, context)` call: the errors the plugin's filters
   * reported while the engine ran them, in order, and then the rendered text
   * or the message of the error the engine threw.
   */
  datatype Rendered = Rendered(filterErrors: seq<PluginError>, output: Result<string, string>)

  /**
   * `read` is `fs.readFileSync(path.join(process.cwd(), file))` for a string
   * `file`; `joinError` is the message `path.join` throws for a non-string
   * `file`, whose wording depends on the Node version and the value.
   */
  datatype Capabilities = Capabilities(
    joinError: Value -> string,
    read: string -> Result<string, string>,
    split: string -> Result<FrontMatter, string>,
    markdown: Value -> Result<string, string>,
    dateFormat: (Value, Value) -> Result<string, string>,
    render: (string, Value) -> Rendered)
}
