/** The formatter's renderings (`IRB::Formatter`), consumed as given string functions. */
module IrbFormatter {
  import opened RubyValues

  /** Rendering a result calls the object's `inspect`, which may itself raise. */
  datatype Rendering = Rendered(text: string) | RenderRaised(exception: RubyException)

  datatype Formatter = Formatter(
    prompt: (int, seq<string>) -> string,     // `prompt(context)`: from the line and the buffer's depth
    result: Value -> Rendering,               // `result(object)`
    exception: RubyException -> string,       // `exception(e)`
    syntaxError: (int, string) -> string)     // `syntax_error(line, detail)`
}
