/**
 * The Ruby values the console passes around, kept abstract: the core only
 * stores, compares and hands them to the formatter.
 */
module RubyValues {
  import opened Wrappers

  /** A Ruby object as far as the console is concerned. */
  datatype Value =
    | Nil
    | Sym(name: string)                  // a Symbol such as :ok
    | Obj(className: string, id: nat)    // any other object, by class and identity

  /** An exception object caught by the console's catch-all rescue. */
  datatype RubyException = RubyException(className: string, message: string)

  /** `IRB::Context::IGNORE_RESULT`, the symbol :irb_ignore_result. */
  const IgnoreResult: Value := Sym("irb_ignore_result")

  /** The local variables of the session's binding (user state that persists between snippets). */
  type Env = map<string, Value>

  /** The two REPL slots as the binding exposes them: `_` and `e`/`exception`. */
  datatype Slots = Slots(lastResult: Value, lastException: Option<RubyException>)

  /** What running a snippet does: it returns a value or raises, and may change the binding either way. */
  datatype Outcome =
    | Returned(value: Value, env: Env)
    | Raised(exception: RubyException, env: Env)
}
