/**
 * `IRB::Context` itself: the fields the Ruby object updates in place, and
 * methods that update them step by step as the Ruby methods do. Each method
 * is proved to take the context from `old(Snapshot())` to the state the
 * matching function of ContextModel describes.
 */
module IrbContext {
  import opened Wrappers
  import opened RubyValues
  import opened IrbSource
  import opened IrbFormatter
  import opened ContextModel

  class Context {
    const target: TargetObject       // `@object`
    const rules: SourceRules         // the parser behind `IRB::Source`
    const evaluator: Evaluator       // `eval` against `@binding`
    const formatter: Formatter

    var line: int                    // `@line`
    var buffer: seq<string>          // `@source`'s lines
    var binding: Env                 // `@binding`'s locals
    var lastResult: Value            // `_`, written by the last-result assigner
    var lastException: Option<RubyException>  // `e` and `exception`, written by the exception assigner
    var log: seq<string>             // everything `output` has written

    function Collab(): Collaborators {
      Collaborators(rules, evaluator, formatter)
    }

    function Snapshot(): State
      reads this
    {
      State(line, buffer, binding, lastResult, lastException, log)
    }

    /** `initialize(object, explicit_binding)`: line 1, an empty buffer, `_` and `e` set to nil. */
    constructor (target: TargetObject, binding: Env, rules: SourceRules, evaluator: Evaluator, formatter: Formatter)
      ensures this.target == target && this.rules == rules && this.evaluator == evaluator && this.formatter == formatter
      ensures Snapshot() == Initial(binding)
      ensures line == 1 && buffer == [] && Join(buffer) == ""
      ensures Running(Snapshot())
    {
      this.target := target;
      this.rules := rules;
      this.evaluator := evaluator;
      this.formatter := formatter;
      this.binding := binding;
      line := 1;
      buffer := [];
      log := [];
      lastResult := Nil;
      lastException := None;
    }

    /** `to_s` / `inspect`. */
    function ToS(): (r: string)
      ensures |Quoted(target.inspect)| <= DescriptionLimit ==> r == ContextPrefix + Quoted(target.inspect) + ">"
      ensures |Quoted(target.inspect)| > DescriptionLimit ==> r == ContextPrefix + "of class " + Quoted(target.className) + ">"
    {
      Describe(target)
    }

    method ClearBuffer()
      modifies this`buffer
      ensures buffer == []
    {
      buffer := [];
    }

    method StoreResult(result: Value)
      modifies this`lastResult
      ensures lastResult == result
    {
      lastResult := result;
    }

    method StoreException(exception: RubyException)
      modifies this`lastException
      ensures lastException == Some(exception)
    {
      lastException := Some(exception);
    }

    /** `output(string)`: whichever sink is current, the text is appended to what the session wrote. */
    method Output(text: string)
      modifies this`log
      ensures log == old(log) + [text]
    {
      log := log + [text];
    }

    /** `formatter.add_input_to_context(self, line)`: the line joins the buffer. */
    method AddInput(input: string)
      modifies this`buffer
      ensures buffer == old(buffer) + [input]
    {
      buffer := buffer + [input];
    }

    method Evaluate(source: string) returns (result: Option<Value>)
      modifies this
      ensures Evaluated(Snapshot(), result) == ContextModel.Evaluate(Collab(), old(Snapshot()), source)
    {
      var outcome := evaluator(binding, Slots(lastResult, lastException), source, IrbFile, line - |buffer| + 1);
      binding := outcome.env;
      result := None;
      match outcome
      case Raised(ex, _) =>
        StoreException(ex);
        Output(formatter.exception(ex));
      case Returned(v, _) =>
        if v != IgnoreResult {
          StoreResult(v);
          match formatter.result(v)
          case Rendered(text) =>
            Output(text);
            result := Some(v);
          case RenderRaised(ex) =>
            StoreException(ex);
            Output(formatter.exception(ex));
        }
    }

    method ProcessLine(input: string) returns (keepRunning: bool)
      modifies this
      ensures Processed(Snapshot(), keepRunning) == ContextModel.ProcessLine(Collab(), old(Snapshot()), input)
    {
      AddInput(input);
      if rules.terminate(buffer) {
        return false;
      }
      match rules.syntaxError(buffer) {
        case Some(detail) =>
          Output(formatter.syntaxError(line, detail));
          buffer := buffer[..|buffer| - 1];   // @source.pop
        case None =>
          if rules.codeBlock(buffer) {
            var _ := Evaluate(Join(buffer));
            ClearBuffer();
          }
      }
      line := line + 1;
      keepRunning := true;
    }

    method InputLine(input: string) returns (keepRunning: bool)
      modifies this
      ensures Processed(Snapshot(), keepRunning) == ContextModel.InputLine(Collab(), old(Snapshot()), input)
    {
      Output(formatter.prompt(line, buffer) + input);
      keepRunning := ProcessLine(input);
    }
  }
}
