/**
 * The per-line state machine of `IRB::Context` as functions on a snapshot of
 * the context's state. The class in IrbContext is proved to follow these
 * functions call by call.
 */
module ContextModel {
  import opened Wrappers
  import opened RubyValues
  import opened IrbSource
  import opened IrbFormatter

  /** Ruby's `eval(source, binding, file, line)` against the session's binding. */
  type Evaluator = (Env, Slots, string, string, int) -> Outcome

  datatype Collaborators = Collaborators(source: SourceRules, evaluator: Evaluator, formatter: Formatter)

  /** What the session is bound to; only its `inspect` text and class name are displayed. */
  datatype TargetObject = TargetObject(inspect: string, className: string)

  /** The context's mutable state: `@line`, `@source`, the binding, the two REPL slots, the output so far. */
  datatype State = State(
    line: int,
    buffer: seq<string>,
    env: Env,
    lastResult: Value,
    lastException: Option<RubyException>,
    log: seq<string>)

  datatype Evaluated = Evaluated(state: State, result: Option<Value>)
  datatype Processed = Processed(state: State, keepRunning: bool)

  /** The file name every snippet is attributed to. */
  const IrbFile := "(irb)"

  /** Longest quoted `inspect` text `to_s` still shows. */
  const DescriptionLimit := 32

  const ContextPrefix := "#<IRB::Context for object "

  /** The state right after `initialize`: line 1, an empty buffer, `_` and `e` bound to nil. */
  function Initial(env: Env): State {
    State(1, [], env, Nil, None, [])
  }

  /** A state a running session can be in: a real line number, fewer buffered lines than lines typed. */
  predicate Running(s: State) {
    1 <= s.line && |s.buffer| < s.line
  }

  function SlotsOf(s: State): Slots {
    Slots(s.lastResult, s.lastException)
  }

  /**
   * The line a snippet is attributed to, counted back from `@line` by the buffer's size: the
   * block's first line unless a syntax error dropped a line while it was open.
   */
  function AttributedLine(s: State): int {
    s.line - |s.buffer| + 1
  }

  /** `__evaluate__(source, '(irb)', line)`: one run of the evaluator. */
  function RunSnippet(c: Collaborators, s: State, source: string): Outcome {
    c.evaluator(s.env, SlotsOf(s), source, IrbFile, AttributedLine(s))
  }

  /** The `rescue Exception => e` branch: store the exception and print its rendering. */
  function Rescue(c: Collaborators, s: State, ex: RubyException): State {
    s.(lastException := Some(ex), log := s.log + [c.formatter.exception(ex)])
  }

  /**
   * `Context#evaluate`: run the snippet; keep and print any result but the
   * ignore sentinel; catch every exception, from the snippet or from
   * rendering its result, and print it. It always returns normally.
   */
  function Evaluate(c: Collaborators, s: State, source: string): (r: Evaluated)
    ensures r.state.line == s.line && r.state.buffer == s.buffer
    ensures r.state.env == RunSnippet(c, s, source).env
    ensures s.log <= r.state.log && |r.state.log| <= |s.log| + 1
    // the snippet raised: the exception is kept and printed, the last result stays
    ensures RunSnippet(c, s, source).Raised? ==>
      var ex := RunSnippet(c, s, source).exception;
      r.result == None && r.state.lastResult == s.lastResult &&
      r.state.lastException == Some(ex) && r.state.log == s.log + [c.formatter.exception(ex)]
    // the ignore sentinel: nothing stored, nothing printed
    ensures RunSnippet(c, s, source) .Returned? && RunSnippet(c, s, source).value == IgnoreResult ==>
      r.result == None && r.state.lastResult == s.lastResult &&
      r.state.lastException == s.lastException && r.state.log == s.log
    // any other value becomes the last result; it is printed and returned unless printing raises
    ensures RunSnippet(c, s, source).Returned? && RunSnippet(c, s, source).value != IgnoreResult ==>
      var v := RunSnippet(c, s, source).value;
      r.state.lastResult == v &&
      match c.formatter.result(v)
      case Rendered(text) =>
        r.result == Some(v) && r.state.lastException == s.lastException && r.state.log == s.log + [text]
      case RenderRaised(ex) =>
        r.result == None && r.state.lastException == Some(ex) && r.state.log == s.log + [c.formatter.exception(ex)]
    // a returned value is exactly the stored last result, and never the sentinel
    ensures r.result.Some? ==> r.result.value != IgnoreResult && r.state.lastResult == r.result.value
  {
    match RunSnippet(c, s, source)
    case Raised(ex, env) => Evaluated(Rescue(c, s.(env := env), ex), None)
    case Returned(v, env) =>
      if v == IgnoreResult then Evaluated(s.(env := env), None)
      else
        var stored := s.(env := env, lastResult := v);
        match c.formatter.result(v)
        case Rendered(text) => Evaluated(stored.(log := stored.log + [text]), Some(v))
        case RenderRaised(ex) => Evaluated(Rescue(c, stored, ex), None)
  }

  /** Neither finished, nor broken, nor a request to stop: the buffer waits for more lines. */
  predicate Waiting(rules: SourceRules, lines: seq<string>) {
    !rules.terminate(lines) && rules.syntaxError(lines).None? && !rules.codeBlock(lines)
  }

  /**
   * `Context#process_line`: append the line, then check the buffer for
   * terminate, syntax error and complete block, in that order; every line
   * that does not terminate advances `@line` by one.
   */
  function ProcessLine(c: Collaborators, s: State, input: string): (r: Processed)
    // terminate wins over everything else and leaves the line count and the output alone
    ensures r.keepRunning <==> !c.source.terminate(s.buffer + [input])
    ensures !r.keepRunning ==> r.state == s.(buffer := s.buffer + [input])
    ensures r.keepRunning ==> r.state.line == s.line + 1
    ensures s.log <= r.state.log
    ensures Running(s) && r.keepRunning ==> Running(r.state)
    // a syntax error prints one report at the current line and drops only the line just typed
    ensures !c.source.terminate(s.buffer + [input]) && c.source.syntaxError(s.buffer + [input]).Some? ==>
      r.state == s.(line := s.line + 1,
                    log := s.log + [c.formatter.syntaxError(s.line, c.source.syntaxError(s.buffer + [input]).value)])
    // a complete block is evaluated as the joined buffer, attributed to `@line - |buffer|` (the block's
    // first line unless a syntax error dropped a line while it was open), then cleared
    ensures !c.source.terminate(s.buffer + [input]) && c.source.syntaxError(s.buffer + [input]).None? &&
            c.source.codeBlock(s.buffer + [input]) ==>
      var full := s.(buffer := s.buffer + [input]);
      AttributedLine(full) == s.line - |s.buffer| &&
      r.state == Evaluate(c, full, Join(full.buffer)).state.(buffer := [], line := s.line + 1)
    // otherwise the line is kept verbatim and nothing runs or prints
    ensures Waiting(c.source, s.buffer + [input]) ==>
      r.state == s.(buffer := s.buffer + [input], line := s.line + 1)
  {
    var fed := s.(buffer := s.buffer + [input]);   // formatter.add_input_to_context
    if c.source.terminate(fed.buffer) then Processed(fed, false)
    else
      var handled :=
        match c.source.syntaxError(fed.buffer)
        case Some(detail) =>
          fed.(log := fed.log + [c.formatter.syntaxError(fed.line, detail)],
               buffer := fed.buffer[..|fed.buffer| - 1])   // @source.pop
        case None =>
          if c.source.codeBlock(fed.buffer) then Evaluate(c, fed, Join(fed.buffer)).state.(buffer := [])
          else fed;
      Processed(handled.(line := handled.line + 1), true)
  }

  /** The prompt the formatter shows for this state, followed by the typed line. */
  function Echo(c: Collaborators, s: State, input: string): string {
    c.formatter.prompt(s.line, s.buffer) + input
  }

  /** `Context#input_line`: print the prompt and the line, then process the line. */
  function InputLine(c: Collaborators, s: State, input: string): (r: Processed)
    ensures |r.state.log| > |s.log| && r.state.log[..|s.log| + 1] == s.log + [Echo(c, s, input)]
    ensures r.keepRunning == ProcessLine(c, s, input).keepRunning
    ensures r.state.line == ProcessLine(c, s, input).state.line
    ensures r.state.buffer == ProcessLine(c, s, input).state.buffer
    // everything but the output is exactly what `process_line` leaves, and its output follows the echo
    ensures r.state.(log := ProcessLine(c, s, input).state.log) == ProcessLine(c, s, input).state
    ensures r.state.log == s.log + [Echo(c, s, input)] + ProcessLine(c, s, input).state.log[|s.log|..]
  {
    ProcessLineIgnoresLog(c, s, s.log + [Echo(c, s, input)], input);
    ProcessLine(c, s.(log := s.log + [Echo(c, s, input)]), input)
  }

  /** Output is write-only: what `process_line` does to the rest of the state never depends on the log. */
  lemma ProcessLineIgnoresLog(c: Collaborators, s: State, log: seq<string>, input: string)
    ensures var p := ProcessLine(c, s, input); var q := ProcessLine(c, s.(log := log), input);
      p.keepRunning == q.keepRunning && q.state.(log := p.state.log) == p.state &&
      q.state.log == log + p.state.log[|s.log|..]
  {
  }

  /** `process_line` called on each line in turn, until one of them terminates. */
  ghost function ProcessLines(c: Collaborators, s: State, lines: seq<string>): (r: Processed)
    ensures r.keepRunning ==> r.state.line == s.line + |lines|
    ensures s.line <= r.state.line <= s.line + |lines|
    ensures s.log <= r.state.log
    ensures Running(s) && r.keepRunning ==> Running(r.state)
    decreases |lines|
  {
    if lines == [] then Processed(s, true)
    else
      var p := ProcessLine(c, s, lines[0]);
      if p.keepRunning then ProcessLines(c, p.state, lines[1..]) else p
  }

  function Quoted(text: string): string {
    "`" + text + "'"
  }

  /** `Context#to_s`: the object's quoted `inspect`, or its class if that text runs over 32 characters. */
  function Describe(target: TargetObject): (r: string)
    ensures |ContextPrefix| < |r| && r[..|ContextPrefix|] == ContextPrefix && r[|r| - 1] == '>'
    ensures var shown := r[|ContextPrefix|..|r| - 1];
      (shown == Quoted(target.inspect) <==> |Quoted(target.inspect)| <= DescriptionLimit) &&
      (shown != Quoted(target.inspect) ==> shown == "of class " + Quoted(target.className))
  {
    var description :=
      if |Quoted(target.inspect)| > DescriptionLimit then "of class " + Quoted(target.className)
      else Quoted(target.inspect);
    assert (ContextPrefix + description + ">")[|ContextPrefix|..|ContextPrefix| + |description|] == description;
    assert description[0] == '`' <==> description == Quoted(target.inspect);  // the two forms differ at once
    ContextPrefix + description + ">"
  }
}
