# IRB::Context — the per-line state machine of an interactive Ruby console

This project models the core of DietRB's `IRB::Context` (`lib/irb/context.rb`).
The context collects typed lines in a source buffer. After each line it asks the
buffer whether the user asked to quit, whether the text is a syntax error, or
whether it is a complete block. It then reports the error and drops the line,
or evaluates the block and clears the buffer, or waits for more input. Every
line that does not quit advances the logical line counter `@line` by one.
Evaluation stores the result in `_` (unless it is the `:irb_ignore_result`
sentinel) and prints it. Every exception is caught, stored in `e`/`exception`
and printed.

Layout:

- `wrappers.dfy`: `Option`.
- `values.dfy` (`RubyValues`): values, exceptions, the binding's locals, the REPL slots, and the outcome of one `eval`.
- `source.dfy` (`IrbSource`): the parser questions about the buffer (`SourceRules`), the buffer text `Join`, and its inverse `Split`.
- `formatter.dfy` (`IrbFormatter`): the formatter's renderings, given as functions.
- `context_model.dfy` (`ContextModel`): the context's state as a datatype. `Evaluate`, `ProcessLine` and `InputLine` are functions from state to state, and `ProcessLines` is a run of successive calls.
- `context.dfy` (`IrbContext`): the class `Context`. Its fields are updated in place, as in the Ruby object. Each method is proved to take `old(Snapshot())` to the state the matching `ContextModel` function gives.
- `properties.dfy` (`ContextProperties`): properties that span several calls.
- `attribution.dfy` (`Attribution`): the line a block is attributed to after a syntax error dropped a line, as written and as intended.

The collaborators the context only consumes are parameters of the model: the
parser behind `IRB::Source`, Ruby's `eval` against the binding, and the formatter.
The parser is three total functions on the buffer's lines. `eval` is a function from
the binding, the two REPL slots, the text, the file name and the line to a returned
value or a raised exception, each with the new binding. The output sink is a log
that output is appended to.

Points where the model follows the code closely:

- On terminate, `process_line` returns `false` with the line still in the buffer. `formatter.add_input_to_context` has already appended it, and nothing removes it. `@line` and the output do not change.
- `evaluate` attributes a snippet to `@line - @source.buffer.size + 1`. It uses the context's own buffer, not the argument. From `process_line` this is the block's first line, shifted one line later for every line a syntax error dropped while the block was open (see "## Findings"). A direct `evaluate` with an empty buffer is attributed to `@line + 1`.
- The `rescue` covers the whole body of `evaluate`. If rendering the result raises (say, from `inspect`), the value has already been stored in `_`. The exception is then stored and printed, and `evaluate` returns nil.
- `evaluate` returns `Some(v)` only when it returns the value `v`. Every other path returns Ruby's nil and is `None` here.

## Model

| member | source | states |
|---|---|---|
| IrbContext.Context.constructor | lib/irb/context.rb:17-25 | a fresh context is at line 1 with an empty buffer whose text is "", `_` and `e` are nil, nothing printed |
| ContextModel.Evaluate | lib/irb/context.rb:38-48 | line and buffer untouched; output grows by at most one item; a raised exception becomes the last exception and is printed while `_` stays; the ignore sentinel stores and prints nothing; any other value becomes `_`, is printed and returned, or, if rendering it raises, that exception is stored and printed and nil returned; a returned value is never the sentinel and always equals `_` |
| IrbContext.Context.Evaluate | lib/irb/context.rb:38-48 | the in-place update of binding, slots and log equals `ContextModel.Evaluate` on the old state |
| ContextModel.ProcessLine | lib/irb/context.rb:62-80 | returns false exactly when the buffer with the new line is a terminate request, and then only the buffer changed; otherwise line + 1; a syntax error prints one report at the current line and leaves the earlier lines in order; a complete block is evaluated as the joined buffer attributed to `@line - |buffer|` (the block's first line unless a syntax error dropped a line while it was open) and the buffer is then empty; a waiting buffer keeps the line verbatim with nothing printed; output only grows; a running state (line >= 1, fewer buffered lines than lines) stays running |
| IrbContext.Context.ProcessLine | lib/irb/context.rb:62-80 | the in-place update (append, pop, evaluate, clear, `@line += 1`) equals `ContextModel.ProcessLine` on the old state |
| ContextModel.InputLine | lib/irb/context.rb:100-103 | the first new output is the prompt followed by the line; result, line and buffer are those of `process_line` on that line |
| IrbContext.Context.InputLine | lib/irb/context.rb:100-103 | the in-place update equals `ContextModel.InputLine` on the old state |
| ContextModel.ProcessLineIgnoresLog | lib/irb/context.rb:86-94 | output is write-only: what `process_line` does to everything but the log does not depend on the log, and it only appends to it |
| ContextModel.ProcessLines | lib/irb/context.rb:62-80 | over successive calls the line grows by one per line until a terminate, output only grows, and a running state stays running |
| ContextModel.Describe | lib/irb/context.rb:31-35 | `to_s` shows the quoted `inspect` exactly when it is at most 32 characters, and `of class` with the quoted class name otherwise, inside `#<IRB::Context for object …>` |
| IrbSource.Join | spec/context_spec.rb:123-127 | the buffer text (`Source#to_s`, what `evaluate` receives at lib/irb/context.rb:74): "" for the empty buffer; it opens with the first line typed, followed by a line break when more lines follow, and ends with the last |
| IrbContext.Context.ToS | lib/irb/context.rb:31-36 | `to_s`/`inspect` is `#<IRB::Context for object ` followed by the quoted `inspect` when that is at most 32 characters, else by `of class` and the quoted class name, then `>` |
| IrbSource.SplitJoin | spec/context_spec.rb:123-127 | the buffer text keeps its lines verbatim and in typing order: splitting it at newlines gives the lines back |
| ContextProperties.ProcessLinesAppend | lib/irb/context.rb:62-80 | processing two runs of lines one after the other is processing their concatenation |
| ContextProperties.Accumulate | spec/context_spec.rb:123-135 | while the buffer keeps waiting, the lines accumulate verbatim, nothing is evaluated or printed, and the line grows by one per line |
| ContextProperties.TwoLinesAccumulate | spec/context_spec.rb:123-135 | "def foo" then "p :ok" leave the buffer text "def foo\np :ok" at line 3 |
| ContextProperties.BlockEvaluatedOnce | spec/context_spec.rb:137-146 | a k-line block is evaluated exactly once, on its last line, as the joined lines attributed to its first line, and the buffer is then empty |
| ContextProperties.LastResultRoundTrip | spec/context_spec.rb:66-70 | after a value is returned, evaluating `_` twice returns it both times and keeps it as the last result |
| ContextProperties.SessionSurvivesException | spec/context_spec.rb:78-89 | a line that raises keeps the session running: the exception is stored, `_` kept, the buffer emptied, and the next complete line is evaluated |
| Attribution.AttributionAfterDroppedLine | lib/irb/context.rb:39 | as written: "def foo" on line 1, "}" dropped as a syntax error on line 2, "end" on line 3 run the block at line 2 |
| Attribution.ProcessLineIntended | lib/irb/context.rb:62-80 | `process_line` that remembers the line each buffered line was typed on: same result, line and buffer as `process_line`; a completed block runs at the line its first buffered line was typed on, and its whole new state (binding, slots, output, empty bookkeeping) is the code's step taken from the line counter it would have had had no line been dropped; identical to `process_line` when no line was dropped; the bookkeeping stays consistent |
| Attribution.AttributionDrift | lib/irb/context.rb:39 | the code's attribution is never earlier than the line the block's first buffered line was typed on, and equals it exactly when no buffered line was dropped |
| Attribution.IntendedAttributionAfterDroppedLine | lib/irb/context.rb:39 | intended: the same three lines run the block at line 1 |
| IrbContext.Context.Output | lib/irb/context.rb:86-94 | the text is appended to the session's output |
| IrbContext.Context.ClearBuffer | lib/irb/context.rb:109-111 | the buffer is empty |
| IrbContext.Context.StoreResult | lib/irb/context.rb:113-115 | the value is the last result |
| IrbContext.Context.StoreException | lib/irb/context.rb:117-119 | the exception is the last exception |
| IrbContext.Context.AddInput | lib/irb/context.rb:63 | the line is appended to the buffer |

## Findings

| source | as written | input that shows it | evidently intended | confidence | as-written member | corrected member |
|---|---|---|---|---|---|---|
| lib/irb/context.rb:39 | a block is attributed to `@line - @source.buffer.size + 1`, but a syntax error (lines 70-72) drops a buffered line while `@line += 1` (line 77) still runs, so the count lands one line later per dropped line | "def foo" (line 1), "}" (syntax error, dropped, line 2), "end" (line 3): the block runs at line 2 | the block runs at the line its first buffered line was typed on, line 1 | medium, not executed | Attribution.AttributionAfterDroppedLine | Attribution.ProcessLineIntended |

`ContextModel` and the class follow the code as written. `ProcessLineIntended` is the corrected attribution. It agrees with `ProcessLine` whenever no buffered line was dropped (`AttributionDrift`).

## Left out

- Ruby's `eval` and the binding (lib/irb/context.rb:19, 27-29): dynamic code execution. It is a parameter of the model, a function from binding, slots, text, file and line to an outcome.
- The two assigner procs (lib/irb/context.rb:23-24): they are the two slot fields. Code typed by the user that assigns `_`, `e` or `exception` itself is not modelled. The evaluator sees the slots read-only.
- `IRB::Source`'s `terminate?`, `syntax_error?`, `syntax_error` and `code_block?`: these are the Ruby parser, and `lib/irb/source.rb` is not part of this model. They are given functions of the buffer's lines. So the rule that `quit` only terminates at block depth 0 (lib/irb/context.rb:50-61) is the parser's business and is not proved here.
- `Source#to_s` is modelled as joining the lines with "\n", as the buffer tests show.
- The formatter (prompt text, result, exception and syntax-error rendering): `lib/irb/formatter.rb` is not part of this model. Its renderings are given functions. Rendering a result may raise. Rendering an exception or a syntax error is taken not to raise.
- The indentation flag that `add_input_to_context` returns is unused by the core and is not modelled.
- `IRB::Driver.current` and `puts` (lib/irb/context.rb:82-94): I/O and a process-global lookup. Both sinks are one appended log. A `puts` that raises is not modelled.
- `result == IGNORE_RESULT` calls the result's own `==`. The model compares values structurally, so a user-defined `==`, or one that raises, is not modelled.
- The lazy default formatter and the `formatter` writer (lib/irb/context.rb:15, 105-107): the formatter is fixed when the context is created.
- `evaluate` coercing its argument with `to_s`: the model's `Evaluate` takes the text.
- Readline input, `readline` and `run`: terminal I/O outside the core.
- A snippet that never returns: the evaluator is a total function, so a run that blocks the session inside `evaluate` (lib/irb/context.rb:39) is not modelled.
- `Describe`: a class whose `name` is nil is given as a string.
