/**
 * What the context promises across several calls: lines accumulate
 * verbatim while a block is open, a completed block is evaluated once as
 * the joined text attributed to its first line, `_` gives back the last
 * result, and a failing snippet does not end the session.
 */
module ContextProperties {
  import opened Wrappers
  import opened RubyValues
  import opened IrbSource
  import opened IrbFormatter
  import opened ContextModel

  /** Processing `a` and then `b` is processing `a + b`, as long as `a` did not terminate. */
  lemma {:induction false} ProcessLinesAppend(c: Collaborators, s: State, a: seq<string>, b: seq<string>)
    requires ProcessLines(c, s, a).keepRunning
    ensures ProcessLines(c, s, a + b) == ProcessLines(c, ProcessLines(c, s, a).state, b)
    decreases |a|
  {
    if a != [] {
      assert (a + b)[0] == a[0] && (a + b)[1..] == a[1..] + b;
      ProcessLinesAppend(c, ProcessLine(c, s, a[0]).state, a[1..], b);
    } else {
      assert a + b == b;
    }
  }

  /** While the buffer keeps waiting, every line is kept verbatim, nothing runs or prints, and each counts. */
  lemma {:induction false} Accumulate(c: Collaborators, s: State, lines: seq<string>)
    requires forall i :: 1 <= i <= |lines| ==> Waiting(c.source, s.buffer + lines[..i])
    ensures ProcessLines(c, s, lines) == Processed(s.(buffer := s.buffer + lines, line := s.line + |lines|), true)
    decreases |lines|
  {
    if lines != [] {
      assert lines[..1] == [lines[0]];
      var next := s.(buffer := s.buffer + [lines[0]], line := s.line + 1);
      assert ProcessLine(c, s, lines[0]) == Processed(next, true);
      forall i | 1 <= i <= |lines[1..]|
        ensures Waiting(c.source, next.buffer + lines[1..][..i])
      {
        assert next.buffer + lines[1..][..i] == s.buffer + lines[..i + 1];
      }
      Accumulate(c, next, lines[1..]);
      assert next.buffer + lines[1..] == s.buffer + lines;
    }
  }

  /**
   * A block typed over k lines into an empty buffer is evaluated exactly
   * once, on its last line, as the lines joined in typing order and
   * attributed to the line it started on; afterwards the buffer is empty.
   */
  lemma BlockEvaluatedOnce(c: Collaborators, s: State, lines: seq<string>)
    requires s.buffer == [] && |lines| >= 1
    requires forall i :: 1 <= i < |lines| ==> Waiting(c.source, lines[..i])
    requires !c.source.terminate(lines) && c.source.syntaxError(lines).None? && c.source.codeBlock(lines)
    ensures var full := s.(buffer := lines, line := s.line + |lines| - 1);
      AttributedLine(full) == s.line &&
      RunSnippet(c, full, Join(lines)) == c.evaluator(s.env, SlotsOf(s), Join(lines), IrbFile, s.line) &&
      ProcessLines(c, s, lines) ==
        Processed(Evaluate(c, full, Join(lines)).state.(buffer := [], line := s.line + |lines|), true)
  {
    var k := |lines| - 1;
    var init := lines[..k];
    OpenLinesWait(c, s, lines, init);
    Accumulate(c, s, init);
    var open := s.(buffer := init, line := s.line + k);
    assert s.buffer + init == init && init + [lines[k]] == lines;
    ProcessLinesAppend(c, s, init, [lines[k]]);
    assert open.(buffer := open.buffer + [lines[k]]) == s.(buffer := lines, line := s.line + k);
    CompleteBlockLine(c, open, lines[k]);
  }

  /** Every line of a block but the last leaves the buffer waiting. */
  lemma OpenLinesWait(c: Collaborators, s: State, lines: seq<string>, init: seq<string>)
    requires s.buffer == [] && |lines| >= 1 && init == lines[..|lines| - 1]
    requires forall i :: 1 <= i < |lines| ==> Waiting(c.source, lines[..i])
    ensures forall i :: 1 <= i <= |init| ==> Waiting(c.source, s.buffer + init[..i])
  {
    forall i | 1 <= i <= |init| ensures Waiting(c.source, s.buffer + init[..i]) {
      assert s.buffer + init[..i] == lines[..i];
    }
  }

  /** The line that completes a block: the whole buffer is evaluated and then cleared. */
  lemma CompleteBlockLine(c: Collaborators, s: State, input: string)
    requires !c.source.terminate(s.buffer + [input]) && c.source.syntaxError(s.buffer + [input]).None?
    requires c.source.codeBlock(s.buffer + [input])
    ensures var full := s.(buffer := s.buffer + [input]);
      ProcessLines(c, s, [input]) ==
        Processed(Evaluate(c, full, Join(full.buffer)).state.(buffer := [], line := s.line + 1), true)
  {
    assert [input][1..] == [];
  }

  /** The two lines typed in the buffer test: they accumulate and render as "def foo\np :ok". */
  lemma TwoLinesAccumulate(c: Collaborators, env: Env)
    requires Waiting(c.source, ["def foo"]) && Waiting(c.source, ["def foo", "p :ok"])
    ensures var r := ProcessLines(c, Initial(env), ["def foo", "p :ok"]);
      r.keepRunning && r.state.line == 3 && r.state.log == [] &&
      Join(r.state.buffer) == "def foo\np :ok"
  {
    var lines := ["def foo", "p :ok"];
    var s0 := Initial(env);
    forall i | 1 <= i <= |lines| ensures Waiting(c.source, s0.buffer + lines[..i]) {
      if i == 1 {
        assert s0.buffer + lines[..1] == ["def foo"];
      } else {
        assert s0.buffer + lines[..2] == lines;
      }
    }
    Accumulate(c, s0, lines);
    assert s0.buffer + lines == lines;
    TwoLinesText();
  }

  /** The buffer text of the two lines. */
  lemma TwoLinesText()
    ensures Join(["def foo", "p :ok"]) == "def foo\np :ok"
  {
    assert ["def foo", "p :ok"][1..] == ["p :ok"];
    assert Join(["p :ok"]) == "p :ok";
  }

  /** The binding answers `_` with the value in the last-result slot, whatever else it holds. */
  ghost predicate UnderscoreIsLastResult(ev: Evaluator) {
    forall env: Env, slots: Slots, file: string, line: int ::
      ev(env, slots, "_", file, line) == Returned(slots.lastResult, env)
  }

  /** Evaluating a value and then `_`, twice, gives the value back both times. */
  lemma LastResultRoundTrip(c: Collaborators, s: State, source: string)
    requires UnderscoreIsLastResult(c.evaluator)
    requires Evaluate(c, s, source).result.Some?
    ensures var first := Evaluate(c, s, source);
      var again := Evaluate(c, first.state, "_");
      again.result == first.result && again.state.lastResult == first.state.lastResult &&
      Evaluate(c, again.state, "_").result == first.result
  {
    var first := Evaluate(c, s, source);
    var v := first.result.value;
    assert RunSnippet(c, first.state, "_") == Returned(v, first.state.env);
    var again := Evaluate(c, first.state, "_");
    assert RunSnippet(c, again.state, "_") == Returned(v, again.state.env);
  }

  /**
   * A one-line statement that raises does not end the session: the
   * exception is kept, the buffer is empty again, and the next complete
   * line is evaluated in turn.
   */
  lemma SessionSurvivesException(c: Collaborators, s: State, bad: string, good: string)
    requires s.buffer == []
    requires !c.source.terminate([bad]) && c.source.syntaxError([bad]).None? && c.source.codeBlock([bad])
    requires !c.source.terminate([good]) && c.source.syntaxError([good]).None? && c.source.codeBlock([good])
    requires RunSnippet(c, s.(buffer := [bad]), bad).Raised?
    ensures var after := ProcessLine(c, s, bad);
      after.keepRunning && after.state.buffer == [] && after.state.line == s.line + 1 &&
      after.state.lastException == Some(RunSnippet(c, s.(buffer := [bad]), bad).exception) &&
      after.state.lastResult == s.lastResult &&
      ProcessLines(c, s, [bad, good]) ==
        Processed(Evaluate(c, after.state.(buffer := [good]), good).state.(buffer := [], line := s.line + 2), true)
  {
    assert s.buffer + [bad] == [bad];
    var after := ProcessLine(c, s, bad);
    assert after.state.buffer + [good] == [good];
    assert [bad, good][1..] == [good] && [good][1..] == [] && Join([good]) == good;
    assert ProcessLines(c, after.state, [good]) == ProcessLine(c, after.state, good);
  }
}
