/**
 * The line `evaluate` attributes a block to. The code counts back from
 * `@line` by the buffer's size, but a syntax error drops a line while
 * `@line` still advances, so after a dropped line the count lands later
 * than the block's first line. `ProcessLineIntended` keeps, for every
 * buffered line, the logical line it was typed on, and attributes the
 * block to the first of them.
 */
module Attribution {
  import opened Wrappers
  import opened RubyValues
  import opened IrbSource
  import opened IrbFormatter
  import opened ContextModel

  /** A state together with the logical line each buffered line was typed on. */
  datatype Tracked = Tracked(state: State, typedAt: seq<int>)

  datatype TrackedProcessed = TrackedProcessed(tracked: Tracked, keepRunning: bool)

  /** One entry per buffered line, typed on strictly increasing lines, all before the current one. */
  predicate TrackedValid(t: Tracked) {
    |t.typedAt| == |t.state.buffer| &&
    (forall i, j :: 0 <= i < j < |t.typedAt| ==> t.typedAt[i] < t.typedAt[j]) &&
    (forall i :: 0 <= i < |t.typedAt| ==> t.typedAt[i] < t.state.line)
  }

  /** No buffered line was dropped: the buffered lines were typed on the lines just before the current one. */
  predicate Contiguous(t: Tracked) {
    |t.typedAt| == |t.state.buffer| &&
    forall i :: 0 <= i < |t.typedAt| ==> t.typedAt[i] == t.state.line - |t.typedAt| + i
  }

  /** `process_line` with the block attributed to the line its first buffered line was typed on. */
  function ProcessLineIntended(c: Collaborators, t: Tracked, input: string): (r: TrackedProcessed)
    ensures var p := ProcessLine(c, t.state, input);
      r.keepRunning == p.keepRunning && r.tracked.state.line == p.state.line &&
      r.tracked.state.buffer == p.state.buffer
    ensures TrackedValid(t) && r.keepRunning ==> TrackedValid(r.tracked)
    // when nothing was dropped it does what the code does
    ensures Contiguous(t) ==> r.tracked.state == ProcessLine(c, t.state, input).state
    // a completed block runs at the line its first buffered line was typed on
    ensures var fed := t.state.buffer + [input];
      !c.source.terminate(fed) && c.source.syntaxError(fed).None? && c.source.codeBlock(fed) ==>
      r.tracked.state.env ==
        c.evaluator(t.state.env, SlotsOf(t.state), Join(fed), IrbFile, (t.typedAt + [t.state.line])[0]).env
    // and the whole step is the code's, taken from the line counter it would have had had no line been dropped
    ensures var fed := t.state.buffer + [input];
      !c.source.terminate(fed) && c.source.syntaxError(fed).None? && c.source.codeBlock(fed) ==>
      r.tracked == Tracked(
        ProcessLine(c, t.state.(line := (t.typedAt + [t.state.line])[0] + |t.state.buffer|), input).state
          .(line := t.state.line + 1),
        [])
  {
    var s := t.state;
    var typed := t.typedAt + [s.line];
    var fed := s.(buffer := s.buffer + [input]);
    var p := ProcessLine(c, s, input);
    if c.source.terminate(fed.buffer) then TrackedProcessed(Tracked(p.state, typed), false)
    else if c.source.syntaxError(fed.buffer).Some? then TrackedProcessed(Tracked(p.state, t.typedAt), true)
    else if c.source.codeBlock(fed.buffer) then
      // the code's step, from `@line` where it would be had no buffered line been dropped
      var from := s.(line := typed[0] + |s.buffer|);
      assert AttributedLine(from.(buffer := fed.buffer)) == typed[0];
      assert Contiguous(t) ==> from == s;
      var shifted := ProcessLine(c, from, input).state;
      TrackedProcessed(Tracked(shifted.(line := s.line + 1), []), true)
    else TrackedProcessed(Tracked(p.state, typed), true)
  }

  /** Buffered lines typed on strictly increasing lines before `line` sit at or before the code's count. */
  lemma {:induction false} TypedAtBound(typedAt: seq<int>, line: int, i: int)
    requires forall a, b :: 0 <= a < b < |typedAt| ==> typedAt[a] < typedAt[b]
    requires forall a :: 0 <= a < |typedAt| ==> typedAt[a] < line
    requires 0 <= i < |typedAt|
    ensures typedAt[i] <= line - |typedAt| + i
    decreases |typedAt| - i
  {
    if i < |typedAt| - 1 {
      TypedAtBound(typedAt, line, i + 1);
    }
  }

  /**
   * The code's attribution is never earlier than the intended one, and it
   * is the same exactly when no buffered line was dropped.
   */
  lemma AttributionDrift(t: Tracked)
    requires TrackedValid(t) && |t.typedAt| >= 1
    ensures t.typedAt[0] <= t.state.line - |t.state.buffer|
    ensures t.typedAt[0] == t.state.line - |t.state.buffer| <==> Contiguous(t)
  {
    TypedAtBound(t.typedAt, t.state.line, 0);
    if t.typedAt[0] == t.state.line - |t.state.buffer| {
      forall i | 0 <= i < |t.typedAt| ensures t.typedAt[i] == t.state.line - |t.typedAt| + i {
        TypedAtBound(t.typedAt, t.state.line, i);
        if i > 0 {
          // i strictly increasing integers starting at the bound leave no room below it
          LowerBound(t.typedAt, i);
        }
      }
    }
  }

  /** Strictly increasing integers grow by at least one per step. */
  lemma {:induction false} LowerBound(typedAt: seq<int>, i: int)
    requires forall a, b :: 0 <= a < b < |typedAt| ==> typedAt[a] < typedAt[b]
    requires 0 <= i < |typedAt|
    ensures typedAt[i] >= typedAt[0] + i
    decreases i
  {
    if i > 0 {
      LowerBound(typedAt, i - 1);
    }
  }

  /** A parser for which "}" after "def foo" is a syntax error and "end" closes the block. */
  function DropRules(): SourceRules {
    SourceRules(
      lines => false,
      lines => if lines == ["def foo", "}"] then Some("syntax error, unexpected '}'") else None,
      lines => lines == ["def foo", "end"])
  }

  /** An evaluator that records in the binding the line it was given. */
  function LineRecorder(): Evaluator {
    (env, slots, source, file, line) => Returned(Nil, env["line" := Obj("Integer", if line < 0 then 0 else line)])
  }

  /** As written: "def foo" typed on line 1, "}" dropped on line 2, "end" on line 3 run the block at line 2. */
  lemma AttributionAfterDroppedLine(f: Formatter)
    ensures var c := Collaborators(DropRules(), LineRecorder(), f);
      var r := ProcessLines(c, Initial(map[]), ["def foo", "}", "end"]);
      r.keepRunning && r.state.line == 4 && r.state.buffer == [] &&
      "line" in r.state.env && r.state.env["line"] == Obj("Integer", 2)
  {
    var c := Collaborators(DropRules(), LineRecorder(), f);
    var lines := ["def foo", "}", "end"];
    var s1 := DroppedFirst(f);
    var s2 := DroppedSecond(f, s1);
    var p3 := DroppedThird(f, s2);
    assert lines[1..] == ["}", "end"] && lines[1..][1..] == ["end"] && lines[1..][1..][1..] == [];
    assert ProcessLines(c, s2, ["end"]) == p3;
  }

  lemma DroppedFirst(f: Formatter) returns (s1: State)
    ensures ProcessLine(Collaborators(DropRules(), LineRecorder(), f), Initial(map[]), "def foo") == Processed(s1, true)
    ensures s1.buffer == ["def foo"] && s1.line == 2 && s1.env == map[]
  {
    DropRulesClassify();
    var s0 := Initial(map[]);
    assert s0.buffer + ["def foo"] == ["def foo"];
    s1 := s0.(buffer := ["def foo"], line := 2);
  }

  lemma DroppedSecond(f: Formatter, s1: State) returns (s2: State)
    requires s1.buffer == ["def foo"] && s1.line == 2 && s1.env == map[]
    ensures ProcessLine(Collaborators(DropRules(), LineRecorder(), f), s1, "}") == Processed(s2, true)
    ensures s2.buffer == ["def foo"] && s2.line == 3 && s2.env == map[]
  {
    DropRulesClassify();
    assert s1.buffer + ["}"] == ["def foo", "}"];
    s2 := ProcessLine(Collaborators(DropRules(), LineRecorder(), f), s1, "}").state;
  }

  lemma DroppedThird(f: Formatter, s2: State) returns (p3: Processed)
    requires s2.buffer == ["def foo"] && s2.line == 3 && s2.env == map[]
    ensures ProcessLine(Collaborators(DropRules(), LineRecorder(), f), s2, "end") == p3
    ensures p3.keepRunning && p3.state.buffer == [] && p3.state.line == 4
    ensures "line" in p3.state.env && p3.state.env["line"] == Obj("Integer", 2)
  {
    var c := Collaborators(DropRules(), LineRecorder(), f);
    DropRulesClassify();
    assert s2.buffer + ["end"] == ["def foo", "end"];
    var full := s2.(buffer := ["def foo", "end"]);
    assert AttributedLine(full) == 2;
    p3 := ProcessLine(c, s2, "end");
    assert p3.state.env == RunSnippet(c, full, Join(full.buffer)).env;
  }

  /** How DropRules classifies the buffers the examples produce. */
  lemma DropRulesClassify()
    ensures Waiting(DropRules(), ["def foo"])
    ensures !DropRules().terminate(["def foo", "}"]) && DropRules().syntaxError(["def foo", "}"]).Some?
    ensures !DropRules().terminate(["def foo", "end"]) && DropRules().syntaxError(["def foo", "end"]).None? &&
            DropRules().codeBlock(["def foo", "end"])
  {
    assert ["def foo", "end"] != ["def foo", "}"] by { assert ["def foo", "end"][1] != ["def foo", "}"][1]; }
  }

  /** Intended: the same three lines run the block at line 1, where "def foo" was typed. */
  lemma IntendedAttributionAfterDroppedLine(f: Formatter)
    ensures var c := Collaborators(DropRules(), LineRecorder(), f);
      var t1 := ProcessLineIntended(c, Tracked(Initial(map[]), []), "def foo").tracked;
      var t2 := ProcessLineIntended(c, t1, "}").tracked;
      var t3 := ProcessLineIntended(c, t2, "end").tracked;
      t3.state.line == 4 && t3.state.buffer == [] &&
      "line" in t3.state.env && t3.state.env["line"] == Obj("Integer", 1)
  {
    var t1 := IntendedFirst(f);
    var t2 := IntendedSecond(f, t1);
    IntendedThird(f, t2);
  }

  lemma IntendedFirst(f: Formatter) returns (t1: Tracked)
    ensures ProcessLineIntended(Collaborators(DropRules(), LineRecorder(), f), Tracked(Initial(map[]), []), "def foo").tracked == t1
    ensures t1.state.buffer == ["def foo"] && t1.typedAt == [1] && t1.state.line == 2 && t1.state.env == map[]
  {
    DropRulesClassify();
    var t0 := Tracked(Initial(map[]), []);
    assert t0.state.buffer + ["def foo"] == ["def foo"];
    t1 := ProcessLineIntended(Collaborators(DropRules(), LineRecorder(), f), t0, "def foo").tracked;
  }

  lemma IntendedSecond(f: Formatter, t1: Tracked) returns (t2: Tracked)
    requires t1.state.buffer == ["def foo"] && t1.typedAt == [1] && t1.state.line == 2 && t1.state.env == map[]
    ensures ProcessLineIntended(Collaborators(DropRules(), LineRecorder(), f), t1, "}").tracked == t2
    ensures t2.state.buffer == ["def foo"] && t2.typedAt == [1] && t2.state.line == 3 && t2.state.env == map[]
  {
    DropRulesClassify();
    assert t1.state.buffer + ["}"] == ["def foo", "}"];
    t2 := ProcessLineIntended(Collaborators(DropRules(), LineRecorder(), f), t1, "}").tracked;
  }

  lemma IntendedThird(f: Formatter, t2: Tracked)
    requires t2.state.buffer == ["def foo"] && t2.typedAt == [1] && t2.state.line == 3 && t2.state.env == map[]
    ensures var t3 := ProcessLineIntended(Collaborators(DropRules(), LineRecorder(), f), t2, "end").tracked;
      t3.state.line == 4 && t3.state.buffer == [] &&
      "line" in t3.state.env && t3.state.env["line"] == Obj("Integer", 1)
  {
    DropRulesClassify();
    assert t2.state.buffer + ["end"] == ["def foo", "end"];
    assert (t2.typedAt + [t2.state.line])[0] == 1;
  }
}
