/**
 * The source buffer (`IRB::Source`): the lines typed so far, in typing order.
 * Its classification is the Ruby parser and is taken as given (SourceRules);
 * its rendering joins the lines with newlines.
 */
module IrbSource {
  import opened Wrappers

  /** The parser-backed questions the context asks about the buffer. */
  datatype SourceRules = SourceRules(
    terminate: seq<string> -> bool,             // `terminate?`: a bare quit/exit at depth 0
    syntaxError: seq<string> -> Option<string>, // `syntax_error?` with the `syntax_error` detail
    codeBlock: seq<string> -> bool)             // `code_block?`: complete, runnable code

  /** The buffer's text (`Source#to_s`): lines joined with "\n"; the empty buffer is "". */
  function Join(lines: seq<string>): (r: string)
    ensures lines == [] ==> r == ""
    // the text opens with the first line typed, closed by a line break when more follow,
    // and ends with the last line typed
    ensures |lines| >= 1 ==>
      |lines[0]| <= |r| && r[..|lines[0]|] == lines[0] &&
      |lines[|lines| - 1]| <= |r| && r[|r| - |lines[|lines| - 1]|..] == lines[|lines| - 1]
    ensures |lines| >= 2 ==> |lines[0]| < |r| && r[|lines[0]|] == '\n'
    decreases |lines|
  {
    if |lines| == 0 then ""
    else if |lines| == 1 then lines[0]
    else lines[0] + "\n" + Join(lines[1..])
  }

  /**
   * Cuts a text at every "\n", like Ruby's `split("\n", -1)` except that the empty text gives
   * `[""]`: the reference for what Join keeps.
   */
  function Split(text: string): (r: seq<string>)
    ensures |r| >= 1
    decreases |text|
  {
    if text == [] then [""]
    else
      var rest := Split(text[1..]);
      if text[0] == '\n' then [""] + rest
      else [[text[0]] + rest[0]] + rest[1..]
  }

  /** A typed line never holds a line break. */
  predicate IsLine(s: string) {
    forall i :: 0 <= i < |s| ==> s[i] != '\n'
  }

  lemma {:induction false} SplitLine(a: string)
    requires IsLine(a)
    ensures Split(a) == [a]
    decreases |a|
  {
    if a != [] {
      SplitLine(a[1..]);
      assert [a[0]] + a[1..] == a;
    }
  }

  lemma {:induction false} SplitAfterLine(a: string, b: string)
    requires IsLine(a)
    ensures Split(a + "\n" + b) == [a] + Split(b)
    decreases |a|
  {
    var t := a + "\n" + b;
    if a == [] {
      assert t[0] == '\n' && t[1..] == b;
    } else {
      assert t[0] == a[0] && t[1..] == a[1..] + "\n" + b;
      SplitAfterLine(a[1..], b);
      assert [a[0]] + a[1..] == a;
    }
  }

  /** Joining loses nothing: the lines come back verbatim and in typing order. */
  lemma {:induction false} SplitJoin(lines: seq<string>)
    requires |lines| >= 1
    requires forall i :: 0 <= i < |lines| ==> IsLine(lines[i])
    ensures Split(Join(lines)) == lines
    decreases |lines|
  {
    if |lines| == 1 {
      SplitLine(lines[0]);
    } else {
      SplitAfterLine(lines[0], Join(lines[1..]));
      SplitJoin(lines[1..]);
      assert [lines[0]] + lines[1..] == lines;
    }
  }
}
