/**
 * The plain-expression sandbox (`CodePlayground`): it wraps the snippet in a
 * function that takes `console` as its first argument, evaluates it with a
 * console whose `log` collects lines, and publishes either the lines or the
 * message of the exception. Editing the code clears what was shown.
 *
 * `eval` of the wrapped text, and the run of the function it yields, are an
 * oracle: the sequence of `console.log` calls the snippet makes (each with its
 * arguments already passed through `String`), then a normal return or a throw.
 */
module CodePlayground {
  import opened Js
  import opened Text

  datatype Ending = Returned | Raised(thrown: Thrown)

  /** What evaluating and calling the wrapped code does, in order. A syntax
      error from `eval` is a trace with no calls that ends in `Raised`. */
  datatype Trace = Trace(calls: seq<seq<string>>, ending: Ending)

  type Evaluator = string -> Trace

  const WrapOpening: string := "\n        (function() {\n          const console = arguments[0];\n          "
  const WrapClosing: string := "\n        })\n      "

  /** The template literal handed to `eval`: the snippet appears verbatim,
      as the body of a function expression whose first statement binds
      `console` to the first argument. */
  function WrappedCode(code: string): (r: string)
    ensures |r| == |WrapOpening| + |code| + |WrapClosing|
    ensures r[..|WrapOpening|] == WrapOpening
    ensures r[|WrapOpening|..|WrapOpening| + |code|] == code
    ensures r[|WrapOpening| + |code|..] == WrapClosing
  {
    WrapOpening + code + WrapClosing
  }

  /** Different snippets give different wrapped texts. */
  lemma WrappedCodeKeepsSnippet(code: string, other: string)
    ensures WrappedCode(code) == WrappedCode(other) ==> code == other
  {
    if WrappedCode(code) == WrappedCode(other) {
      Unframe(WrapOpening, code, other, WrapClosing);
    }
  }

  /** The lines a sequence of `console.log` calls appends: one per call, in
      call order, each the call's arguments joined with single spaces. */
  function Lines(calls: seq<seq<string>>): (lines: seq<string>)
    ensures |lines| == |calls|
    ensures forall i :: 0 <= i < |calls| ==> lines[i] == Join(calls[i])
  {
    if |calls| == 0 then [] else Lines(calls[..|calls| - 1]) + [Join(calls[|calls| - 1])]
  }

  /** A call without arguments logs the empty line; a call with one argument
      logs it unchanged. */
  lemma LineOfFewArguments(arg: string)
    ensures Lines([[]]) == [""]
    ensures Lines([[arg]]) == [arg]
  {
  }

  /** `console.log(1); console.log("a")` yields the lines `1` and `a`. */
  lemma TwoCallsTwoLines()
    ensures Lines([["1"], ["a"]]) == ["1", "a"]
  {
  }

  /** The arguments of a call can be read back from its line when none of
      them holds a space. */
  lemma LineKeepsArguments(calls: seq<seq<string>>, i: nat)
    requires i < |calls| && |calls[i]| > 0
    requires forall j :: 0 <= j < |calls[i]| ==> ' ' !in calls[i][j]
    ensures Split(Lines(calls)[i]) == calls[i]
  {
    SplitJoin(calls[i]);
  }

  /** The `customConsole` object: `log` pushes one line onto `logs`. */
  class LogSink {
    var logs: seq<string>

    constructor ()
      ensures logs == []
    {
      logs := [];
    }

    method Log(args: seq<string>)
      modifies this
      ensures logs == old(logs) + [Join(args)]
    {
      logs := logs + [Join(args)];
    }
  }

  /** The output area: the placeholder, the lines and the error line, each
      present or not. */
  datatype OutputView = OutputView(placeholder: bool, lines: seq<string>, errorLine: Option<string>)

  /** The markup as written: `{output.length === 0 && !error && ...}`,
      `{output.map(...)}`, `{error && ...}`. An empty error message is falsy. */
  function ViewAsWritten(output: seq<string>, error: Option<string>): (v: OutputView)
    ensures v.placeholder <==> |output| == 0 && !TruthyText(error)
    ensures v.lines == output
    ensures v.errorLine.Some? <==> TruthyText(error)
  {
    OutputView(|output| == 0 && !TruthyText(error), output, if TruthyText(error) then error else None)
  }

  /** A run that failed with an empty message looks like one never run. */
  lemma EmptyMessageLooksIdle()
    ensures ViewAsWritten([], Some("")) == ViewAsWritten([], None)
  {
  }

  /** The output area with the error test made `error !== null`. */
  function View(output: seq<string>, error: Option<string>): (v: OutputView)
    ensures v.placeholder <==> |output| == 0 && error.None?
    ensures v.lines == output
    ensures v.errorLine == error
  {
    OutputView(|output| == 0 && error.None?, output, error)
  }

  /** When output and error never coexist, exactly one of the placeholder,
      a non-empty list of lines and the error line is shown. */
  lemma ViewShowsOnePane(output: seq<string>, error: Option<string>)
    requires !(|output| > 0 && error.Some?)
    ensures var v := View(output, error);
      (if v.placeholder then 1 else 0) + (if |v.lines| > 0 then 1 else 0)
        + (if v.errorLine.Some? then 1 else 0) == 1
  {
  }

  /** The same holds for the markup as written: an error whose message is
      empty is not shown, but then the placeholder is. */
  lemma ViewAsWrittenShowsOnePane(output: seq<string>, error: Option<string>)
    requires !(|output| > 0 && error.Some?)
    ensures var v := ViewAsWritten(output, error);
      (if v.placeholder then 1 else 0) + (if |v.lines| > 0 then 1 else 0)
        + (if v.errorLine.Some? then 1 else 0) == 1
  {
  }

  /** The two views agree except on an empty error message. */
  lemma ViewsAgreeOnNonEmptyMessages(output: seq<string>, error: Option<string>)
    requires error != Some("")
    ensures View(output, error) == ViewAsWritten(output, error)
  {
  }

  datatype RunButton = RunButton(disabled: bool, caption: string)

  /** `disabled={isRunning}` and its caption. */
  function RunButtonOf(isRunning: bool): (b: RunButton)
    ensures b.disabled <==> isRunning
    ensures b.caption == (if isRunning then "実行中..." else "実行 ▶")
  {
    RunButton(isRunning, if isRunning then "実行中..." else "実行 ▶")
  }

  class Playground {
    const initialCode: string
    var code: string
    var output: seq<string>
    var error: Option<string>
    var isRunning: bool

    /** Between handlers no run is in flight, and collected lines and an
        error are never published together. */
    predicate Valid()
      reads this
    {
      !isRunning && !(|output| > 0 && error.Some?)
    }

    constructor (initialCode: string)
      ensures Valid()
      ensures this.initialCode == initialCode && code == initialCode
      ensures output == [] && error == None
    {
      this.initialCode := initialCode;
      code := initialCode;
      output := [];
      error := None;
      isRunning := false;
    }

    /** `runCode`: the lines collected by the sink are published when the
        snippet returns; when it throws, only the message is, and the lines
        logged before the throw are dropped. */
    method RunCode(eval: Evaluator)
      modifies this
      ensures Valid()
      ensures code == old(code)
      ensures var trace := eval(WrappedCode(code));
        match trace.ending
        case Returned => output == Lines(trace.calls) && error == None
        case Raised(e) => output == [] && error == Some(Describe(e))
    {
      isRunning := true;
      output := [];
      error := None;
      var sink := new LogSink();
      var trace := eval(WrappedCode(code));
      var i := 0;
      while i < |trace.calls|
        invariant 0 <= i <= |trace.calls|
        invariant sink.logs == Lines(trace.calls[..i])
        invariant code == old(code) && output == [] && error == None
      {
        assert trace.calls[..i + 1][..i] == trace.calls[..i];
        sink.Log(trace.calls[i]);
        i := i + 1;
      }
      assert trace.calls[..i] == trace.calls;
      match trace.ending {
        case Returned =>
          output := sink.logs;
        case Raised(e) =>
          error := Some(Describe(e));
      }
      isRunning := false;
    }

    /** The editor's `setCode`, followed by the `[code]` effect: a new text
        clears output and error; setting the same text re-renders nothing. */
    method SetCode(newCode: string)
      requires Valid()
      modifies this
      ensures Valid()
      ensures code == newCode
      ensures newCode != old(code) ==> output == [] && error == None
      ensures newCode == old(code) ==> output == old(output) && error == old(error)
    {
      if newCode != code {
        code := newCode;
        output := [];
        error := None;
      }
    }

    /** `resetCode` */
    method ResetCode()
      requires Valid()
      modifies this
      ensures Valid()
      ensures code == initialCode && output == [] && error == None
    {
      code := initialCode;
      output := [];
      error := None;
    }

    /** What the output area and the run button show now, as the markup
        writes them: a recorded error with an empty message shows the
        placeholder and no error line. */
    function Shown(): (r: (OutputView, RunButton))
      reads this
      requires Valid()
      ensures r.0.placeholder <==> |output| == 0 && !TruthyText(error)
      ensures r.0.lines == output
      ensures r.0.errorLine.Some? <==> TruthyText(error)
      ensures !r.1.disabled && r.1.caption == "実行 ▶"
    {
      (ViewAsWritten(output, error), RunButtonOf(isRunning))
    }
  }
}
