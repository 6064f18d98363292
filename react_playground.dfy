/**
 * The component-preview sandbox (`ReactPlayground`): it finds the name of the
 * snippet's `export default function`, strips the export qualifier, hands the
 * text to the JSX transpiler, wraps the result in a function body that
 * returns the component, compiles and calls it with `React`, `useState` and
 * `useEffect`, and shows an error, the live preview or a placeholder.
 *
 * The transpiler (`Babel.transform`) and the compile-and-call step
 * (`new Function(...)` followed by the call) are oracles passed to `RunCode`.
 */
module ReactPlayground {
  import opened Js
  import opened Text

  const ExportPrefix: string := "export default function"
  /** What `replace` puts in place of the prefix. */
  const FunctionKeyword: string := "function"
  const NotFoundMessage: string := "export default function コンポーネントが見つかりません"
  const TransformFailedMessage: string := "コードの変換に失敗しました"
  /** The parameter names of the compiled unit, in order. */
  const ScopeParams: seq<string> := ["React", "useState", "useEffect"]

  /** Transpiler oracle: the `code` field of Babel's result (`null` as `None`)
      or the exception it raises. */
  type Transformer = string -> Completion<Option<string>>
  /** Compile-and-call oracle: `new Function(...params, body)` invoked with the
      three scope values; the value the body returns, or what either step throws. */
  type Constructor = (seq<string>, string) -> Completion<Value>

  // ---------------------------------------------------------------------------
  // Locating the component: /export default function (\w+)/
  // ---------------------------------------------------------------------------

  /** The pattern `export default function \w` matches at position `p`. */
  predicate DeclarationAt(code: string, p: nat) {
    && p + |ExportPrefix| + 1 < |code|
    && code[p..p + |ExportPrefix| + 1] == ExportPrefix + " "
    && IsWordChar(code[p + |ExportPrefix| + 1])
  }

  /** Leftmost match of the declaration pattern at or after `from`. */
  function FindDeclaration(code: string, from: nat): (r: Option<nat>)
    ensures r.Some? ==> from <= r.value && DeclarationAt(code, r.value)
    decreases |code| - from
  {
    if from >= |code| then None
    else if DeclarationAt(code, from) then Some(from)
    else FindDeclaration(code, from + 1)
  }

  /** The search finds the leftmost match: no position between `from` and the
      result matches, and none at all at or after `from` when it finds nothing. */
  lemma {:induction false} FindDeclarationIsLeftmost(code: string, from: nat)
    ensures var r := FindDeclaration(code, from);
      && (r.Some? ==> forall q :: from <= q < r.value ==> !DeclarationAt(code, q))
      && (r.None? ==> forall q :: from <= q ==> !DeclarationAt(code, q))
    decreases |code| - from
  {
    if from < |code| && !DeclarationAt(code, from) {
      FindDeclarationIsLeftmost(code, from + 1);
      assert FindDeclaration(code, from) == FindDeclaration(code, from + 1);
    }
  }

  /** `code.match(/export default function (\w+)/)?.[1]`: the identifier after
      the leftmost declaration, as long as the greedy `\w+` makes it. */
  function ExtractName(code: string): (name: Option<string>)
    ensures name.None? <==> FindDeclaration(code, 0).None?
    ensures name.Some? ==> |name.value| > 0
    ensures name.Some? ==> forall i :: 0 <= i < |name.value| ==> IsWordChar(name.value[i])
  {
    match FindDeclaration(code, 0)
    case None => None
    case Some(p) =>
      var start := p + |ExportPrefix| + 1;
      Some(code[start..start + WordRun(code, start)])
  }

  /** A name is found exactly when the declaration pattern matches somewhere. */
  lemma NameFoundIffDeclared(code: string)
    ensures ExtractName(code).None? <==> forall q :: !DeclarationAt(code, q)
  {
    FindDeclarationIsLeftmost(code, 0);
    if FindDeclaration(code, 0).Some? {
      assert DeclarationAt(code, FindDeclaration(code, 0).value);
    }
  }

  /** The name found is the whole identifier after the leftmost declaration:
      it sits right after `export default function `, and neither a word
      character follows it nor does any declaration start earlier. */
  lemma ExtractedNameFollowsDeclaration(code: string)
    requires ExtractName(code).Some?
    ensures FindDeclaration(code, 0).Some?
    ensures var p, name := FindDeclaration(code, 0).value, ExtractName(code).value;
      var start := p + |ExportPrefix| + 1;
      && start + |name| <= |code|
      && code[p..start] == ExportPrefix + " "
      && code[start..start + |name|] == name
      && (start + |name| < |code| ==> !IsWordChar(code[start + |name|]))
      && forall q :: 0 <= q < p ==> !DeclarationAt(code, q)
  {
    FindDeclarationIsLeftmost(code, 0);
  }

  /** Text that opens with a declaration yields the identifier of that
      declaration, up to the first non-word character. */
  lemma LeadingDeclarationName(name: string, tail: string)
    requires |name| > 0 && forall i :: 0 <= i < |name| ==> IsWordChar(name[i])
    requires |tail| > 0 ==> !IsWordChar(tail[0])
    ensures ExtractName(ExportPrefix + " " + name + tail) == Some(name)
  {
    var code := ExportPrefix + " " + name + tail;
    var start := |ExportPrefix| + 1;
    assert code[..start] == ExportPrefix + " ";
    assert code[start] == name[0];
    assert DeclarationAt(code, 0);
    assert forall j :: start <= j < start + |name| ==> code[j] == name[j - start];
    WordRunIsMaximal(code, start, |name|);
    assert code[start..start + |name|] == name;
  }

  /** The snippet shipped with the components tutorial declares `MyComponent`. */
  lemma TutorialSnippetName(rest: string)
    ensures ExtractName("export default function MyComponent(" + rest) == Some("MyComponent")
  {
    assert "export default function MyComponent(" + rest
        == ExportPrefix + " " + "MyComponent" + ("(" + rest);
    LeadingDeclarationName("MyComponent", "(" + rest);
  }

  // ---------------------------------------------------------------------------
  // Stripping the export: code.replace(/export default function/, "function")
  // ---------------------------------------------------------------------------

  predicate PrefixAt(code: string, q: nat) {
    q + |ExportPrefix| <= |code| && code[q..q + |ExportPrefix|] == ExportPrefix
  }

  /** Leftmost occurrence of `export default function` at or after `from`. */
  function FindPrefix(code: string, from: nat): (r: Option<nat>)
    ensures r.Some? ==> from <= r.value && PrefixAt(code, r.value)
    decreases |code| - from
  {
    if from >= |code| then None
    else if PrefixAt(code, from) then Some(from)
    else FindPrefix(code, from + 1)
  }

  /** The search finds the leftmost occurrence. */
  lemma {:induction false} FindPrefixIsLeftmost(code: string, from: nat)
    ensures var r := FindPrefix(code, from);
      && (r.Some? ==> forall q :: from <= q < r.value ==> !PrefixAt(code, q))
      && (r.None? ==> forall q :: from <= q ==> !PrefixAt(code, q))
    decreases |code| - from
  {
    if from < |code| && !PrefixAt(code, from) {
      FindPrefixIsLeftmost(code, from + 1);
      assert FindPrefix(code, from) == FindPrefix(code, from + 1);
    }
  }

  /** Replaces the first occurrence of `export default function` by `function`. */
  function Strip(code: string): (r: string)
    ensures FindPrefix(code, 0).None? ==> r == code
    ensures FindPrefix(code, 0).Some? ==>
      var q := FindPrefix(code, 0).value;
      |r| == |code| - (|ExportPrefix| - |FunctionKeyword|) && r[..q] == code[..q]
  {
    match FindPrefix(code, 0)
    case None => code
    case Some(q) => code[..q] + FunctionKeyword + code[q + |ExportPrefix|..]
  }

  /** Only the first occurrence is rewritten; the rest of the text is kept. */
  lemma StripRewritesFirstOccurrenceOnly(code: string)
    ensures (forall q :: !PrefixAt(code, q)) ==> Strip(code) == code
    ensures FindPrefix(code, 0).Some? ==>
      var q := FindPrefix(code, 0).value;
      && (forall k :: 0 <= k < q ==> !PrefixAt(code, k))
      && Strip(code) == code[..q] + FunctionKeyword + code[q + |ExportPrefix|..]
      && |Strip(code)| == |code| - (|ExportPrefix| - |FunctionKeyword|)
  {
    FindPrefixIsLeftmost(code, 0);
  }

  /** A declaration is an occurrence of the prefix, so the rewritten occurrence
      is never after the declaration the name was taken from. */
  lemma StripOccurrenceNotAfterDeclaration(code: string)
    requires ExtractName(code).Some?
    ensures FindPrefix(code, 0).Some?
    ensures FindPrefix(code, 0).value <= FindDeclaration(code, 0).value
  {
    FindPrefixIsLeftmost(code, 0);
    var p := FindDeclaration(code, 0).value;
    assert code[p..p + |ExportPrefix|] == (ExportPrefix + " ")[..|ExportPrefix|];
    assert PrefixAt(code, p);
  }

  /** When the first occurrence of the prefix is the declaration itself, the
      stripped text carries `function <name>` at that place. */
  lemma StripKeepsDeclaredName(code: string)
    requires ExtractName(code).Some?
    requires FindPrefix(code, 0) == FindDeclaration(code, 0)
    ensures var p, name := FindDeclaration(code, 0).value, ExtractName(code).value;
      var s := Strip(code);
      p + |FunctionKeyword| + 1 + |name| <= |s| && s[p..p + |FunctionKeyword| + 1 + |name|] == FunctionKeyword + " " + name
  {
    DeclaredNameAfterSpace(code);
    StrippedWordAt(code, FindDeclaration(code, 0).value, ExtractName(code).value);
  }

  lemma DeclaredNameAfterSpace(code: string)
    requires ExtractName(code).Some?
    ensures FindDeclaration(code, 0).Some?
    ensures var p, name := FindDeclaration(code, 0).value, ExtractName(code).value;
      && p + |ExportPrefix| + 1 + |name| <= |code| && code[p + |ExportPrefix|] == ' '
      && code[p + |ExportPrefix| + 1..p + |ExportPrefix| + 1 + |name|] == name
  {
    DeclaredNameAt(code);
    SpaceAfterPrefix(code, FindDeclaration(code, 0).value);
  }

  /** Where the name sits: right after the leftmost declaration. */
  lemma DeclaredNameAt(code: string)
    requires ExtractName(code).Some?
    ensures FindDeclaration(code, 0).Some? && DeclarationAt(code, FindDeclaration(code, 0).value)
    ensures var p, name := FindDeclaration(code, 0).value, ExtractName(code).value;
      && p + |ExportPrefix| + 1 + |name| <= |code|
      && code[p + |ExportPrefix| + 1..p + |ExportPrefix| + 1 + |name|] == name
  {
  }

  /** A declaration has a space right after the prefix. */
  lemma SpaceAfterPrefix(code: string, p: nat)
    ensures DeclarationAt(code, p) ==> code[p + |ExportPrefix|] == ' '
  {
    if DeclarationAt(code, p) {
      assert code[p + |ExportPrefix|] == code[p..p + |ExportPrefix| + 1][|ExportPrefix|];
    }
  }

  /** After the rewrite at `p`, `function ` is followed by the word that
      followed the space after the prefix. */
  lemma StrippedWordAt(code: string, p: nat, word: string)
    requires FindPrefix(code, 0) == Some(p)
    requires p + |ExportPrefix| + 1 + |word| <= |code| && code[p + |ExportPrefix|] == ' '
    requires code[p + |ExportPrefix| + 1..p + |ExportPrefix| + 1 + |word|] == word
    ensures p + |FunctionKeyword| + 1 + |word| <= |Strip(code)|
    ensures Strip(code)[p..p + |FunctionKeyword| + 1 + |word|] == FunctionKeyword + " " + word
  {
    var start := p + |ExportPrefix| + 1;
    StrippedTail(code, p);
    HeadOfConcat(FunctionKeyword + " ", code[start..], |word|);
    SliceOfSuffix(Strip(code), p, |FunctionKeyword| + 1 + |word|);
    SliceOfSuffix(code, start, |word|);
  }

  /** Rewriting the occurrence at `p` that is followed by a space leaves
      `function ` and then the text after the space. */
  lemma StrippedTail(code: string, p: nat)
    requires FindPrefix(code, 0) == Some(p)
    requires p + |ExportPrefix| < |code| && code[p + |ExportPrefix|] == ' '
    ensures p <= |Strip(code)|
    ensures Strip(code)[p..] == FunctionKeyword + " " + code[p + |ExportPrefix| + 1..]
  {
    StripAt(code, p);
    ReplacementThenSpace(code[..p], code[p + |ExportPrefix|..]);
  }

  lemma StripAt(code: string, p: nat)
    requires FindPrefix(code, 0) == Some(p)
    ensures Strip(code) == code[..p] + (FunctionKeyword + code[p + |ExportPrefix|..])
  {
  }

  /** `function` put in front of a text that starts with a space. */
  lemma ReplacementThenSpace(head: string, tail: string)
    requires |tail| > 0 && tail[0] == ' '
    ensures (head + (FunctionKeyword + tail))[|head|..] == FunctionKeyword + " " + tail[1..]
  {
    DropHead(head, FunctionKeyword + tail);
    assert tail == " " + tail[1..];
  }

  /** The leftmost declaration is the one at `p` when `p` matches and no
      earlier position does. */
  lemma FirstDeclarationAt(code: string, p: nat)
    requires DeclarationAt(code, p)
    requires forall q :: 0 <= q < p ==> !DeclarationAt(code, q)
    ensures FindDeclaration(code, 0) == Some(p)
  {
    FindDeclarationIsLeftmost(code, 0);
  }

  /** Otherwise the rewritten occurrence lies strictly before the declaration
      the name was taken from, and the text before it is unchanged. */
  lemma StripMayRewriteAnEarlierOccurrence(code: string)
    requires ExtractName(code).Some?
    requires FindPrefix(code, 0).Some? && !DeclarationAt(code, FindPrefix(code, 0).value)
    ensures FindPrefix(code, 0).value < FindDeclaration(code, 0).value
    ensures var q := FindPrefix(code, 0).value; Strip(code)[..q] == code[..q]
  {
    StripOccurrenceNotAfterDeclaration(code);
  }

  /** A declaration starts with the letters `ex`. */
  lemma DeclarationStartsWithEx(code: string, q: nat)
    ensures DeclarationAt(code, q) ==> code[q] == 'e' && code[q + 1] == 'x'
  {
    if DeclarationAt(code, q) {
      assert code[q] == code[q..q + |ExportPrefix| + 1][0];
      assert code[q + 1] == code[q..q + |ExportPrefix| + 1][1];
    }
  }

  /** `export default function_` holds no `ex` after its first character. */
  lemma NoExInsideFirstOccurrence(code: string, q: nat)
    requires |code| > |ExportPrefix| + 1 && code[..|ExportPrefix| + 1] == ExportPrefix + "_"
    requires 0 < q <= |ExportPrefix|
    ensures !(code[q] == 'e' && code[q + 1] == 'x')
  {
    var head := ExportPrefix + "_";
    assert code[q] == head[q] && code[q + 1] == (code[..|ExportPrefix| + 2])[q + 1];
  }

  /** Such text exists: in `export default function_export default function A`
      the first occurrence of the prefix is followed by `_`, not by a space, so
      the name `A` comes from the second one while the first is rewritten. */
  lemma EarlierOccurrenceExample()
    ensures var code := ExportPrefix + "_" + ExportPrefix + " A";
      && FindPrefix(code, 0) == Some(0) && !DeclarationAt(code, 0)
      && FindDeclaration(code, 0) == Some(|ExportPrefix| + 1)
      && ExtractName(code) == Some("A")
  {
    var code := ExportPrefix + "_" + ExportPrefix + " A";
    var p := |ExportPrefix| + 1;
    assert code[..|ExportPrefix|] == ExportPrefix;
    assert PrefixAt(code, 0);
    assert code[|ExportPrefix|] == '_';
    SpaceAfterPrefix(code, 0);
    assert code[p..p + |ExportPrefix| + 1] == ExportPrefix + " ";
    assert DeclarationAt(code, p);
    assert FindPrefix(code, 0) == Some(0);
    assert code[..|ExportPrefix| + 1] == ExportPrefix + "_";
    forall q | 0 <= q < p
      ensures !DeclarationAt(code, q)
    {
      if q > 0 {
        DeclarationStartsWithEx(code, q);
        NoExInsideFirstOccurrence(code, q);
      }
    }
    FirstDeclarationAt(code, p);
    assert WordRun(code, p + |ExportPrefix| + 1) == 1;
    assert code[p + |ExportPrefix| + 1..p + |ExportPrefix| + 2] == "A";
  }

  // ---------------------------------------------------------------------------
  // Wrapping: `"use strict"; <transformed> return <name>;`
  // ---------------------------------------------------------------------------

  const StrictOpening: string := "\n        \"use strict\";\n        "
  const ReturnOpening: string := "\n        return "
  const Closing: string := ";\n      "

  /** The template literal that becomes the body of the compiled unit. */
  function WrappedCode(transformed: string, name: string): (r: string)
    ensures |r| == |StrictOpening| + |transformed| + |ReturnOpening| + |name| + |Closing|
    ensures r[|StrictOpening|..|StrictOpening| + |transformed|] == transformed
  {
    StrictOpening + transformed + ReturnOpening + name + Closing
  }

  /** The wrapped text determines both the transpiled code and the component
      name, so the compiled unit returns exactly the extracted identifier. */
  lemma WrappedCodeInjective(t1: string, n1: string, t2: string, n2: string)
    requires forall i :: 0 <= i < |n1| ==> IsWordChar(n1[i])
    requires forall i :: 0 <= i < |n2| ==> IsWordChar(n2[i])
    requires WrappedCode(t1, n1) == WrappedCode(t2, n2)
    ensures t1 == t2 && n1 == n2
  {
    assert ReturnOpening[|ReturnOpening| - 1] == ' ';
    FramedWordInjective(StrictOpening, ReturnOpening, Closing, t1, n1, t2, n2);
  }

  // ---------------------------------------------------------------------------
  // The body of the `try` block in runCode
  // ---------------------------------------------------------------------------

  /** What the `try` block of `runCode` produces: the component the compiled
      unit returns, or the value thrown at the first step that fails. */
  function RunOutcome(code: string, transform: Transformer, construct: Constructor): (r: Completion<Value>)
    ensures ExtractName(code).None? ==> r == Threw(ErrorInstance(NotFoundMessage))
    ensures r.Normal? ==> ExtractName(code).Some? && transform(Strip(code)).Normal?
  {
    match ExtractName(code)
    case None => Threw(ErrorInstance(NotFoundMessage))
    case Some(name) =>
      match transform(Strip(code))
      case Threw(e) => Threw(e)
      case Normal(out) =>
        if out.None? || out.value == "" then Threw(ErrorInstance(TransformFailedMessage))
        else construct(ScopeParams, WrappedCode(out.value, name))
  }

  /** Without a declaration the run fails with the fixed message whatever the
      transpiler and compiler would do: neither is consulted. */
  lemma NoDeclarationNoTransform(code: string, transform: Transformer, construct: Constructor)
    requires forall q :: !DeclarationAt(code, q)
    ensures RunOutcome(code, transform, construct) == Threw(ErrorInstance(NotFoundMessage))
  {
    NameFoundIffDeclared(code);
  }

  /** A transpiler exception reaches the caller unchanged; an empty or missing
      transpiler result fails with the fixed conversion message. */
  lemma TransformFailuresAreReported(code: string, transform: Transformer, construct: Constructor)
    requires ExtractName(code).Some?
    ensures transform(Strip(code)).Threw? ==>
      RunOutcome(code, transform, construct) == Threw(transform(Strip(code)).thrown)
    ensures transform(Strip(code)) in {Normal(None), Normal(Some(""))} ==>
      RunOutcome(code, transform, construct) == Threw(ErrorInstance(TransformFailedMessage))
  {
  }

  /** The compiled unit receives `React`, `useState`, `useEffect` in that order
      and a body that is the prologue, the transpiled code and `return <name>;`;
      a run succeeds exactly when that unit returns normally, with its value. */
  lemma CompileRequest(code: string, transform: Transformer, construct: Constructor)
    requires ExtractName(code).Some?
    requires transform(Strip(code)).Normal?
    requires transform(Strip(code)).value.Some? && transform(Strip(code)).value.value != ""
    ensures var body := "\n        \"use strict\";\n        " + transform(Strip(code)).value.value
                        + "\n        return " + ExtractName(code).value + ";\n      ";
      RunOutcome(code, transform, construct) == construct(["React", "useState", "useEffect"], body)
  {
  }

  /** Conversely, a successful run went through every stage. */
  lemma SuccessPassedEveryStage(code: string, transform: Transformer, construct: Constructor)
    requires RunOutcome(code, transform, construct).Normal?
    ensures ExtractName(code).Some?
    ensures var out := transform(Strip(code));
      && out.Normal? && out.value.Some? && out.value.value != ""
      && construct(ScopeParams, WrappedCode(out.value.value, ExtractName(code).value))
         == RunOutcome(code, transform, construct)
  {
  }

  // ---------------------------------------------------------------------------
  // The preview pane
  // ---------------------------------------------------------------------------

  datatype Pane = ErrorBlock(message: string) | LivePreview(component: nat)
                | PrintedText(text: string) | Placeholder

  /** `{PreviewComponent && !error && (...)}`, with the error test as a
      boolean: a truthy component is rendered when there is no error, a falsy
      number short-circuits the `&&` and is printed whatever the error, and
      any other falsy value prints nothing. */
  function PreviewSlot(preview: Value, noError: bool): (r: seq<Pane>)
    ensures |r| <= 1
    ensures r == [] <==> preview.Null? || preview.Falsy? || (preview.Truthy? && !noError)
  {
    match preview
    case Truthy(h) => if noError then [LivePreview(h)] else []
    case FalsyNumber(t) => [PrintedText(t)]
    case _ => []
  }

  /** The three conditional blocks of the preview pane, as the markup writes
      them: `{error && ...}`, `{PreviewComponent && !error && ...}`,
      `{!PreviewComponent && !error && ...}`. An error whose message is the
      empty string is falsy and is not shown, and a falsy number returned as
      the component is printed. */
  function PanesAsWritten(error: Option<string>, preview: Value): (r: seq<Pane>)
    ensures |r| == if preview.FalsyNumber? then 2 else 1
    ensures TruthyText(error) && !preview.FalsyNumber? ==> r == [ErrorBlock(error.value)]
    ensures TruthyText(error) && preview.FalsyNumber? ==>
      r == [ErrorBlock(error.value), PrintedText(preview.text)]
    ensures !TruthyText(error) && preview.Truthy? ==> r == [LivePreview(preview.handle)]
    ensures !TruthyText(error) && preview.FalsyNumber? ==> r == [PrintedText(preview.text), Placeholder]
    ensures !TruthyText(error) && (preview.Null? || preview.Falsy?) ==> r == [Placeholder]
  {
    (if TruthyText(error) then [ErrorBlock(error.value)] else [])
    + PreviewSlot(preview, !TruthyText(error))
    + (if !TruthyValue(preview) && !TruthyText(error) then [Placeholder] else [])
  }

  /** A failed run whose message is empty (`throw new Error()`) shows the
      placeholder that invites the user to run the code. */
  lemma EmptyMessageShowsPlaceholder()
    ensures PanesAsWritten(Some(""), Null) == [Placeholder]
  {
  }

  /** A component name bound to `0` prints `0` above the placeholder. */
  lemma ZeroPrintedAbovePlaceholder()
    ensures PanesAsWritten(None, FalsyNumber("0")) == [PrintedText("0"), Placeholder]
  {
  }

  /** The pane with the error test made `error !== null`: every recorded
      failure is shown, and error still takes priority. The preview block is
      kept as written. */
  function Panes(error: Option<string>, preview: Value): (r: seq<Pane>)
    ensures |r| == if preview.FalsyNumber? then 2 else 1
    ensures r[0].ErrorBlock? <==> error.Some?
    ensures error.Some? ==> r[0].message == error.value
    ensures r[0].LivePreview? <==> error.None? && preview.Truthy?
    ensures r[0].LivePreview? ==> r[0].component == preview.handle
    ensures r[0].Placeholder? <==> error.None? && (preview.Null? || preview.Falsy?)
    ensures preview.FalsyNumber? ==> PrintedText(preview.text) in r
    ensures error.None? && preview.FalsyNumber? ==> r[1] == Placeholder
  {
    (if error.Some? then [ErrorBlock(error.value)] else [])
    + PreviewSlot(preview, error.None?)
    + (if !TruthyValue(preview) && error.None? then [Placeholder] else [])
  }

  /** The two panes agree except on an empty error message. */
  lemma PanesAgreeOnNonEmptyMessages(error: Option<string>, preview: Value)
    requires error != Some("")
    ensures Panes(error, preview) == PanesAsWritten(error, preview)
  {
  }

  // ---------------------------------------------------------------------------
  // The component state and its handlers
  // ---------------------------------------------------------------------------

  class Playground {
    const initialCode: string
    var code: string
    var preview: Value
    var error: Option<string>
    var isRunning: bool

    /** Between handlers no run is in flight, and a recorded error never sits
        beside a preview. */
    predicate Valid()
      reads this
    {
      !isRunning && (error.Some? ==> preview == Null)
    }

    /** The fields after a run whose `try` block ended with `outcome`. */
    predicate Shows(outcome: Completion<Value>)
      reads this
    {
      match outcome
      case Normal(v) => preview == v && error == None
      case Threw(e) => preview == Null && error == Some(Describe(e))
    }

    /** First render, followed by the auto-run of the mount effect. */
    constructor Mount(initialCode: string, transform: Transformer, construct: Constructor)
      ensures Valid()
      ensures this.initialCode == initialCode && code == initialCode
      ensures Shows(RunOutcome(initialCode, transform, construct))
    {
      this.initialCode := initialCode;
      code := initialCode;
      preview := Null;
      error := None;
      isRunning := false;
      new;
      RunCode(transform, construct);
    }

    /** `runCode`: after it, exactly one of a failure message and the returned
        component is recorded, and no run is in flight. */
    method RunCode(transform: Transformer, construct: Constructor)
      modifies this
      ensures Valid()
      ensures code == old(code)
      ensures Shows(RunOutcome(code, transform, construct))
    {
      isRunning := true;
      error := None;
      var outcome := RunOutcome(code, transform, construct);
      match outcome {
        case Normal(component) =>
          preview := component;
        case Threw(e) =>
          error := Some(Describe(e));
          preview := Null;
      }
      isRunning := false;
    }

    /** `resetCode` */
    method ResetCode()
      requires Valid()
      modifies this
      ensures Valid()
      ensures code == initialCode && preview == Null && error == None
    {
      code := initialCode;
      preview := Null;
      error := None;
    }

    /** The editor's `onValueChange={setCode}`: only the text changes. */
    method OnValueChange(newCode: string)
      requires Valid()
      modifies this
      ensures Valid()
      ensures code == newCode
      ensures preview == old(preview) && error == old(error) && isRunning == old(isRunning)
    {
      code := newCode;
    }

    /** What the preview pane shows now, as the markup writes it: a recorded
        error with an empty message shows the placeholder. */
    function View(): (r: seq<Pane>)
      reads this
      requires Valid()
      ensures |r| == if preview.FalsyNumber? then 2 else 1
      ensures r[0].ErrorBlock? <==> TruthyText(error)
      ensures r[0].LivePreview? <==> error.None? && preview.Truthy?
      ensures r[0].Placeholder? <==> !TruthyText(error) && (preview.Null? || preview.Falsy?)
    {
      PanesAsWritten(error, preview)
    }
  }
}
