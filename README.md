# Interactive tutorial sandboxes and page handlers, in Dafny

This project models the parts of a Next.js tutorial site that hold logic:

- the component-preview sandbox `ReactPlayground`. It finds the name of the
  snippet's `export default function`, strips the export, passes the text to
  Babel, wraps the output in a body that returns the component, and compiles
  and calls that body with `React`, `useState` and `useEffect`. Then it shows
  an error, the live preview or a placeholder;
- the plain-expression sandbox `CodePlayground`. It evaluates the snippet
  with a `console` whose `log` collects lines, and publishes either those
  lines or the exception message. Any edit clears what is shown;
- the contact form of the forms tutorial: three field rules, an error map
  and a submit handler;
- the todo list of the state tutorial: add, remove by position, and the
  empty-list placeholder;
- the counter and the open/close toggle of the components tutorial.

Each React component is a `class`. Its state hooks are fields, and each
click, key or change handler is a method that makes one atomic transition.
What the handler computes is a function, and lemmas state the properties.

Babel, `new Function` and `eval` are foreign engines. `RunCode` receives
them as function parameters (oracles): a transpiler that returns text, `null`
or a thrown value; a compile-and-call step that returns a value or throws;
and an evaluator that gives the sequence of `console.log` calls followed by
a normal return or a throw. In JavaScript the tests `error && …` and
`!error` use truthiness, so `js.dfy` spells truthiness out: `""` is falsy.

Modules: `Js` (run-time notions), `Text` (`trim`, `\s`, `\w`, `indexOf`,
`join`/`split`), `ReactPlayground`, `CodePlayground`, `FormsPage`,
`StatePage`, `ComponentsPage`.

Behaviour worth knowing:

- Compiled code is not isolated. In `CodePlayground`, `eval` is a direct
  call inside `runCode`, so the snippet sees that closure's own bindings
  (`logs`, `customConsole`, the state setters) as well as the globals. In
  `ReactPlayground`, `new Function` bodies see the global scope.
- Only `ReactPlayground` runs automatically on mount; `CodePlayground` does not.
- Editing in `ReactPlayground` does not clear the preview or the error
  (`onValueChange={setCode}`, with no effect on `code`).
- An error whose message is empty is not shown, and the placeholder appears
  in its place (see Findings).
- A falsy number returned as the component (`0`, `NaN`) is printed as text
  above the placeholder, because `{PreviewComponent && …}` evaluates to it.

## Model

| member | source | states |
|---|---|---|
| Text.IsWhitespace | src/app/tutorials/forms/page.tsx:16-22 | The characters `\s` matches and `trim` removes: the ECMAScript white space and line terminators. |
| Text.Trim | src/app/tutorials/forms/page.tsx:16 | `trim` returns the slice that starts after the leading whitespace and is followed only by whitespace; it is empty iff the text is all whitespace, and otherwise starts and ends with a non-whitespace character. |
| Text.IsBlank | src/app/tutorials/forms/page.tsx:16-26 | `!s.trim()`: the trimmed text is empty. |
| Text.BlankIffAllWhitespace | src/app/tutorials/state/page.tsx:20 | `!s.trim()` holds exactly when every character is whitespace. |
| Text.IndexOf | src/app/tutorials/forms/page.tsx:22 | Returns the first index of the character, or none exactly when the character does not occur. |
| Text.Join | src/components/CodePlayground.tsx:41 | `join(" ")` of no parts is the empty text, and a joined text starts with its first part; `Text.SplitJoin` is its inverse. |
| Text.IsWordChar | src/components/ReactPlayground.tsx:33 | The class `\w` without the `u` flag: ASCII letters, digits and `_`. |
| Text.WordRun | src/components/ReactPlayground.tsx:33 | The greedy `\w+` consumes a maximal run of word characters. |
| Text.SplitJoin | src/components/CodePlayground.tsx:41 | Joining with `" "` loses nothing when no part contains a space: splitting gives the parts back. |
| Text.FramedWordInjective | src/components/ReactPlayground.tsx:53-57 | A text and a word that sit between a fixed prefix, a separator that ends in a non-word character, and a fixed suffix can be read back. |
| Js.TruthyText | src/components/ReactPlayground.tsx:137-151 | The tests `error && …` and `!error` on a nullable string: `null` and `""` are falsy, every other string is truthy. |
| Js.TruthyValue | src/components/ReactPlayground.tsx:142-147 | The tests `PreviewComponent && …` and `!PreviewComponent`: only a truthy value such as a function passes. |
| Js.Describe | src/components/ReactPlayground.tsx:65 | A thrown `Error` is described by its message, any other thrown value by what `String` makes of it. |
| ReactPlayground.DeclarationAt | src/components/ReactPlayground.tsx:33 | The pattern `export default function \w` matches at a position: the prefix, one space and a word character start there. |
| ReactPlayground.FindDeclaration | src/components/ReactPlayground.tsx:33 | A position it returns is at or after the start of the search and `export default function \w` matches there. |
| ReactPlayground.FindDeclarationIsLeftmost | src/components/ReactPlayground.tsx:33 | The match found is the leftmost one: no earlier position matches, and when nothing is found no position matches at all. |
| ReactPlayground.ExtractName | src/components/ReactPlayground.tsx:33-37 | There is no name exactly when the leftmost-match search finds nothing; a name is non-empty and made of word characters. |
| ReactPlayground.NameFoundIffDeclared | src/components/ReactPlayground.tsx:33-36 | A name is found exactly when `export default function \w` matches at some position. |
| ReactPlayground.ExtractedNameFollowsDeclaration | src/components/ReactPlayground.tsx:33-37 | The name comes right after the leftmost `export default function `, no word character follows it, and no declaration starts earlier. |
| ReactPlayground.LeadingDeclarationName | src/components/ReactPlayground.tsx:33-37 | For a snippet that opens with a declaration, the name is the identifier up to the first non-word character. |
| ReactPlayground.TutorialSnippetName | src/app/tutorials/components/page.tsx:230 | The snippet shipped with the components tutorial yields `MyComponent`. |
| ReactPlayground.PrefixAt | src/components/ReactPlayground.tsx:40 | The literal `export default function` occurs at a position. |
| ReactPlayground.FindPrefix | src/components/ReactPlayground.tsx:40 | A position it returns is at or after the start of the search and holds `export default function`. |
| ReactPlayground.FindPrefixIsLeftmost | src/components/ReactPlayground.tsx:40 | The occurrence found is the leftmost one, and when none is found the text holds no occurrence. |
| ReactPlayground.Strip | src/components/ReactPlayground.tsx:40 | Text without an occurrence is returned unchanged; otherwise the text before the first occurrence is kept and the result is shorter by the length difference of prefix and `function`. |
| ReactPlayground.StripRewritesFirstOccurrenceOnly | src/components/ReactPlayground.tsx:40 | Only the first occurrence is replaced by `function`; the rest of the text is unchanged, and text without an occurrence is returned unchanged. |
| ReactPlayground.StripOccurrenceNotAfterDeclaration | src/components/ReactPlayground.tsx:33-40 | The replaced occurrence never lies after the declaration the name came from. |
| ReactPlayground.StripKeepsDeclaredName | src/components/ReactPlayground.tsx:33-40 | When the replaced occurrence is the declaration, the stripped text has `function <name>` at that place. |
| ReactPlayground.StripMayRewriteAnEarlierOccurrence | src/components/ReactPlayground.tsx:33-40 | Otherwise the replaced occurrence lies strictly before the declaration, and the text before it is unchanged. |
| ReactPlayground.EarlierOccurrenceExample | src/components/ReactPlayground.tsx:33-40 | In `export default function_export default function A` the replace rewrites the occurrence at position 0, which is not a declaration, while the leftmost declaration is the second occurrence, at position 24, and the name is `A`. |
| ReactPlayground.WrappedCode | src/components/ReactPlayground.tsx:53-57 | The body holds the transpiled code verbatim after the `"use strict"` prologue, and its length is that of the template's parts. |
| ReactPlayground.WrappedCodeInjective | src/components/ReactPlayground.tsx:53-57 | The wrapped body determines both the transpiled code and the name it returns. |
| ReactPlayground.RunOutcome | src/components/ReactPlayground.tsx:31-63 | Without a name the `try` block throws the not-found error; a normal completion found a name and got a normal transpiler result. |
| ReactPlayground.NoDeclarationNoTransform | src/components/ReactPlayground.tsx:33-36 | Without a declaration a run fails with the fixed not-found message, and neither the transpiler nor the compiler is consulted. |
| ReactPlayground.TransformFailuresAreReported | src/components/ReactPlayground.tsx:43-50 | A transpiler exception is passed on unchanged; a `null` or empty transpiler result fails with the fixed conversion message. |
| ReactPlayground.CompileRequest | src/components/ReactPlayground.tsx:53-61 | The compiled unit gets the parameters `React`, `useState`, `useEffect` in that order, and a body made of the `"use strict"` prologue, the transpiled code and `return <name>;`. |
| ReactPlayground.SuccessPassedEveryStage | src/components/ReactPlayground.tsx:31-63 | A successful run found a name, got non-empty transpiler output, and returns what the compiled unit returned. |
| ReactPlayground.PreviewSlot | src/components/ReactPlayground.tsx:142-146 | The middle block renders nothing for `null`, `undefined`, `false` and `""`, and for a truthy component when there is an error; otherwise it renders one item. |
| ReactPlayground.PanesAsWritten | src/components/ReactPlayground.tsx:137-151 | The markup as written: the error block if the error is truthy, else the preview if the component is truthy, else the placeholder; a falsy number is also printed, so it gives two items. |
| ReactPlayground.EmptyMessageShowsPlaceholder | src/components/ReactPlayground.tsx:137-151 | A failure with an empty message shows the placeholder. |
| ReactPlayground.ZeroPrintedAbovePlaceholder | src/components/ReactPlayground.tsx:142-151 | A component bound to `0` prints `0` above the placeholder. |
| ReactPlayground.Panes | src/components/ReactPlayground.tsx:137-151 | With the corrected error test: the first item is the error block iff there is an error (it has priority), the preview iff there is no error and the component is truthy, and otherwise the placeholder; a falsy number is printed as written. |
| ReactPlayground.PanesAgreeOnNonEmptyMessages | src/components/ReactPlayground.tsx:137-151 | The two projectors differ only when the message is empty. |
| ReactPlayground.Playground.Mount | src/components/ReactPlayground.tsx:78-82 | The first render holds the initial code, and the mount effect then performs one run. |
| ReactPlayground.Playground.RunCode | src/components/ReactPlayground.tsx:27-70 | After a run, no run is in flight and the code is unchanged. On success the preview holds the returned value and there is no error. On failure the error holds the message (`err.message` or `String(err)`) and the preview is `null`. |
| ReactPlayground.Playground.ResetCode | src/components/ReactPlayground.tsx:72-76 | Restores the initial code and clears both preview and error. |
| ReactPlayground.Playground.OnValueChange | src/components/ReactPlayground.tsx:115 | Changes only the code; preview and error stay as they were. |
| ReactPlayground.Playground.View | src/components/ReactPlayground.tsx:137-151 | The pane as the markup writes it: the first item is the error block iff the recorded error is truthy, and the placeholder iff the error is falsy and the component is `null` or silently falsy, so an error `""` shows the placeholder. |
| CodePlayground.WrappedCode | src/components/CodePlayground.tsx:48-53 | The text handed to `eval` is the fixed opening, the snippet unchanged, and the fixed closing. |
| CodePlayground.WrappedCodeKeepsSnippet | src/components/CodePlayground.tsx:48-53 | Different snippets give different wrapped texts. |
| CodePlayground.Lines | src/components/CodePlayground.tsx:38-43 | Each `console.log` call gives exactly one line, in call order: its arguments joined with single spaces. |
| CodePlayground.LineOfFewArguments | src/components/CodePlayground.tsx:41 | A call with no argument logs the empty line; a call with one argument logs that argument unchanged. |
| CodePlayground.TwoCallsTwoLines | src/components/CodePlayground.tsx:38-43 | Two calls give their two lines in order. |
| CodePlayground.LineKeepsArguments | src/components/CodePlayground.tsx:41 | When no argument contains a space, splitting a line gives that call's arguments back. |
| CodePlayground.LogSink.constructor | src/components/CodePlayground.tsx:38 | The sink starts with no lines. |
| CodePlayground.LogSink.Log | src/components/CodePlayground.tsx:40-42 | Pushes exactly one line onto `logs`. |
| CodePlayground.ViewAsWritten | src/components/CodePlayground.tsx:115-129 | As written: the placeholder is shown iff there is no output and the error is falsy; the lines are shown in order; the error line is shown iff the error is truthy. |
| CodePlayground.EmptyMessageLooksIdle | src/components/CodePlayground.tsx:115-129 | A failure with an empty message looks exactly like a sandbox that was never run. |
| CodePlayground.View | src/components/CodePlayground.tsx:115-129 | With the corrected error test, the placeholder is shown iff there is no output and no error, and the error line is shown iff there is an error. |
| CodePlayground.ViewShowsOnePane | src/components/CodePlayground.tsx:115-129 | When output and error never occur together, exactly one of the placeholder, the lines and the error line is shown. |
| CodePlayground.ViewAsWrittenShowsOnePane | src/components/CodePlayground.tsx:115-129 | The markup as written also shows exactly one of the three when output and error never occur together; an error `""` shows the placeholder. |
| CodePlayground.ViewsAgreeOnNonEmptyMessages | src/components/CodePlayground.tsx:115-129 | The two projectors differ only when the message is empty. |
| CodePlayground.RunButtonOf | src/components/CodePlayground.tsx:83-89 | The run button is disabled iff a run is in flight, and its caption is `実行中...` then and `実行 ▶` otherwise. |
| CodePlayground.Playground.constructor | src/components/CodePlayground.tsx:21-24 | Starts with the initial code, no output and no error. |
| CodePlayground.Playground.RunCode | src/components/CodePlayground.tsx:32-64 | If the snippet returns, the output is exactly the collected lines and there is no error. If it throws, the error is the message and the output is empty, so lines logged before the throw are dropped. The run then ends. |
| CodePlayground.Playground.SetCode | src/components/CodePlayground.tsx:26-30 | A change of the code clears output and error; setting the same text changes nothing. |
| CodePlayground.Playground.ResetCode | src/components/CodePlayground.tsx:66-70 | Restores the initial code and clears output and error. |
| CodePlayground.Playground.Shown | src/components/CodePlayground.tsx:83-129 | As the markup writes it, between handlers: the run button is enabled with caption `実行 ▶`, the lines are the output, the placeholder is shown iff there is no output and the error is falsy, and the error line iff the error is truthy. |
| FormsPage.MatchesEmailPattern | src/app/tutorials/forms/page.tsx:22 | `^[^\s@]+@[^\s@]+\.[^\s@]+$` read as a predicate: an `@` and a later `.` split the address into three non-empty runs without whitespace or `@`. |
| FormsPage.IsEmailShape | src/app/tutorials/forms/page.tsx:22 | The executable form of the pattern: the text before the first `@` and the domain after it are runs without whitespace or `@`, and the domain has a `.` that is neither its first nor its last character. |
| FormsPage.ShapeImpliesPattern | src/app/tutorials/forms/page.tsx:22 | An address that passes the written-out test matches `^[^\s@]+@[^\s@]+\.[^\s@]+$`. |
| FormsPage.PatternImpliesShape | src/app/tutorials/forms/page.tsx:22 | An address matching the pattern passes the written-out test. |
| FormsPage.EmailShapeMatchesPattern | src/app/tutorials/forms/page.tsx:22 | The written-out test and the pattern accept the same addresses. |
| FormsPage.PatternExcludesWhitespace | src/app/tutorials/forms/page.tsx:22 | No character of a matching address is whitespace. |
| FormsPage.PatternHasNoWhitespace | src/app/tutorials/forms/page.tsx:22 | A matching address is non-empty and contains no whitespace at all. |
| FormsPage.ErrorMap | src/app/tutorials/forms/page.tsx:14-30 | One entry per failing field: the name error, the first failing e-mail test, the first failing message test. |
| FormsPage.FieldErrors | src/app/tutorials/forms/page.tsx:13-33 | The map `validateForm` builds: blankness is judged on the trimmed text, the pattern and the length on the text as typed. |
| FormsPage.NameRule | src/app/tutorials/forms/page.tsx:16-18 | The name error is present iff the name is empty or whitespace, and it is the name-required message. |
| FormsPage.EmailRule | src/app/tutorials/forms/page.tsx:20-24 | The address gets the required error iff it is blank. Otherwise it gets the format error iff the untrimmed text fails the pattern. It gets no error iff it matches. |
| FormsPage.PaddedAddressIsMalformed | src/app/tutorials/forms/page.tsx:20-23 | A non-blank address with whitespace at either end gets the format error, not the required error. |
| FormsPage.MessageRule | src/app/tutorials/forms/page.tsx:26-30 | The message gets the required error iff it is blank; otherwise it gets the too-short error iff its untrimmed length is below 10. |
| FormsPage.ErrorMapShape | src/app/tutorials/forms/page.tsx:13-33 | The only keys are `name`, `email` and `message`, and the map is empty iff every field passes its rule. |
| FormsPage.BuildErrors | src/app/tutorials/forms/page.tsx:14-30 | The map filled one `if` at a time is the error map of the five test outcomes. |
| FormsPage.FormsTutorial.constructor | src/app/tutorials/forms/page.tsx:7-11 | Starts with empty fields, not submitted and no errors. |
| FormsPage.FormsTutorial.SetName | src/app/tutorials/forms/page.tsx:240 | Changes the name and nothing else. |
| FormsPage.FormsTutorial.SetEmail | src/app/tutorials/forms/page.tsx:263 | Changes the address and nothing else. |
| FormsPage.FormsTutorial.SetMessage | src/app/tutorials/forms/page.tsx:285 | Changes the message and nothing else. |
| FormsPage.FormsTutorial.ValidateForm | src/app/tutorials/forms/page.tsx:13-34 | The stored map is replaced wholesale by the fresh one, the result is true iff that map is empty, and the fields and `submitted` are unchanged. |
| FormsPage.FormsTutorial.HandleSubmit | src/app/tutorials/forms/page.tsx:36-40 | Refreshes the errors; `submitted` becomes true iff the form is valid and otherwise keeps its value; the field values are unchanged. |
| StatePage.RemoveAt | src/app/tutorials/state/page.tsx:26-28 | An index in range removes exactly that item and keeps the others in order; an index out of range keeps the list. |
| StatePage.RemoveAtShifts | src/app/tutorials/state/page.tsx:27 | Removing in range shortens the list by one and moves each later item down one place. |
| StatePage.AddThenRemoveRestores | src/app/tutorials/state/page.tsx:19-28 | Removing at the old length after an append gives back the original list. |
| StatePage.ListViewOf | src/app/tutorials/state/page.tsx:200-219 | The "no todos" item is shown iff the list is empty; otherwise the items are shown in order. |
| StatePage.StateTutorial.constructor | src/app/tutorials/state/page.tsx:7-8 | Starts with empty text and an empty list. |
| StatePage.StateTutorial.AddTodo | src/app/tutorials/state/page.tsx:19-24 | Non-blank text is appended untrimmed at the end and the input is cleared; blank text changes nothing. |
| StatePage.StateTutorial.RemoveTodo | src/app/tutorials/state/page.tsx:26-28 | The list becomes the filtered list, and the text is unchanged. |
| StatePage.StateTutorial.OnKeyDown | src/app/tutorials/state/page.tsx:188-193 | Enter makes the same transition as the add button; any other key changes nothing. |
| StatePage.StateTutorial.SetText | src/app/tutorials/state/page.tsx:187 | Changes only the text. |
| StatePage.StateTutorial.Shown | src/app/tutorials/state/page.tsx:200-219 | The placeholder item is shown iff the list is empty; otherwise the items of the list, in order. |
| ComponentsPage.ToggleViewOf | src/app/tutorials/components/page.tsx:214-223 | The caption is `閉じる` iff open and `開く` otherwise; the panel is rendered iff open. |
| ComponentsPage.ComponentsTutorial.constructor | src/app/tutorials/components/page.tsx:8-9 | Starts closed, with the count at 0. |
| ComponentsPage.ComponentsTutorial.Increment | src/app/tutorials/components/page.tsx:194 | Adds exactly 1 and leaves the toggle as it is. |
| ComponentsPage.ComponentsTutorial.Decrement | src/app/tutorials/components/page.tsx:185 | Subtracts exactly 1 with no lower bound, and leaves the toggle as it is. |
| ComponentsPage.ComponentsTutorial.Reset | src/app/tutorials/components/page.tsx:200 | Sets the count to 0 from any state, and leaves the toggle as it is. |
| ComponentsPage.ComponentsTutorial.Toggle | src/app/tutorials/components/page.tsx:211 | Flips the toggle and leaves the count as it is. |
| ComponentsPage.ComponentsTutorial.Shown | src/app/tutorials/components/page.tsx:214-223 | The panel is shown iff the toggle is open, and the caption follows it. |
| ComponentsPage.IncrementThenDecrement | src/app/tutorials/components/page.tsx:185-198 | `+` then `-` restores the count and the toggle. |
| ComponentsPage.DecrementThenIncrement | src/app/tutorials/components/page.tsx:185-198 | `-` then `+` restores the count and the toggle, also below zero. |
| ComponentsPage.ToggleTwice | src/app/tutorials/components/page.tsx:211 | Toggling twice is the identity. |
| ComponentsPage.ClicksThenReset | src/app/tutorials/components/page.tsx:185-200 | After any sequence of counter clicks, reset gives 0, and the counter buttons never change the toggle. |

## Left out

- Babel, `new Function` and `eval` are oracles. No property of JSX transpilation or JavaScript evaluation is modelled, and neither is a guarantee about which globals compiled code can reach.
- `String(arg)` on arbitrary values is not modelled: the evaluator delivers each `console.log` call's arguments as strings that are already converted.
- The whitespace class of `\s` and `trim` is the fixed ECMAScript set of the current standard, and `\w` is ASCII. String length is sequence length, not a count of UTF-16 code units.
- React's batching of setters is not modelled. So is the transient `isRunning = true` during a run: each handler is one atomic transition, and `isRunning` is false again when it returns.
- Exceptions that the preview component raises inside React's own render pass are not caught by `runCode` and are not modelled.
- ReactPlayground.PanesAsWritten, ReactPlayground.Panes: a truthy value is a handle that the compile oracle chooses from the compiled text alone. The model does not capture that every run's `new Function` makes a fresh function, so React remounts the preview and resets its state after each successful run.
- CodePlayground.Playground.RunCode: the evaluator can only log, return or throw. A snippet that uses the bindings of `runCode` it can see through the direct `eval` is outside the model. For example, `console.log("a"); setError("x")` publishes both output and an error, against `Valid()`, and `console.log("a"); logs.length = 0` returns with no output instead of `Lines(trace.calls)`. Both ensures of `RunCode` hold only for snippets that leave those bindings alone.
- CodePlayground.Playground.RunCode: the source publishes the sink's own `logs` array. Lines that the snippet logs after `runCode` returns (from a timer or a promise callback) are appended to that array in place and show at the next render, and a later throw escapes the `try`. The model copies the lines once, when the snippet returns, and its trace ends there.
- FormsPage.FormsTutorial.SetEmail: the field is an `<input type="email">` and the browser strips newlines and leading and trailing ASCII whitespace from its value. The model accepts any text.
- FormsPage.FormsTutorial.HandleSubmit: the form has no `noValidate`, so the browser cancels the submit, and `handleSubmit` never runs, when the address is non-empty and not a valid e-mail address as the HTML standard defines it. The model runs the handler on every state.
- FormsPage.PaddedAddressIsMalformed: because the browser strips the padding, the page itself never holds a padded address; the lemma is about `validateForm` alone.
- In `ReactPlayground`, the run button (same `disabled`/caption logic as in `CodePlayground.RunButtonOf`) and the reset button are not modelled separately.
- The code editor and Prism highlighting (UI libraries), and all styling.
- Timers are left out: the one-second clock of the state tutorial (`setInterval`), and the three-second `setTimeout` after a successful submit that empties the form.
- FormsPage.FormsTutorial.HandleSubmit: does not model `e.preventDefault()` or the timer it starts.
- The rendering of the form's error messages under each field is left out; it shows `errors[key]` when present.
- The data-fetching page (a network client), the static pages, and the code samples shown inside `<code>` blocks.
- The counter is an unbounded integer. JavaScript numbers lose precision beyond 2^53, and the model has no such bound.
- The index that `removeTodo` receives is an integer; it always is for the keys that `todos.map` produces.

## Findings

| source | as written | input that shows it | evidently intended | confidence | as-written member | corrected member |
|---|---|---|---|---|---|---|
| src/components/ReactPlayground.tsx:137-151 | The error block is guarded by `{error && …}` and the other panes by `!error`, so an error message of `""` is falsy. | A snippet whose top level runs `throw new Error()`: the run records the error `""`, the preview is `null`, and the pane shows the "run the code" placeholder, not an error. | Every recorded failure is shown (`error !== null`). | medium; not executed | ReactPlayground.PanesAsWritten, ReactPlayground.EmptyMessageShowsPlaceholder, ReactPlayground.Playground.View | ReactPlayground.Panes |
| src/components/CodePlayground.tsx:115-129 | The error line is guarded by `{error && …}` and the placeholder by `!error`. | The snippet `throw new Error()`: the output is empty and the error is `""`, so the area shows the idle placeholder and no error line. | Every recorded failure is shown (`error !== null`). | medium; not executed | CodePlayground.ViewAsWritten, CodePlayground.EmptyMessageLooksIdle, CodePlayground.Playground.Shown | CodePlayground.View |
