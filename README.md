# Encoding Detector, modelled in Dafny

A model of the VS Code extension "Encoding Detector" (`src/extension.ts`).
For each file the user views, the extension asks an external `python3` +
`chardet` process for the file's likely character encoding. It caches the
label per file path and shows it in a status-bar item. The item carries a
warning background when the label is not in the configured
`encodingDetector.safeEncodings` list (default `ascii`, `utf-8`).
Clicking the item repeats the label and the safe/problematic verdict in a
message.

The model has five modules:

- `Options` (`options.dfy`): the `Option` datatype.
- `Text` (`text.dfy`): JavaScript's `trim` and `toLowerCase`, and the
  concatenation of stdout chunks.
- `Backend` (`backend.dfy`): the backend contract.
  - The outcome of one detection run is an input value, `BackendOutcome`: the
    exit code (`None` for a process ended by a signal), the stdout chunks in
    arrival order, and whether the 5-second timer fired before the process
    closed.
  - `Interpret` is the rule of the `close` handler.
  - `ScriptRun`, `ScriptExitCode` and `ScriptStdout` give what the embedded
    Python script writes for each way it can end.
  - `PendingDetection` is the promise with its handlers; it settles once.
  - `RunDetection` drives those handlers and is proved equal to the pure
    `DetectEncoding`.
- `Classification` (`classification.dfy`): `getSafeEncodings` and the
  `includes` test.
- `Extension` (`extension.dfy`): the class `EncodingDetector`.
  - It holds the module-level cache `fileEncodings` and the status-bar item's
    text/tooltip (`BarText`), warning background, visibility and disposal.
  - It has one method per handler.
  - `Valid()` is its invariant: every cached value is a well-formed label, and
    the warning background is on exactly while the bar shows a problematic
    label.

Inputs that the source takes from the host become parameters:
- the document (scheme and file-system path),
- the active editor (`Option<Document>`),
- the `safeEncodings` setting (`None` when it is not configured),
- the backend outcome.

The source's detection is asynchronous, but each handler here runs a
detection to completion. `BeginDetection` is the part of
`detectAndShowEncoding` that runs before the backend is awaited.

## Model

| member | source | states |
|---|---|---|
| `Text.SkipLeading` | src/extension.ts:142 | the scan from the front stops at the first character that is not ECMAScript whitespace (or at the end); everything it passes is whitespace |
| `Text.SkipTrailing` | src/extension.ts:142 | the scan from the back stops just past the last non-whitespace character, never below the start; everything it passes is whitespace |
| `Text.TrimSplits` | src/extension.ts:142 | every string is whitespace + `trim` of it + whitespace, and `trim`'s result has no whitespace at either end |
| `Text.TrimOfPadded` | src/extension.ts:142 | `trim` of whitespace + a trimmed middle + whitespace is that middle, so `trim` is determined by the split |
| `Text.TrimIdempotent` | src/extension.ts:142 | trimming twice equals trimming once |
| `Text.ToLowerIsLower` | src/extension.ts:143 | `toLowerCase` yields a string with no upper-case letter, and applying it again changes nothing |
| `Text.ToLowerKeepsTrimmed` | src/extension.ts:143 | lowering a trimmed string leaves it trimmed, because whitespace is never case-mapped |
| `Text.ConcatSnoc` | src/extension.ts:138 | appending one stdout chunk appends its text to the accumulated output |
| `Backend.InterpretPadded` | src/extension.ts:141-147 | for stdout = whitespace + trimmed text + whitespace, the result is a label iff the exit code is 0 and the text is non-empty and not exactly `unknown`; the label is the text lowered |
| `Backend.InterpretYieldsLabel` | src/extension.ts:142-143 | any label produced is non-empty, has no surrounding whitespace, is lower case, and lowering it again changes nothing |
| `Backend.NoLabelCases` | src/extension.ts:141-147 | a non-zero or null exit code gives no label; so does a stdout of whitespace only (the caught-exception path) |
| `Backend.UnknownIsCaseSensitive` | src/extension.ts:142-143 | `unknown` on its own line gives no label, but any other casing of it gives the label `unknown` |
| `Backend.LabelRoundTrip` | src/extension.ts:142-143 | a well-formed label printed on its own line by a clean run is read back unchanged, except `unknown`, which reads as no label |
| `Backend.InterpretLine` | src/extension.ts:141-147 | text followed by whitespace gives the lowered trimmed text as the label unless that is empty or exactly `unknown` |
| `Backend.ScriptInterpretation` | src/extension.ts:119-133 | through the Python script: a label exactly when chardet named an encoding whose trimmed text is neither empty nor `unknown`; a missing chardet module, a caught exception, or no encoding gives no label |
| `Backend.PendingDetection.constructor` | src/extension.ts:118-136 | a new detection has empty output, a process neither killed nor closed, and a pending promise |
| `Backend.PendingDetection.Resolve` | src/extension.ts:118 | the promise takes the first value it is resolved with; later resolutions change nothing |
| `Backend.PendingDetection.OnStdoutData` | src/extension.ts:138 | each stdout chunk is appended to the collected output |
| `Backend.PendingDetection.OnClose` | src/extension.ts:141-148 | the process is marked closed; a pending promise settles with the interpretation of the collected output under the exit code; a settled one is unchanged |
| `Backend.PendingDetection.OnTimer` | src/extension.ts:151-157 | the timer kills a process that has not closed and settles a pending promise with no label; after a normal close it kills nothing (no signal is sent, so `killed` stays false) and its `resolve` leaves the settled value unchanged |
| `Backend.RunDetection` | src/extension.ts:117-159 | running the handlers in the outcome's order settles with `DetectEncoding`: no label if the timer fired first, otherwise the close rule applied to the concatenated stdout; the later event never alters the result |
| `Classification.SafeEncodingsAreLower` | src/extension.ts:73 | every entry of the safe list is lower case |
| `Classification.ProblematicIffNoEntryMatches` | src/extension.ts:100-102 | a label is problematic iff no configured entry, lowered, equals it |
| `Classification.DefaultClassification` | src/extension.ts:73 | with no configured list, a label is safe iff it is `ascii` or `utf-8` |
| `Classification.UpperCaseLabelIsProblematic` | src/extension.ts:102 | a label with an upper-case letter is problematic under every setting |
| `Extension.TextOfInjective` | src/extension.ts:84-110 | the bar text differs between every two states (blank, detecting, unknown, safe or problematic with a given label), so it shows which state the item is in and which label |
| `Extension.TooltipOfInjective` | src/extension.ts:85-110 | the tooltip likewise differs between every two states and carries the label |
| `Extension.MessageOfInjective` | src/extension.ts:51-53 | the information message differs for every label and verdict, so it reports both |
| `Extension.EncodingDetector.constructor` | src/extension.ts:4-12 | the cache is empty and the item is blank, hidden, without warning |
| `Extension.EncodingDetector.BeginDetection` | src/extension.ts:84-87 | entering detection shows "Detecting..." on the normal background and leaves the cache alone |
| `Extension.EncodingDetector.UpdateStatusBar` | src/extension.ts:100-115 | the bar is shown with the label's verdict under the current setting; the warning background is on iff the label is problematic |
| `Extension.EncodingDetector.DetectAndShowEncoding` | src/extension.ts:81-98 | on success the label is cached for the path, no other entry changes, and the bar shows its verdict; on failure the cache is unchanged and the bar shows "Encoding Unknown" without warning; the invariant is kept |
| `Extension.EncodingDetector.OnDidOpenTextDocument` | src/extension.ts:15-19 | a file document is detected as above; any other document changes nothing |
| `Extension.EncodingDetector.OnDidChangeActiveTextEditor` | src/extension.ts:22-28 | an editor on a file document is detected as above; no editor or a non-file document hides the bar and changes nothing else |
| `Extension.EncodingDetector.CheckInitialEditor` | src/extension.ts:31-36 | an editor open at activation on a file document is detected; otherwise nothing changes |
| `Extension.EncodingDetector.ShowEncodingInfo` | src/extension.ts:42-65 | a message appears iff there is an active editor whose path is cached; it names the cached label with the same verdict `updateStatusBar` gives under the current setting; no state changes |
| `Extension.EncodingDetector.Deactivate` | src/extension.ts:161-166 | the cache is empty and the item is disposed |
| `Extension.ReopenThenShowInfo` | src/extension.ts:42-98 | after two detections of one file, a click reports the later successful label, or the earlier one when the second failed; the verdict is the classification under the current setting, and the warning background is on iff the second detection produced a problematic label |

## Left out

- Spawning `python3`, streaming stderr, and the `chardet.detect` inference are not modelled. This is foreign I/O and an unseen library. What chardet answers is an input (`ScriptRun`). The script reads only the first 10240 bytes, so that limit belongs to chardet's input and is not modelled either. The byte chunks' UTF-8 decoding (`data.toString()`) is also not modelled: chunks arrive as already decoded strings.
- `Text.LowerChar`: only the Basic Latin and Latin-1 case mappings of `toLowerCase` are modelled, because encoding names are ASCII. Other scripts' mappings, and the mappings that change a string's length, are not modelled.
- Timing and concurrency are not modelled. The 5-second race between the timer and the `close` event of one detection is reduced to the `timedOutFirst` flag of the outcome. Overlapping detections, which the source does not guard against, are not modelled. Neither is the order of their completions.
- `console.log`/`console.error` logging is not modelled. This includes the spurious "timed out" message the timer logs after a normal exit.
- VS Code plumbing is not modelled: status-bar creation and placement, the `command` binding, `ThemeColor`, event and command registration, and `context.subscriptions`. Only the fields these set are modelled: text and tooltip (`BarText`, rendered by `TextOf` and `TooltipOf`), warning background, visibility and disposal.
- The "Change Encoding..." button of the information message, and the `workbench.action.editor.changeEncoding` command it runs, are not modelled. They are host actions. The model returns the message (`InfoMessage`, rendered by `MessageOf`).
- `Extension.ReopenThenShowInfo`: it covers detections of one path triggered by opening the document. The editor-change and startup paths run the same `DetectAndShowEncoding`, and their own contracts say so.
- The code has no per-path in-flight guard, so a second detection of a path can start while one is running; the model runs each detection to completion and does not model two of them overlapping. Every failure, timeout included, is "no label", as in the code.
