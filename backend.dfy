/** The detection backend as the extension sees it: a `python3` child process
    running a short `chardet` script on the file, whose exit code and stdout
    are turned into an encoding label, raced against a 5-second timer.
    The child process and `chardet.detect` are not modelled; what they did
    is an input, a `BackendOutcome`. */
module Backend {
  import opened Options
  import opened Text

  /** How one detection run ended, as the extension observes it.
      `exitCode` is `None` when the process was ended by a signal (Node then
      reports the code as null); `stdoutChunks` are the decoded `data`
      events in arrival order; `timedOutFirst` says the 5-second timer fired
      before the process closed. */
  datatype BackendOutcome = BackendOutcome(
    exitCode: Option<int>,
    stdoutChunks: seq<string>,
    timedOutFirst: bool)

  /** The token the script prints when chardet finds no encoding. */
  const UnknownToken: string := "unknown"

  /** What a stored encoding label looks like: non-empty, no whitespace at
      either end, lower case. */
  predicate IsLabel(l: string) {
    l != [] && IsTrimmed(l) && IsLower(l)
  }

  /** The rule of the process's `close` handler: a label only for exit code
      0 and a trimmed stdout that is neither empty nor exactly `unknown`;
      the label is the trimmed stdout in lower case. */
  function Interpret(code: Option<int>, output: string): Option<string>
  {
    var t := Trim(output);
    if code == Some(0) && t != [] && t != UnknownToken then Some(ToLower(t)) else None
  }

  /** Interpretation depends only on the text between the surrounding
      whitespace. Since every stdout splits this way (`TrimSplits`), this
      determines `Interpret` on all inputs. */
  lemma InterpretPadded(code: Option<int>, p: string, m: string, q: string)
    requires AllWhitespace(p) && AllWhitespace(q) && IsTrimmed(m)
    ensures Interpret(code, p + m + q)
         == if code == Some(0) && m != [] && m != UnknownToken then Some(ToLower(m)) else None
  {
    TrimOfPadded(p, m, q);
  }

  /** Every label the rule produces is a well-formed label, so lowering it
      again changes nothing. */
  lemma InterpretYieldsLabel(code: Option<int>, output: string)
    ensures Interpret(code, output).Some? ==> IsLabel(Interpret(code, output).value)
    ensures Interpret(code, output).Some? ==>
              ToLower(Interpret(code, output).value) == Interpret(code, output).value
  {
    var t := Trim(output);
    var _, _ := TrimSplits(output);
    ToLowerIsLower(t);
    ToLowerKeepsTrimmed(t);
  }

  /** No label without a clean exit, nor from a stdout that holds only
      whitespace (which is what the script leaves when it catches an
      exception). */
  lemma NoLabelCases(code: Option<int>, output: string)
    ensures code != Some(0) ==> Interpret(code, output) == None
    ensures AllWhitespace(output) ==> Interpret(code, output) == None
  {
    if AllWhitespace(output) {
      InterpretPadded(code, output, [], []);
      assert output + [] + [] == output;
    }
  }

  /** The token itself is a well-formed label. */
  lemma UnknownTokenIsLabel()
    ensures IsLabel(UnknownToken)
  {
    assert UnknownToken[0] == 'u' && UnknownToken[|UnknownToken| - 1] == 'n';
  }

  /** Text followed by whitespace (a line printed by the script): the label
      is the trimmed text in lower case unless that is empty or exactly
      `unknown`. */
  lemma InterpretLine(e: string, w: string)
    requires AllWhitespace(w)
    ensures Interpret(Some(0), e + w)
         == if Trim(e) != [] && Trim(e) != UnknownToken then Some(ToLower(Trim(e))) else None
  {
    var p, q := TrimSplits(e);
    AllWhitespaceAppend(q, w);
    assert e + w == p + Trim(e) + (q + w);
    InterpretPadded(Some(0), p, Trim(e), q + w);
  }

  /** The `unknown` test is made before lowering: `unknown` on its own line
      gives no label, but any other casing of it gives the label `unknown`. */
  lemma UnknownIsCaseSensitive(u: string)
    requires u != UnknownToken && ToLower(u) == UnknownToken
    ensures Interpret(Some(0), UnknownToken + "\n") == None
    ensures Interpret(Some(0), u + "\n") == Some(UnknownToken)
  {
    UnknownTokenIsLabel();
    LabelRoundTrip(UnknownToken);
    assert IsTrimmed(u) by {
      assert LowerChar(u[0]) == 'u' && LowerChar(u[|u| - 1]) == 'n';
    }
    assert u + "\n" == [] + u + "\n";
    InterpretPadded(Some(0), [], u, "\n");
  }

  /** A stored label printed on its own line by a clean run is read back
      unchanged, except the label `unknown`, which reads as no label. */
  lemma LabelRoundTrip(l: string)
    requires IsLabel(l)
    ensures Interpret(Some(0), l + "\n") == if l == UnknownToken then None else Some(l)
  {
    assert l + "\n" == [] + l + "\n";
    InterpretPadded(Some(0), [], l, "\n");
    ToLowerOfLower(l);
  }

  /** What the embedded Python script can do: fail to import chardet (an
      uncaught error, exit code 1), fail inside its `try` block (the error
      goes to stderr, exit code 0), or run `chardet.detect`, whose
      `encoding` field is given here. */
  datatype ScriptRun = ChardetMissing | Raised | Detected(encoding: Option<string>)

  function ScriptExitCode(run: ScriptRun): int {
    if run.ChardetMissing? then 1 else 0
  }

  /** The script prints the encoding, or `unknown` when it is missing or
      empty; `print` ends the line. */
  function ScriptStdout(run: ScriptRun): string {
    match run
    case Detected(Some(e)) => if e != [] then e + "\n" else UnknownToken + "\n"
    case Detected(None) => UnknownToken + "\n"
    case _ => []
  }

  /** End to end through the script: a label exactly when chardet named an
      encoding whose trimmed text is neither empty nor `unknown`, and then it
      is that text in lower case. */
  lemma ScriptInterpretation(run: ScriptRun)
    ensures Interpret(Some(ScriptExitCode(run)), ScriptStdout(run))
         == if run.Detected? && run.encoding.Some?
               && Trim(run.encoding.value) != [] && Trim(run.encoding.value) != UnknownToken
            then Some(ToLower(Trim(run.encoding.value)))
            else None
  {
    match run
    case ChardetMissing =>
    case Raised =>
      NoLabelCases(Some(0), []);
    case Detected(None) =>
      UnknownTokenIsLabel();
      LabelRoundTrip(UnknownToken);
    case Detected(Some(e)) =>
      if e == [] {
        UnknownTokenIsLabel();
        LabelRoundTrip(UnknownToken);
      } else {
        InterpretLine(e, "\n");
      }
  }

  /** The result of one detection: nothing if the timer won the race,
      otherwise the close handler's interpretation of everything the
      process wrote to stdout. */
  function DetectEncoding(o: BackendOutcome): Option<string> {
    if o.timedOutFirst then None else Interpret(o.exitCode, Concat(o.stdoutChunks))
  }

  /** The promise built by `detectEncoding` together with the handlers
      attached to the child process: the stdout collected so far, whether
      the timer killed the process, whether the process has closed, and the
      value the promise settled
      with (`None` while it is pending). A promise settles once; later calls
      to `resolve` are ignored. */
  class PendingDetection {
    var output: string
    var killed: bool
    var closed: bool
    var settled: Option<Option<string>>

    constructor ()
      ensures output == [] && !killed && !closed && settled == None
    {
      output := [];
      killed := false;
      closed := false;
      settled := None;
    }

    /** `resolve(v)`: takes effect only while the promise is pending. */
    method Resolve(v: Option<string>)
      modifies this`settled
      ensures settled == if old(settled) == None then Some(v) else old(settled)
    {
      if settled == None {
        settled := Some(v);
      }
    }

    /** The stdout `data` handler: `output += data.toString()`. */
    method OnStdoutData(chunk: string)
      modifies this`output
      ensures output == old(output) + chunk
    {
      output := output + chunk;
    }

    /** The `close` handler: the process has ended. */
    method OnClose(code: Option<int>)
      modifies this`closed, this`settled
      ensures closed
      ensures settled == if old(settled) == None then Some(Interpret(code, output)) else old(settled)
    {
      closed := true;
      var t := Trim(output);
      if code == Some(0) && t != [] && t != UnknownToken {
        Resolve(Some(ToLower(t)));
      } else {
        Resolve(None);
      }
    }

    /** The timer callback: if the process has not been killed yet, kill it
        and resolve with no label. Killing a process that has already closed
        sends no signal, so `killed` stays false then, and the `resolve` is
        ignored by the settled promise. */
    method OnTimer()
      modifies this`killed, this`settled
      ensures killed == (old(killed) || !closed)
      ensures settled == if !old(killed) && old(settled) == None then Some(None) else old(settled)
    {
      if !killed {
        if !closed {
          killed := true;
        }
        Resolve(None);
      }
    }
  }

  /** Drives one detection: every stdout chunk arrives, then the close event
      and the timer fire in the order the outcome says. A process killed by
      the timer closes with a null code; a timer that fires after a normal
      close still runs, and cannot change the settled value. */
  method RunDetection(o: BackendOutcome) returns (detected: Option<string>)
    ensures detected == DetectEncoding(o)
  {
    var d := new PendingDetection();
    var chunks := o.stdoutChunks;
    var i := 0;
    while i < |chunks|
      invariant 0 <= i <= |chunks|
      invariant d.output == Concat(chunks[..i])
      invariant d.settled == None && !d.killed && !d.closed
    {
      ConcatSnoc(chunks[..i], chunks[i]);
      assert chunks[..i + 1] == chunks[..i] + [chunks[i]];
      d.OnStdoutData(chunks[i]);
      i := i + 1;
    }
    assert chunks[..i] == chunks;
    if o.timedOutFirst {
      d.OnTimer();
      d.OnClose(None);
    } else {
      d.OnClose(o.exitCode);
      d.OnTimer();
    }
    detected := d.settled.value;
  }
}
