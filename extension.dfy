/** The extension's own state: the module-level cache from file path to
    detected label (`fileEncodings`) and the status-bar item, whose text,
    tooltip, warning background and visibility the handlers set. Editor
    events, the configuration store and the detection backend's outcome are
    inputs to the handlers. */
module Extension {
  import opened Options
  import opened Text
  import opened Backend
  import opened Classification

  /** The parts of a text document the extension reads. */
  datatype Document = Document(scheme: string, fsPath: string)

  /** `shouldProcessDocument`: only documents backed by a file on disk. */
  predicate ShouldProcessDocument(d: Document) {
    d.scheme == "file"
  }

  /** What the status-bar item shows: each case fixes both its text and its
      tooltip. `Blank` is the freshly created item. */
  datatype BarText = Blank | Detecting | EncodingUnknown | Safe(enc: string) | Problematic(enc: string)

  function TextOf(t: BarText): string {
    match t
    case Blank => ""
    case Detecting => "$(sync~spin) Detecting..."
    case EncodingUnknown => "$(question) Encoding Unknown"
    case Safe(e) => "$(check) " + e
    case Problematic(e) => "$(alert) " + e
  }

  /** The tooltip; `None` is the unset tooltip of a fresh item. */
  function TooltipOf(t: BarText): Option<string> {
    match t
    case Blank => None
    case Detecting => Some("Checking file encoding")
    case EncodingUnknown => Some("Could not detect file encoding")
    case Safe(e) => Some("Encoding: " + e)
    case Problematic(e) => Some("\U{26A0}\U{FE0F} Encoding: " + e + "\nClick for options.")
  }

  /** The text on the bar tells every state apart, and for a detected
      label it shows that label: a user reading the bar sees exactly which
      case the item is in. */
  lemma {:induction false} TextOfInjective(a: BarText, b: BarText)
    requires TextOf(a) == TextOf(b)
    ensures a == b
  {
    var s := TextOf(a);
    if a.Blank? || b.Blank? {
      assert |s| == 0;
    } else {
      assert s[2] == TextOf(b)[2];
      if a.Safe? || a.Problematic? {
        assert s[9..] == a.enc;
        assert TextOf(b)[9..] == b.enc;
      }
    }
  }

  /** The tooltip also tells every state apart and shows the label. */
  lemma {:induction false} TooltipOfInjective(a: BarText, b: BarText)
    requires TooltipOf(a) == TooltipOf(b)
    ensures a == b
  {
    if !a.Blank? && !b.Blank? {
      var s := TooltipOf(a).value;
      assert s[0] == TooltipOf(b).value[0] && s[1] == TooltipOf(b).value[1];
      if a.Safe? {
        assert s[10..] == a.enc;
        assert TooltipOf(b).value[10..] == b.enc;
      } else if a.Problematic? {
        var pre := "\U{26A0}\U{FE0F} Encoding: ";
        var post := "\nClick for options.";
        assert s == pre + a.enc + post;
        assert TooltipOf(b).value == pre + b.enc + post;
        assert s[|pre|..|s| - |post|] == a.enc;
        assert TooltipOf(b).value[|pre|..|s| - |post|] == b.enc;
      }
    }
  }

  /** The bar text `updateStatusBar` chooses for a label under a safe list. */
  function Verdict(enc: string, safe: seq<string>): BarText
  {
    if IsProblematic(enc, safe) then Problematic(enc) else Safe(enc)
  }

  /** The information message `showEncodingInfo` displays. */
  datatype InfoMessage = InfoMessage(enc: string, problematic: bool)

  function MessageOf(m: InfoMessage): string {
    if m.problematic then
      "\U{26A0}\U{FE0F} This file is detected as " + m.enc
      + ". Saving in VS Code's default (UTF-8) may corrupt special characters."
    else
      "\U{2713} This file is " + m.enc + " (safe)."
  }

  /** The message names the label and tells safe from problematic by its
      first character, so different messages are different verdicts. */
  lemma {:induction false} MessageOfInjective(a: InfoMessage, b: InfoMessage)
    requires MessageOf(a) == MessageOf(b)
    ensures a == b
  {
    var s := MessageOf(a);
    assert s[0] == MessageOf(b)[0];
    if a.problematic {
      var pre := "\U{26A0}\U{FE0F} This file is detected as ";
      var post := ". Saving in VS Code's default (UTF-8) may corrupt special characters.";
      assert s == pre + a.enc + post;
      assert MessageOf(b) == pre + b.enc + post;
      assert s[|pre|..|s| - |post|] == a.enc;
      assert MessageOf(b)[|pre|..|s| - |post|] == b.enc;
    } else {
      var pre := "\U{2713} This file is ";
      var post := " (safe).";
      assert s == pre + a.enc + post;
      assert MessageOf(b) == pre + b.enc + post;
      assert s[|pre|..|s| - |post|] == a.enc;
      assert MessageOf(b)[|pre|..|s| - |post|] == b.enc;
    }
  }

  class EncodingDetector {
    /** `fileEncodings`: file path to the last label detected for it. */
    var fileEncodings: map<string, string>
    var text: BarText
    var warningBackground: bool
    var visible: bool
    var disposed: bool

    /** Every cached value is a detected label, and the warning background
        is on exactly while the bar shows a problematic label. */
    ghost predicate Valid()
      reads this
    {
      && (forall p :: p in fileEncodings ==> IsLabel(fileEncodings[p]))
      && (warningBackground <==> text.Problematic?)
    }

    /** The state `detectAndShowEncoding` leaves for `path`, given the cache
        it started from: the bar is shown; on success the label is cached for
        the path (no other entry changes) and the bar shows its verdict; on
        failure the cache is as it was and the bar shows "Encoding Unknown"
        on the normal background. */
    ghost predicate AfterDetection(before: map<string, string>, path: string,
                                   outcome: BackendOutcome, setting: Option<seq<string>>)
      reads this
    {
      && visible
      && match DetectEncoding(outcome)
         case Some(enc) =>
           && fileEncodings == before[path := enc]
           && text == Verdict(enc, GetSafeEncodings(setting))
           && warningBackground == IsProblematic(enc, GetSafeEncodings(setting))
         case None =>
           && fileEncodings == before
           && text == EncodingUnknown
           && !warningBackground
    }

    /** Module load and `activate`: an empty cache and a new, hidden item. */
    constructor ()
      ensures Valid()
      ensures fileEncodings == map[] && text == Blank
      ensures !warningBackground && !visible && !disposed
    {
      fileEncodings := map[];
      text := Blank;
      warningBackground := false;
      visible := false;
      disposed := false;
    }

    /** The first half of `detectAndShowEncoding`, before the backend is
        awaited: the bar shows "Detecting..." without a warning. */
    method BeginDetection()
      requires Valid()
      modifies this`text, this`warningBackground, this`visible
      ensures Valid()
      ensures text == Detecting && !warningBackground && visible
    {
      text := Detecting;
      warningBackground := false;
      visible := true;
    }

    /** `updateStatusBar`: a check mark for a safe label, an alert with the
        warning background for a problematic one; the bar is shown. */
    method UpdateStatusBar(enc: string, setting: Option<seq<string>>)
      requires Valid()
      modifies this`text, this`warningBackground, this`visible
      ensures Valid()
      ensures text == Verdict(enc, GetSafeEncodings(setting))
      ensures warningBackground == IsProblematic(enc, GetSafeEncodings(setting))
      ensures visible
    {
      var safeEncodings := GetSafeEncodings(setting);
      var isProblematic := enc !in safeEncodings;
      if isProblematic {
        text := Problematic(enc);
        warningBackground := true;
      } else {
        text := Safe(enc);
        warningBackground := false;
      }
      visible := true;
    }

    /** `detectAndShowEncoding`: show "Detecting...", run the backend, then
        either cache the label for the path and show its verdict, or show
        "Encoding Unknown" and leave the cache as it was. */
    method DetectAndShowEncoding(doc: Document, outcome: BackendOutcome, setting: Option<seq<string>>)
      requires Valid()
      modifies this`fileEncodings, this`text, this`warningBackground, this`visible
      ensures Valid()
      ensures AfterDetection(old(fileEncodings), doc.fsPath, outcome, setting)
    {
      var filePath := doc.fsPath;
      BeginDetection();
      var encoding := RunDetection(outcome);
      if encoding.Some? {
        InterpretYieldsLabel(outcome.exitCode, Concat(outcome.stdoutChunks));
        fileEncodings := fileEncodings[filePath := encoding.value];
        UpdateStatusBar(encoding.value, setting);
      } else {
        text := EncodingUnknown;
      }
    }

    /** The `onDidOpenTextDocument` handler: detect for file documents,
        ignore the rest. */
    method OnDidOpenTextDocument(doc: Document, outcome: BackendOutcome, setting: Option<seq<string>>)
      requires Valid()
      modifies this`fileEncodings, this`text, this`warningBackground, this`visible
      ensures Valid()
      ensures !ShouldProcessDocument(doc) ==>
        && fileEncodings == old(fileEncodings) && text == old(text)
        && warningBackground == old(warningBackground) && visible == old(visible)
      ensures ShouldProcessDocument(doc) ==>
        AfterDetection(old(fileEncodings), doc.fsPath, outcome, setting)
    {
      if ShouldProcessDocument(doc) {
        DetectAndShowEncoding(doc, outcome, setting);
      }
    }

    /** The `onDidChangeActiveTextEditor` handler: detect for an editor on a
        file document; with no editor, or a non-file document, hide the bar
        and touch nothing else. */
    method OnDidChangeActiveTextEditor(editor: Option<Document>, outcome: BackendOutcome,
                                       setting: Option<seq<string>>)
      requires Valid()
      modifies this`fileEncodings, this`text, this`warningBackground, this`visible
      ensures Valid()
      ensures !(editor.Some? && ShouldProcessDocument(editor.value)) ==>
        && !visible
        && fileEncodings == old(fileEncodings) && text == old(text)
        && warningBackground == old(warningBackground)
      ensures editor.Some? && ShouldProcessDocument(editor.value) ==>
        AfterDetection(old(fileEncodings), editor.value.fsPath, outcome, setting)
    {
      if editor.Some? && ShouldProcessDocument(editor.value) {
        DetectAndShowEncoding(editor.value, outcome, setting);
      } else {
        visible := false;
      }
    }

    /** The check `activate` makes for an editor already open at startup:
        detect for it if it shows a file document. */
    method CheckInitialEditor(active: Option<Document>, outcome: BackendOutcome,
                              setting: Option<seq<string>>)
      requires Valid()
      modifies this`fileEncodings, this`text, this`warningBackground, this`visible
      ensures Valid()
      ensures !(active.Some? && ShouldProcessDocument(active.value)) ==>
        && fileEncodings == old(fileEncodings) && text == old(text)
        && warningBackground == old(warningBackground) && visible == old(visible)
      ensures active.Some? && ShouldProcessDocument(active.value) ==>
        AfterDetection(old(fileEncodings), active.value.fsPath, outcome, setting)
    {
      if active.Some? && ShouldProcessDocument(active.value) {
        DetectAndShowEncoding(active.value, outcome, setting);
      }
    }

    /** The `showEncodingInfo` command: with an active editor whose file has
        a cached label, the message gives that label and the same verdict
        `updateStatusBar` gives it under the current setting; otherwise
        nothing is shown. Nothing changes. */
    method ShowEncodingInfo(editor: Option<Document>, setting: Option<seq<string>>)
      returns (message: Option<InfoMessage>)
      requires Valid()
      ensures message.Some? <==> editor.Some? && editor.value.fsPath in fileEncodings
      ensures message.Some? ==>
        && message.value.enc == fileEncodings[editor.value.fsPath]
        && message.value.problematic
           == Verdict(message.value.enc, GetSafeEncodings(setting)).Problematic?
    {
      if editor.None? {
        return None;
      }
      var filePath := editor.value.fsPath;
      var encoding := if filePath in fileEncodings then fileEncodings[filePath] else "";
      if encoding != "" {
        var safeEncodings := GetSafeEncodings(setting);
        var isProblematic := encoding !in safeEncodings;
        message := Some(InfoMessage(encoding, isProblematic));
      } else {
        message := None;
      }
    }

    /** `deactivate`: the cache is emptied and the item disposed. */
    method Deactivate()
      requires Valid()
      modifies this`fileEncodings, this`disposed
      ensures Valid()
      ensures fileEncodings == map[] && disposed
    {
      fileEncodings := map[];
      disposed := true;
    }
  }

  /** A user opens a file document twice (two detections of the same path)
      and then clicks the status bar. A failed second detection keeps the
      first label; the click reports the same verdict the bar shows. */
  method ReopenThenShowInfo(doc: Document, first: BackendOutcome, second: BackendOutcome,
                            setting: Option<seq<string>>)
    returns (message: Option<InfoMessage>, warning: bool)
    requires ShouldProcessDocument(doc)
    ensures message.Some? <==> DetectEncoding(first).Some? || DetectEncoding(second).Some?
    ensures message.Some? ==>
      && message.value.enc == (if DetectEncoding(second).Some? then DetectEncoding(second)
                               else DetectEncoding(first)).value
      && IsLabel(message.value.enc)
      && message.value.problematic == IsProblematic(message.value.enc, GetSafeEncodings(setting))
    ensures warning <==> DetectEncoding(second).Some? && message.value.problematic
  {
    var ext := new EncodingDetector();
    ext.OnDidOpenTextDocument(doc, first, setting);
    ext.OnDidOpenTextDocument(doc, second, setting);
    warning := ext.warningBackground;
    message := ext.ShowEncodingInfo(Some(doc), setting);
  }
}
