/**
 * The upload dialog of `src/pages/FilesPage/FilesPage.tsx`: `openUploadModal`,
 * `closeUploadModal`, the two field setters and `handleUploadSubmit` with the
 * settlement of the `uploadFile` dispatch it starts. `normalize` stands for
 * the imported `normalizeNullableText`.
 */
module UploadDialog {
  import opened Types
  import opened PageEffects

  /** `isUploadOpen`, `uploadingFile`, `uploadComment`. */
  datatype UploadState = UploadState(open: bool, file: Option<FileHandle>, comment: string)

  const Initial: UploadState := UploadState(false, None, "")

  /** Opening resets the form and the slice's upload state. */
  function Open(s: UploadState): (UploadState, seq<Effect>) {
    (UploadState(true, None, ""), [DispatchResetUploadState])
  }

  /** Closing only hides the dialog; the chosen file and comment stay. */
  function Close(s: UploadState): UploadState {
    s.(open := false)
  }

  function SetFile(s: UploadState, file: Option<FileHandle>): UploadState {
    s.(file := file)
  }

  function SetComment(s: UploadState, comment: string): UploadState {
    s.(comment := comment)
  }

  /** Without a file nothing happens; otherwise one upload of that file with the normalised comment. No busy gate. */
  function Submit(s: UploadState, normalize: Option<string> -> Option<string>): (UploadState, seq<Effect>) {
    if s.file.None? then (s, [])
    else (s, [DispatchUploadFile(s.file.value, normalize(Some(s.comment)))])
  }

  /** An upload settled: success resets and closes the form; failure is swallowed. */
  function Settle(s: UploadState, outcome: Settled<()>): (UploadState, seq<Effect>) {
    match outcome
    case Resolved(_) => (UploadState(false, None, ""), [DispatchResetUploadState])
    case Threw(_) => (s, [])
  }

  /** Submit uploads exactly the chosen file, once, and leaves the form as it was. */
  lemma SubmitRule(s: UploadState, normalize: Option<string> -> Option<string>)
    ensures var (t, fx) := Submit(s, normalize);
            && t == s
            && (s.file.None? ==> fx == [])
            && (s.file.Some? ==> fx == [DispatchUploadFile(s.file.value, normalize(Some(s.comment)))])
  {
  }

  /** Submitting twice before anything settles starts two uploads: nothing gates a second submit. */
  lemma NoInFlightGate(s: UploadState, normalize: Option<string> -> Option<string>)
    requires s.file.Some?
    ensures var (t, fx1) := Submit(s, normalize);
            var (_, fx2) := Submit(t, normalize);
            |fx1 + fx2| == 2 && fx1 == fx2
  {
  }

  /** A failed upload keeps everything the user entered; a successful one ends closed and empty. */
  lemma SettleRule(s: UploadState, outcome: Settled<()>)
    ensures outcome.Threw? ==> Settle(s, outcome) == (s, [])
    ensures outcome.Resolved? ==> Settle(s, outcome).0 == Initial
  {
  }

  /** The page's upload-dialog state, the uploads in flight and what the handlers handed out. */
  class UploadController {
    var isUploadOpen: bool
    var uploadingFile: Option<FileHandle>
    var uploadComment: string
    var inFlight: nat
    var effects: seq<Effect>
    const normalize: Option<string> -> Option<string>

    function State(): UploadState
      reads this
    {
      UploadState(isUploadOpen, uploadingFile, uploadComment)
    }

    constructor (normalize: Option<string> -> Option<string>)
      ensures State() == Initial && inFlight == 0 && effects == [] && this.normalize == normalize
    {
      isUploadOpen, uploadingFile, uploadComment := false, None, "";
      inFlight := 0;
      effects := [];
      this.normalize := normalize;
    }

    method OpenUploadModal()
      modifies this`isUploadOpen, this`uploadingFile, this`uploadComment, this`effects
      ensures var (t, fx) := Open(old(State()));
              State() == t && effects == old(effects) + fx
    {
      uploadingFile := None;
      uploadComment := "";
      effects := effects + [DispatchResetUploadState];
      isUploadOpen := true;
    }

    method CloseUploadModal()
      modifies this`isUploadOpen
      ensures State() == Close(old(State()))
    {
      isUploadOpen := false;
    }

    method SetUploadingFile(file: Option<FileHandle>)
      modifies this`uploadingFile
      ensures State() == SetFile(old(State()), file)
    {
      uploadingFile := file;
    }

    method SetUploadComment(comment: string)
      modifies this`uploadComment
      ensures State() == SetComment(old(State()), comment)
    {
      uploadComment := comment;
    }

    method HandleUploadSubmit()
      modifies this`effects, this`inFlight
      ensures var (_, fx) := Submit(old(State()), normalize);
              effects == old(effects) + fx && inFlight == old(inFlight) + |fx|
    {
      if uploadingFile.None? {
        return;
      }
      var comment := normalize(Some(uploadComment));
      effects := effects + [DispatchUploadFile(uploadingFile.value, comment)];
      inFlight := inFlight + 1;
    }

    /** One of the uploads in flight settled. */
    method UploadSettled(outcome: Settled<()>)
      requires inFlight > 0
      modifies this
      ensures var (t, fx) := Settle(old(State()), outcome);
              State() == t && effects == old(effects) + fx && inFlight == old(inFlight) - 1
    {
      inFlight := inFlight - 1;
      if outcome.Threw? {
        return;
      }
      isUploadOpen := false;
      uploadingFile := None;
      uploadComment := "";
      effects := effects + [DispatchResetUploadState];
    }
  }
}
