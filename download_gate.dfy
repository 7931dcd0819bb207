/**
 * `handleDownload` of `src/pages/FilesPage/FilesPage.tsx`: one download at a
 * time across the whole list. The blob fetch is split into the click and the
 * settlement of its promise. How the `.then` callback ended (it ran through,
 * `saveBlob` threw, or the `markDownloaded` dispatch threw) is a parameter of
 * the settlement, and so is the clock reading for `markDownloaded`.
 */
module DownloadGate {
  import opened Types
  import opened PageEffects

  const DownloadFailed: string := "Не удалось скачать файл. Попробуйте ещё раз позже."

  /** The fetch in flight, with the values its callbacks captured. */
  datatype Download = Download(fileId: int, originalName: string)

  /** `downloadingId`, `downloadError`, and the fetch whose promise has not settled. */
  datatype DownloadState = DownloadState(downloadingId: Option<int>, error: Option<string>, inFlight: Option<Download>)

  const Initial: DownloadState := DownloadState(None, None, None)

  /** `downloadingId` names exactly the file whose fetch is in flight, and no error is shown meanwhile. */
  predicate Valid(s: DownloadState) {
    && (s.downloadingId.Some? <==> s.inFlight.Some?)
    && (s.inFlight.Some? ==> s.downloadingId.value == s.inFlight.value.fileId && s.error.None?)
  }

  /** How the `.then` callback of a resolved fetch ended. */
  datatype ThenStep = Completed | SaveThrew | MarkThrew

  /** A click on a download button. */
  function Start(s: DownloadState, fileId: int, originalName: string): (DownloadState, seq<Effect>) {
    if s.downloadingId.Some? then (s, [])
    else (DownloadState(Some(fileId), None, Some(Download(fileId, originalName))), [DownloadFile(fileId)])
  }

  /**
   * The fetch settled: on success save the blob and, if saving did not throw,
   * dispatch the mark; a failed fetch, a throwing save or a throwing dispatch
   * reaches the `.catch`, which reports the error. The gate is released
   * either way.
   */
  function Settle(s: DownloadState, outcome: Settled<Blob>, step: ThenStep, iso: string): (DownloadState, seq<Effect>)
    requires s.inFlight.Some?
  {
    var d := s.inFlight.value;
    match outcome
    case Resolved(blob) =>
      var save := [SaveBlob(blob, d.originalName)];
      var mark := [DispatchMarkDownloaded(d.fileId, iso)];
      (match step
       case Completed => (DownloadState(None, s.error, None), save + mark)
       case SaveThrew => (DownloadState(None, Some(DownloadFailed), None), save)
       case MarkThrew => (DownloadState(None, Some(DownloadFailed), None), save + mark))
    case Threw(_) =>
      (DownloadState(None, Some(DownloadFailed), None), [])
  }

  /** While any download is in flight, a click on any file does nothing. */
  lemma GateIsGlobal(s: DownloadState, fileId: int, originalName: string)
    requires s.downloadingId.Some?
    ensures Start(s, fileId, originalName) == (s, [])
  {
  }

  /** A click with the gate open clears the error, closes the gate on that file and requests it once. */
  lemma StartFetches(s: DownloadState, fileId: int, originalName: string)
    requires s.downloadingId.None?
    ensures var (t, fx) := Start(s, fileId, originalName);
            t.downloadingId == Some(fileId) && t.error.None? && fx == [DownloadFile(fileId)]
  {
  }

  /**
   * The blob is handed to `saveBlob` exactly when the fetch succeeded, and
   * `markDownloaded` is dispatched exactly when, in addition, saving returned.
   * No error is shown exactly when the whole callback ran through; otherwise
   * the fixed message is. The gate is open afterwards.
   */
  lemma SettleRule(s: DownloadState, outcome: Settled<Blob>, step: ThenStep, iso: string)
    requires Valid(s) && s.inFlight.Some?
    ensures var (t, fx) := Settle(s, outcome, step, iso);
            && t.downloadingId.None? && t.inFlight.None?
            && ((exists k :: 0 <= k < |fx| && fx[k].SaveBlob?) <==> outcome.Resolved?)
            && ((exists k :: 0 <= k < |fx| && fx[k].DispatchMarkDownloaded?) <==> outcome.Resolved? && !step.SaveThrew?)
            && (outcome.Resolved? ==> fx[0] == SaveBlob(outcome.value, s.inFlight.value.originalName))
            && (outcome.Resolved? && !step.SaveThrew? ==> fx[1] == DispatchMarkDownloaded(s.downloadingId.value, iso))
            && (t.error.None? <==> outcome.Resolved? && step.Completed?)
            && (t.error.Some? ==> t.error == Some(DownloadFailed))
  {
    var (t, fx) := Settle(s, outcome, step, iso);
    if outcome.Resolved? {
      assert fx[0].SaveBlob?;
      if !step.SaveThrew? {
        assert fx[1].DispatchMarkDownloaded?;
      }
    }
  }

  /** Both steps keep `downloadingId` tied to the fetch in flight. */
  lemma StepsKeepValid(s: DownloadState, fileId: int, originalName: string, outcome: Settled<Blob>, step: ThenStep, iso: string)
    requires Valid(s)
    ensures Valid(Start(s, fileId, originalName).0)
    ensures s.inFlight.Some? ==> Valid(Settle(s, outcome, step, iso).0)
  {
  }

  /** The page's download state and what its handlers have handed out. */
  class DownloadController {
    var downloadingId: Option<int>
    var downloadError: Option<string>
    var inFlight: Option<Download>
    var effects: seq<Effect>

    function State(): DownloadState
      reads this
    {
      DownloadState(downloadingId, downloadError, inFlight)
    }

    constructor ()
      ensures State() == Initial && effects == []
    {
      downloadingId, downloadError, inFlight := None, None, None;
      effects := [];
    }

    method HandleDownload(fileId: int, originalName: string)
      modifies this
      ensures var (t, fx) := Start(old(State()), fileId, originalName);
              State() == t && effects == old(effects) + fx
    {
      if downloadingId.Some? {
        return;
      }
      downloadError := None;
      downloadingId := Some(fileId);
      inFlight := Some(Download(fileId, originalName));
      effects := effects + [DownloadFile(fileId)];
    }

    /** The `then`/`catch` callbacks, then `finally`; `step` tells how the `.then` callback ended. */
    method DownloadSettled(outcome: Settled<Blob>, step: ThenStep, iso: string)
      requires inFlight.Some?
      modifies this
      ensures var (t, fx) := Settle(old(State()), outcome, step, iso);
              State() == t && effects == old(effects) + fx
    {
      var d := inFlight.value;
      match outcome {
        case Resolved(blob) =>
          effects := effects + [SaveBlob(blob, d.originalName)];
          if step.SaveThrew? {
            downloadError := Some(DownloadFailed);
          } else {
            effects := effects + [DispatchMarkDownloaded(d.fileId, iso)];
            if step.MarkThrew? {
              downloadError := Some(DownloadFailed);
            }
          }
        case Threw(_) =>
          downloadError := Some(DownloadFailed);
      }
      downloadingId := None;
      inFlight := None;
    }
  }
}
