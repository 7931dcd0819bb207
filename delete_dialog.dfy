/**
 * The delete dialog of `src/pages/FilesPage/FilesPage.tsx`: `openDeleteModal`,
 * `closeDeleteModal`, `handleDeleteConfirm` and the settlement of the
 * `removeFile` dispatch it starts.
 */
module DeleteDialog {
  import opened Types
  import opened PageEffects

  const DeleteFailed: string := "Не удалось удалить файл. Попробуйте ещё раз позже."

  datatype DeleteTarget = DeleteTarget(id: int, name: string)

  /** `isDeleteOpen`, `deleteTarget`, `deleteBusy`, `deleteError`. */
  datatype DeleteState = DeleteState(open: bool, target: Option<DeleteTarget>, busy: bool, error: Option<string>)

  const Initial: DeleteState := DeleteState(false, None, false, None)

  /** The message shown for a failed removal: the rejection's own string `detail`, if it has one. */
  function DeleteErrorMessage(e: Thrown): (m: string)
    ensures (e.ObjectError? && e.detail.Some? && e.detail.value.StringDetail?) ==> m == e.detail.value.text
    ensures !(e.ObjectError? && e.detail.Some? && e.detail.value.StringDetail?) ==> m == DeleteFailed
  {
    match e
    case ObjectError(Some(StringDetail(text))) => text
    case _ => DeleteFailed
  }

  /** `openDeleteModal`: not guarded by the busy flag. */
  function Open(s: DeleteState, fileId: int, fileName: string): DeleteState {
    s.(open := true, target := Some(DeleteTarget(fileId, fileName)), error := None)
  }

  function Close(s: DeleteState): DeleteState {
    if s.busy then s else s.(open := false, target := None, error := None)
  }

  function Confirm(s: DeleteState): (DeleteState, seq<Effect>) {
    if s.target.None? || s.busy then (s, [])
    else (s.(busy := true, error := None), [DispatchRemoveFile(s.target.value.id)])
  }

  /** The `then`/`catch` callbacks of the removal, then `finally`. */
  function Settle(s: DeleteState, outcome: Settled<()>): DeleteState {
    match outcome
    case Resolved(_) => DeleteState(false, None, false, None)
    case Threw(e) => s.(error := Some(DeleteErrorMessage(e)), busy := false)
  }

  /** While busy, closing and confirming change nothing; without a target, confirming changes nothing. */
  lemma BusyGate(s: DeleteState)
    ensures s.busy ==> Close(s) == s && Confirm(s) == (s, [])
    ensures s.target.None? ==> Confirm(s) == (s, [])
  {
  }

  /** A confirmed removal ends idle; success closes the dialog, failure keeps the target and reports. */
  lemma ConfirmRound(s: DeleteState, outcome: Settled<()>)
    requires s.target.Some? && !s.busy
    ensures var (t, fx) := Confirm(s);
            var u := Settle(t, outcome);
            && t.busy && fx == [DispatchRemoveFile(s.target.value.id)]
            && !u.busy
            && (outcome.Resolved? ==> !u.open && u.target.None? && u.error.None?)
            && (outcome.Threw? ==> u.open == s.open && u.target == s.target && u.error == Some(DeleteErrorMessage(outcome.reason)))
  {
  }

  /** The page's delete-dialog state and the dispatches it made. */
  class DeleteController {
    var isDeleteOpen: bool
    var deleteTarget: Option<DeleteTarget>
    var deleteBusy: bool
    var deleteError: Option<string>
    var effects: seq<Effect>

    function State(): DeleteState
      reads this
    {
      DeleteState(isDeleteOpen, deleteTarget, deleteBusy, deleteError)
    }

    constructor ()
      ensures State() == Initial && effects == []
    {
      isDeleteOpen, deleteTarget, deleteBusy, deleteError := false, None, false, None;
      effects := [];
    }

    method OpenDeleteModal(fileId: int, fileName: string)
      modifies this`isDeleteOpen, this`deleteTarget, this`deleteError
      ensures State() == Open(old(State()), fileId, fileName)
    {
      deleteError := None;
      deleteTarget := Some(DeleteTarget(fileId, fileName));
      isDeleteOpen := true;
    }

    method CloseDeleteModal()
      modifies this`isDeleteOpen, this`deleteTarget, this`deleteError
      ensures State() == Close(old(State()))
    {
      if deleteBusy {
        return;
      }
      isDeleteOpen := false;
      deleteTarget := None;
      deleteError := None;
    }

    method HandleDeleteConfirm()
      modifies this`deleteBusy, this`deleteError, this`effects
      ensures var (t, fx) := Confirm(old(State()));
              State() == t && effects == old(effects) + fx
    {
      if deleteTarget.None? || deleteBusy {
        return;
      }
      deleteBusy := true;
      deleteError := None;
      effects := effects + [DispatchRemoveFile(deleteTarget.value.id)];
    }

    /** The removal started by `HandleDeleteConfirm` settled. */
    method DeleteSettled(outcome: Settled<()>)
      requires deleteBusy
      modifies this`isDeleteOpen, this`deleteTarget, this`deleteBusy, this`deleteError
      ensures State() == Settle(old(State()), outcome)
    {
      match outcome {
        case Resolved(_) =>
          isDeleteOpen := false;
          deleteTarget := None;
          deleteError := None;
        case Threw(e) =>
          deleteError := Some(DeleteErrorMessage(e));
      }
      deleteBusy := false;
    }
  }
}
