/**
 * The edit dialog of `src/pages/FilesPage/FilesPage.tsx`: `handleEditOpen`,
 * `handleEditClose`, the two field setters and `handleEditSubmit`, whose
 * rename and comment calls are settled one at a time in either order.
 * `normalize` stands for the imported `normalizeCommentForApi` and
 * `toMessage` for `errorToMessage`; their bodies are not part of this model.
 */
module EditDialog {
  import opened Types
  import opened JsString
  import opened PageEffects

  const RenameFailed: string := "Не удалось переименовать файл."
  const CommentFailed: string := "Не удалось обновить комментарий."

  /** A submission in flight: which calls have not settled, and the `errors` array they push onto. */
  datatype EditJob = EditJob(fileId: int, renamePending: bool, commentPending: bool, collected: seq<string>)

  /** `editingFile`, `editName`, `editComment`, `editBusy`, `editErrors`, and the submission in flight. */
  datatype EditState = EditState(
    editing: Option<FileDTO>,
    name: string,
    comment: string,
    busy: bool,
    errors: seq<string>,
    job: Option<EditJob>)

  const Initial: EditState := EditState(None, "", "", false, [], None)

  /** The busy flag is up exactly while a submission has a call that has not settled. */
  predicate Valid(s: EditState) {
    && (s.busy <==> s.job.Some?)
    && (s.job.Some? ==> s.job.value.renamePending || s.job.value.commentPending)
  }

  function Open(s: EditState, f: FileDTO): EditState {
    s.(errors := [], editing := Some(f), name := f.original_name, comment := f.comment.OrElse(""))
  }

  function Close(s: EditState): EditState {
    if s.busy then s else s.(editing := None, errors := [])
  }

  function SetName(s: EditState, v: string): EditState {
    s.(name := v)
  }

  function SetComment(s: EditState, v: string): EditState {
    s.(comment := v)
  }

  /** The change detector: the trimmed name and the normalised comment, compared with the file's. */
  datatype EditPlan = EditPlan(newName: string, newComment: Option<string>, nameChanged: bool, commentChanged: bool)

  function PlanFor(f: FileDTO, name: string, comment: string, normalize: string -> Option<string>): EditPlan {
    var newName := Trim(name);
    var newComment := normalize(comment);
    EditPlan(newName, newComment, newName != f.original_name, newComment != f.comment)
  }

  /** The remote calls a plan makes, rename first. */
  function Calls(fileId: int, p: EditPlan): seq<Effect> {
    (if p.nameChanged then [PatchRename(fileId, p.newName)] else [])
    + (if p.commentChanged then [PatchComment(fileId, p.newComment)] else [])
  }

  function Submit(s: EditState, normalize: string -> Option<string>): (EditState, seq<Effect>) {
    if s.editing.None? || s.busy then (s, [])
    else
      var f := s.editing.value;
      var p := PlanFor(f, s.name, s.comment, normalize);
      if !p.nameChanged && !p.commentChanged then (Close(s), [])
      else (s.(busy := true, errors := [], job := Some(EditJob(f.id, p.nameChanged, p.commentChanged, []))),
            Calls(f.id, p))
  }

  /** `Promise.allSettled(ops).then(…).finally(…)`, once no call is pending. */
  function Finish(s: EditState): EditState
    requires s.job.Some?
  {
    var j := s.job.value;
    if j.renamePending || j.commentPending then s
    else
      var t := if |j.collected| > 0 then s.(errors := j.collected) else s.(editing := None, errors := []);
      t.(busy := false, job := None)
  }

  /** The rename call settled. */
  function SettleRename(s: EditState, outcome: Settled<FileDTO>, toMessage: (Thrown, string) -> string): (EditState, seq<Effect>)
    requires s.job.Some? && s.job.value.renamePending
  {
    var j := s.job.value;
    match outcome
    case Resolved(res) =>
      (Finish(s.(job := Some(j.(renamePending := false)))), [DispatchUpdateName(j.fileId, res.original_name)])
    case Threw(e) =>
      (Finish(s.(job := Some(j.(renamePending := false, collected := j.collected + [toMessage(e, RenameFailed)])))), [])
  }

  /** The comment call settled. */
  function SettleComment(s: EditState, outcome: Settled<FileDTO>, toMessage: (Thrown, string) -> string): (EditState, seq<Effect>)
    requires s.job.Some? && s.job.value.commentPending
  {
    var j := s.job.value;
    match outcome
    case Resolved(res) =>
      (Finish(s.(job := Some(j.(commentPending := false)))), [DispatchUpdateComment(j.fileId, res.comment)])
    case Threw(e) =>
      (Finish(s.(job := Some(j.(commentPending := false, collected := j.collected + [toMessage(e, CommentFailed)])))), [])
  }

  /** Nothing is editable, or a submission is in flight: submit does nothing. */
  lemma SubmitIgnored(s: EditState, normalize: string -> Option<string>)
    requires s.editing.None? || s.busy
    ensures Submit(s, normalize) == (s, [])
  {
  }

  /** Neither the trimmed name nor the normalised comment differs: no remote call, and the editor closes. */
  lemma SubmitUnchanged(s: EditState, normalize: string -> Option<string>)
    requires s.editing.Some? && !s.busy
    requires Trim(s.name) == s.editing.value.original_name && normalize(s.comment) == s.editing.value.comment
    ensures var (t, fx) := Submit(s, normalize);
            fx == [] && t.editing.None? && t.errors == [] && !t.busy
  {
  }

  /** Otherwise one rename call with the trimmed name iff the name changed, one comment call iff the comment changed. */
  lemma SubmitCalls(s: EditState, normalize: string -> Option<string>)
    requires s.editing.Some? && !s.busy
    ensures var (t, fx) := Submit(s, normalize);
            var f := s.editing.value;
            var nameChanged := Trim(s.name) != f.original_name;
            var commentChanged := normalize(s.comment) != f.comment;
            && |fx| == (if nameChanged then 1 else 0) + (if commentChanged then 1 else 0)
            && (PatchRename(f.id, Trim(s.name)) in fx <==> nameChanged)
            && (PatchComment(f.id, normalize(s.comment)) in fx <==> commentChanged)
            && (forall e :: e in fx ==> e == PatchRename(f.id, Trim(s.name)) || e == PatchComment(f.id, normalize(s.comment)))
            && (t.busy <==> |fx| > 0)
  {
  }

  /** Settle the rename call if it is still pending. */
  function SettleRenameIf(s: EditState, outcome: Settled<FileDTO>, toMessage: (Thrown, string) -> string): (EditState, seq<Effect>) {
    if s.job.Some? && s.job.value.renamePending then SettleRename(s, outcome, toMessage) else (s, [])
  }

  function SettleCommentIf(s: EditState, outcome: Settled<FileDTO>, toMessage: (Thrown, string) -> string): (EditState, seq<Effect>) {
    if s.job.Some? && s.job.value.commentPending then SettleComment(s, outcome, toMessage) else (s, [])
  }

  /**
   * A submission followed by the settlement of every call it made, rename
   * first or comment first: the final state, and the calls and dispatches in
   * the order they were made.
   */
  function Round(s: EditState, normalize: string -> Option<string>, toMessage: (Thrown, string) -> string,
                 rename: Settled<FileDTO>, comment: Settled<FileDTO>, renameFirst: bool): (EditState, seq<Effect>)
  {
    var (t, calls) := Submit(s, normalize);
    if renameFirst then
      var (t1, fx1) := SettleRenameIf(t, rename, toMessage);
      var (t2, fx2) := SettleCommentIf(t1, comment, toMessage);
      (t2, calls + fx1 + fx2)
    else
      var (t1, fx1) := SettleCommentIf(t, comment, toMessage);
      var (t2, fx2) := SettleRenameIf(t1, rename, toMessage);
      (t2, calls + fx1 + fx2)
  }

  /**
   * Whatever the order of settlement: the editor is no longer busy, it
   * closed exactly when no call failed, and it holds one error per failed call.
   */
  lemma RoundOutcome(s: EditState, normalize: string -> Option<string>, toMessage: (Thrown, string) -> string,
                     rename: Settled<FileDTO>, comment: Settled<FileDTO>, renameFirst: bool)
    requires Valid(s) && s.editing.Some? && !s.busy
    ensures var p := PlanFor(s.editing.value, s.name, s.comment, normalize);
            var failures := (if p.nameChanged && rename.Threw? then 1 else 0)
                            + (if p.commentChanged && comment.Threw? then 1 else 0);
            var u := Round(s, normalize, toMessage, rename, comment, renameFirst).0;
            && !u.busy && u.job.None?
            && |u.errors| == failures
            && (u.editing.None? <==> failures == 0)
            && (failures > 0 ==> u.editing == s.editing)
  {
    var p := PlanFor(s.editing.value, s.name, s.comment, normalize);
    var t := Submit(s, normalize).0;
    if p.nameChanged || p.commentChanged {
      assert t == s.(busy := true, errors := [], job := Some(EditJob(s.editing.value.id, p.nameChanged, p.commentChanged, [])));
      if renameFirst {
        RenameThenComment(t, toMessage, rename, comment);
      } else {
        CommentThenRename(t, toMessage, rename, comment);
      }
    }
  }

  /** The settlements of a fresh submission, rename first. */
  lemma RenameThenComment(t: EditState, toMessage: (Thrown, string) -> string, rename: Settled<FileDTO>, comment: Settled<FileDTO>)
    requires t.editing.Some? && t.job.Some? && t.job.value.collected == []
    requires t.job.value.renamePending || t.job.value.commentPending
    ensures var j := t.job.value;
            var failures := (if j.renamePending && rename.Threw? then 1 else 0)
                            + (if j.commentPending && comment.Threw? then 1 else 0);
            var u := SettleCommentIf(SettleRenameIf(t, rename, toMessage).0, comment, toMessage).0;
            && !u.busy && u.job.None?
            && |u.errors| == failures
            && (u.editing.None? <==> failures == 0)
            && (failures > 0 ==> u.editing == t.editing)
  {
    var j := t.job.value;
    if j.renamePending && j.commentPending {
      var t1 := SettleRenameIf(t, rename, toMessage).0;
      assert t1.editing == t.editing && t1.job.Some? && t1.job.value.commentPending;
      assert t1.job.value == j.(renamePending := false, collected := if rename.Threw? then [toMessage(rename.reason, RenameFailed)] else []);
    }
  }

  /** The settlements of a fresh submission, comment first. */
  lemma CommentThenRename(t: EditState, toMessage: (Thrown, string) -> string, rename: Settled<FileDTO>, comment: Settled<FileDTO>)
    requires t.editing.Some? && t.job.Some? && t.job.value.collected == []
    requires t.job.value.renamePending || t.job.value.commentPending
    ensures var j := t.job.value;
            var failures := (if j.renamePending && rename.Threw? then 1 else 0)
                            + (if j.commentPending && comment.Threw? then 1 else 0);
            var u := SettleRenameIf(SettleCommentIf(t, comment, toMessage).0, rename, toMessage).0;
            && !u.busy && u.job.None?
            && |u.errors| == failures
            && (u.editing.None? <==> failures == 0)
            && (failures > 0 ==> u.editing == t.editing)
  {
    var j := t.job.value;
    if j.renamePending && j.commentPending {
      var t1 := SettleCommentIf(t, comment, toMessage).0;
      assert t1.editing == t.editing && t1.job.Some? && t1.job.value.renamePending;
      assert t1.job.value == j.(commentPending := false, collected := if comment.Threw? then [toMessage(comment.reason, CommentFailed)] else []);
    }
  }

  /**
   * A settlement keeps the file id and the other call's pending flag, and
   * dispatches the server's new name (or comment) exactly when the call was
   * pending and resolved.
   */
  lemma SettleEffects(t: EditState, toMessage: (Thrown, string) -> string, outcome: Settled<FileDTO>)
    requires t.job.Some?
    ensures var (t1, fx) := SettleRenameIf(t, outcome, toMessage);
            && fx == (if t.job.value.renamePending && outcome.Resolved?
                      then [DispatchUpdateName(t.job.value.fileId, outcome.value.original_name)] else [])
            && (t1.job.Some? ==> t1.job.value.fileId == t.job.value.fileId
                                 && t1.job.value.commentPending == t.job.value.commentPending)
            && (t1.job.None? ==> !t.job.value.commentPending)
    ensures var (t1, fx) := SettleCommentIf(t, outcome, toMessage);
            && fx == (if t.job.value.commentPending && outcome.Resolved?
                      then [DispatchUpdateComment(t.job.value.fileId, outcome.value.comment)] else [])
            && (t1.job.Some? ==> t1.job.value.fileId == t.job.value.fileId
                                 && t1.job.value.renamePending == t.job.value.renamePending)
            && (t1.job.None? ==> !t.job.value.renamePending)
  {
  }

  /**
   * Partial success: in either settlement order, the store is told the
   * server's new name exactly when the rename call was made and resolved, and
   * the server's new comment exactly when the comment call was made and
   * resolved; a failed call dispatches nothing.
   */
  lemma RoundDispatches(s: EditState, normalize: string -> Option<string>, toMessage: (Thrown, string) -> string,
                        rename: Settled<FileDTO>, comment: Settled<FileDTO>, renameFirst: bool)
    requires Valid(s) && s.editing.Some? && !s.busy
    ensures var p := PlanFor(s.editing.value, s.name, s.comment, normalize);
            var id := s.editing.value.id;
            var fx := Round(s, normalize, toMessage, rename, comment, renameFirst).1;
            && (p.nameChanged && rename.Resolved? ==> DispatchUpdateName(id, rename.value.original_name) in fx)
            && (forall e :: e in fx && e.DispatchUpdateName? ==>
                  p.nameChanged && rename.Resolved? && e == DispatchUpdateName(id, rename.value.original_name))
            && (p.commentChanged && comment.Resolved? ==> DispatchUpdateComment(id, comment.value.comment) in fx)
            && (forall e :: e in fx && e.DispatchUpdateComment? ==>
                  p.commentChanged && comment.Resolved? && e == DispatchUpdateComment(id, comment.value.comment))
  {
    var f := s.editing.value;
    var p := PlanFor(f, s.name, s.comment, normalize);
    var (t, calls) := Submit(s, normalize);
    assert calls == Calls(f.id, p);
    assert forall e :: e in calls ==> e.PatchRename? || e.PatchComment?;
    if p.nameChanged || p.commentChanged {
      assert t.job == Some(EditJob(f.id, p.nameChanged, p.commentChanged, []));
      if renameFirst {
        var (t1, fx1) := SettleRenameIf(t, rename, toMessage);
        SettleEffects(t, toMessage, rename);
        if t1.job.Some? {
          SettleEffects(t1, toMessage, comment);
        }
      } else {
        var (t1, fx1) := SettleCommentIf(t, comment, toMessage);
        SettleEffects(t, toMessage, comment);
        if t1.job.Some? {
          SettleEffects(t1, toMessage, rename);
        }
      }
    }
  }

  /** Every step keeps the busy flag tied to a pending call. */
  lemma StepsKeepValid(s: EditState, f: FileDTO, v: string, normalize: string -> Option<string>,
                       toMessage: (Thrown, string) -> string, outcome: Settled<FileDTO>)
    requires Valid(s)
    ensures Valid(Open(s, f)) && Valid(Close(s)) && Valid(SetName(s, v)) && Valid(SetComment(s, v))
    ensures Valid(Submit(s, normalize).0)
    ensures s.job.Some? && s.job.value.renamePending ==> Valid(SettleRename(s, outcome, toMessage).0)
    ensures s.job.Some? && s.job.value.commentPending ==> Valid(SettleComment(s, outcome, toMessage).0)
  {
  }

  /** The page's edit-dialog state, the submission in flight, and what the handlers handed out. */
  class EditController {
    var editingFile: Option<FileDTO>
    var editName: string
    var editComment: string
    var editBusy: bool
    var editErrors: seq<string>
    var job: Option<EditJob>
    var effects: seq<Effect>
    const normalize: string -> Option<string>
    const toMessage: (Thrown, string) -> string

    function State(): EditState
      reads this
    {
      EditState(editingFile, editName, editComment, editBusy, editErrors, job)
    }

    constructor (normalize: string -> Option<string>, toMessage: (Thrown, string) -> string)
      ensures State() == Initial && effects == []
      ensures this.normalize == normalize && this.toMessage == toMessage
    {
      editingFile, editName, editComment, editBusy, editErrors, job := None, "", "", false, [], None;
      effects := [];
      this.normalize := normalize;
      this.toMessage := toMessage;
    }

    method HandleEditOpen(f: FileDTO)
      modifies this`editErrors, this`editingFile, this`editName, this`editComment
      ensures State() == Open(old(State()), f)
    {
      editErrors := [];
      editingFile := Some(f);
      editName := f.original_name;
      editComment := f.comment.OrElse("");
    }

    method HandleEditClose()
      modifies this`editingFile, this`editErrors
      ensures State() == Close(old(State()))
    {
      if editBusy {
        return;
      }
      editingFile := None;
      editErrors := [];
    }

    method SetEditName(v: string)
      modifies this`editName
      ensures State() == SetName(old(State()), v)
    {
      editName := v;
    }

    method SetEditComment(v: string)
      modifies this`editComment
      ensures State() == SetComment(old(State()), v)
    {
      editComment := v;
    }

    method HandleEditSubmit()
      modifies this
      ensures State() == Submit(old(State()), normalize).0
      ensures effects == old(effects) + Submit(old(State()), normalize).1
    {
      if editingFile.None? || editBusy {
        return;
      }
      var f := editingFile.value;
      var p := PlanFor(f, editName, editComment, normalize);
      if !p.nameChanged && !p.commentChanged {
        HandleEditClose();
        return;
      }
      editBusy := true;
      editErrors := [];
      job := Some(EditJob(f.id, p.nameChanged, p.commentChanged, []));
      var ops: seq<Effect> := [];
      if p.nameChanged {
        ops := ops + [PatchRename(f.id, p.newName)];
      }
      if p.commentChanged {
        ops := ops + [PatchComment(f.id, p.newComment)];
      }
      effects := effects + ops;
    }

    /** The aggregation step, run when the last pending call has settled. */
    method FinishIfSettled()
      requires job.Some?
      modifies this`editingFile, this`editErrors, this`editBusy, this`job
      ensures State() == Finish(old(State()))
    {
      var j := job.value;
      if j.renamePending || j.commentPending {
        return;
      }
      if |j.collected| > 0 {
        editErrors := j.collected;
      } else {
        editingFile := None;
        editErrors := [];
      }
      editBusy := false;
      job := None;
    }

    method RenameSettled(outcome: Settled<FileDTO>)
      requires job.Some? && job.value.renamePending
      modifies this
      ensures var (t, fx) := SettleRename(old(State()), outcome, toMessage);
              State() == t && effects == old(effects) + fx
    {
      var j := job.value;
      match outcome {
        case Resolved(res) =>
          effects := effects + [DispatchUpdateName(j.fileId, res.original_name)];
          job := Some(j.(renamePending := false));
        case Threw(e) =>
          job := Some(j.(renamePending := false, collected := j.collected + [toMessage(e, RenameFailed)]));
      }
      FinishIfSettled();
    }

    method CommentSettled(outcome: Settled<FileDTO>)
      requires job.Some? && job.value.commentPending
      modifies this
      ensures var (t, fx) := SettleComment(old(State()), outcome, toMessage);
              State() == t && effects == old(effects) + fx
    {
      var j := job.value;
      match outcome {
        case Resolved(res) =>
          effects := effects + [DispatchUpdateComment(j.fileId, res.comment)];
          job := Some(j.(commentPending := false));
        case Threw(e) =>
          job := Some(j.(commentPending := false, collected := j.collected + [toMessage(e, CommentFailed)]));
      }
      FinishIfSettled();
    }
  }
}
