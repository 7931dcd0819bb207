/**
 * `src/features/files/filesSlice.ts`: the cached file list and the status of
 * its last fetch. `Reduce` is the specification of the slice's reducer; the
 * class `FilesStore` is the slice state that the reducer cases update field by
 * field.
 */
module FilesSlice {
  import opened Types
  import Rejection
  import FilesApi

  datatype FilesState = FilesState(items: seq<FileDTO>, status: Status, error: Option<string>)

  const InitialState: FilesState := FilesState([], Idle, None)

  const DefaultError: string := "Failed to load files"

  /** The argument of `fetchFiles`: nothing, an object without `userId`, or one with it (possibly undefined). */
  datatype FetchArg = NoArg | EmptyObject | WithUserId(userId: Option<int>)

  /** `arg && 'userId' in arg ? arg.userId : undefined`. */
  function ForwardedUserId(arg: FetchArg): (u: Option<int>)
    ensures u.Some? ==> arg == WithUserId(u)
    ensures arg.WithUserId? ==> u == arg.userId
  {
    if arg.WithUserId? then arg.userId else None
  }

  /** The listing request the thunk issues for `arg`. */
  function FetchFilesRequest(arg: FetchArg): (r: FilesApi.ListRequest)
    ensures r.path == FilesApi.ListPath
    ensures r.userIdParam.Some? <==> arg.WithUserId? && arg.userId.Some? && arg.userId.value != 0
  {
    FilesApi.GetFilesRequest(ForwardedUserId(arg))
  }

  /** The three life-cycle actions of `fetchFiles`. */
  datatype FetchAction = Pending | Fulfilled(payload: seq<FileDTO>) | Rejected(rejection: Option<RejectedPayload>)

  /** The action the thunk settles with, given how the listing request ended. */
  function FetchFilesSettled(outcome: Settled<seq<FileDTO>>): (a: FetchAction)
    ensures a.Pending? == false
    ensures outcome.Resolved? <==> a.Fulfilled?
    ensures outcome.Resolved? ==> a.payload == outcome.value
    ensures outcome.Threw? ==> a.Rejected? && a.rejection == Some(Rejection.ToRejectedPayload(outcome.reason, DefaultError))
  {
    match outcome
    case Resolved(files) => Fulfilled(files)
    case Threw(err) => Rejected(Some(Rejection.ToRejectedPayload(err, DefaultError)))
  }

  /** The reducer. */
  function Reduce(s: FilesState, a: FetchAction): FilesState {
    match a
    case Pending => s.(status := Loading, error := None)
    case Fulfilled(payload) => FilesState(payload, Succeeded, None)
    case Rejected(payload) =>
      s.(status := Failed, error := Some(if payload.Some? then payload.value.detail else DefaultError))
  }

  /** The state after the actions `acts`, in order. */
  function ReduceAll(s: FilesState, acts: seq<FetchAction>): FilesState
    decreases |acts|
  {
    if acts == [] then s else Reduce(ReduceAll(s, acts[..|acts| - 1]), acts[|acts| - 1])
  }

  /** An error message is present exactly when the last fetch failed. */
  predicate Consistent(s: FilesState) {
    s.error.Some? <==> s.status == Failed
  }

  /** Whatever the prior state, every action leaves a consistent one. */
  lemma ActionEstablishesConsistency(s: FilesState, a: FetchAction)
    ensures Consistent(Reduce(s, a))
  {
  }

  /** After any sequence of actions from the initial state, error is set exactly when status is failed. */
  lemma {:induction false} ConsistentAfterAnySequence(acts: seq<FetchAction>)
    ensures Consistent(ReduceAll(InitialState, acts))
  {
    if acts != [] {
      ActionEstablishesConsistency(ReduceAll(InitialState, acts[..|acts| - 1]), acts[|acts| - 1]);
    }
  }

  /** The payload of the last fulfilled action in `acts`, if there is one. */
  function LastFulfilled(acts: seq<FetchAction>): Option<seq<FileDTO>>
    decreases |acts|
  {
    if acts == [] then None
    else if acts[|acts| - 1].Fulfilled? then Some(acts[|acts| - 1].payload)
    else LastFulfilled(acts[..|acts| - 1])
  }

  /**
   * Last resolved wins: the items are the payload of the last fulfilled
   * action, whatever pending or rejected actions surround it; without one they
   * are what they were.
   */
  lemma {:induction false} ItemsAreLastFulfilled(s: FilesState, acts: seq<FetchAction>)
    ensures ReduceAll(s, acts).items == LastFulfilled(acts).OrElse(s.items)
  {
    if acts != [] {
      ItemsAreLastFulfilled(s, acts[..|acts| - 1]);
    }
  }

  /** From the initial state, items are the last fulfilled payload, or empty. */
  lemma ItemsFromInitialState(acts: seq<FetchAction>)
    ensures ReduceAll(InitialState, acts).items == LastFulfilled(acts).OrElse([])
  {
    ItemsAreLastFulfilled(InitialState, acts);
  }

  /**
   * One complete fetch: pending, then the settled action. Success replaces the
   * items with the response in its order; failure keeps them and shows the
   * server's detail or the default message.
   */
  lemma FetchRound(s: FilesState, outcome: Settled<seq<FileDTO>>)
    ensures var t := Reduce(Reduce(s, Pending), FetchFilesSettled(outcome));
            && (outcome.Resolved? ==> t == FilesState(outcome.value, Succeeded, None))
            && (outcome.Threw? ==> t.items == s.items && t.status == Failed
                                   && t.error == Some(Rejection.ToRejectedPayload(outcome.reason, DefaultError).detail))
  {
  }

  /** The slice state, updated in place by the reducer cases. */
  class FilesStore {
    var items: seq<FileDTO>
    var status: Status
    var error: Option<string>

    function State(): FilesState
      reads this
    {
      FilesState(items, status, error)
    }

    /** `initialState`. */
    constructor ()
      ensures State() == InitialState
    {
      items, status, error := [], Idle, None;
    }

    /** `fetchFiles.pending`: loading, no error, items as they were. */
    method Pending()
      modifies this
      ensures items == old(items) && status == Loading && error == None
      ensures State() == Reduce(old(State()), FetchAction.Pending)
    {
      status := Loading;
      error := None;
    }

    /** `fetchFiles.fulfilled`: the payload replaces the items wholesale. */
    method Fulfilled(payload: seq<FileDTO>)
      modifies this
      ensures items == payload && status == Succeeded && error == None
      ensures State() == Reduce(old(State()), FetchAction.Fulfilled(payload))
    {
      status := Succeeded;
      items := payload;
      error := None;
    }

    /** `fetchFiles.rejected`: failed, with the payload's detail or the default message; items kept. */
    method Rejected(rejection: Option<RejectedPayload>)
      modifies this
      ensures items == old(items) && status == Failed
      ensures error == Some(if rejection.Some? then rejection.value.detail else DefaultError)
      ensures State() == Reduce(old(State()), FetchAction.Rejected(rejection))
    {
      status := Failed;
      error := Some(if rejection.Some? then rejection.value.detail else DefaultError);
    }

    /** The slice reducer: one action, routed to its case. */
    method Apply(a: FetchAction)
      modifies this
      ensures State() == Reduce(old(State()), a)
    {
      match a
      case Pending => Pending();
      case Fulfilled(payload) => Fulfilled(payload);
      case Rejected(payload) => Rejected(payload);
    }
  }
}
