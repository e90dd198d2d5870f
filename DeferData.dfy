/** The deferred-result handler (`useDeferData`): every change of the
    loader data's identity starts an attempt to resolve it deeply; the
    attempt first clears `isError`, and when it settles a resolved value
    replaces `data`, while a rejection leaves `data` alone and raises
    `isError` unless it is the framework's "Deferred data aborted" error. */
module DeferData {
  import opened Common

  /** The text a superseded deferred value is rejected with. */
  const AbortMessage: string := "Deferred data aborted"

  /** How one resolution attempt ends: `deepAwaited(loaderData)` resolves to
      a value or throws. */
  datatype Resolution<V> = Resolved(value: V) | Rejected(thrown: Thrown)

  /** `error instanceof Error && error.message.includes('Deferred data aborted')`. */
  predicate IsAborted(thrown: Thrown)
    ensures IsAborted(thrown) ==> thrown.ErrorInstance? && |AbortMessage| <= |thrown.message|
  {
    thrown.ErrorInstance? && Includes(thrown.message, AbortMessage)
  }

  /** The marker counts wherever it stands in the message. */
  lemma AbortedAnywhere(before: string, after: string)
    ensures IsAborted(ErrorInstance(before + AbortMessage + after))
  {
    IncludesAnywhere(before, AbortMessage, after);
  }

  /** A thrown value that is not an `Error` is never an abort. */
  lemma NonErrorIsNotAborted()
    ensures !IsAborted(NonError)
  {
  }

  /** A message shorter than the marker cannot contain it. */
  lemma ShortMessageIsNotAborted(message: string)
    requires |message| < |AbortMessage|
    ensures !IsAborted(ErrorInstance(message))
  {
  }

  datatype State<V> = State(data: Option<V>, isError: bool)

  /** `useState(undefined)` and `useState(false)`. */
  function Initial<V>(): State<V> {
    State(None, false)
  }

  /** What `setIsError(false)` at the start of an attempt leaves. */
  function Start<V>(s: State<V>): (t: State<V>)
    ensures t.data == s.data && !t.isError
  {
    State(s.data, false)
  }

  /** What the settlement of an attempt leaves. */
  function Settle<V>(s: State<V>, r: Resolution<V>): (t: State<V>)
    ensures r.Resolved? ==> t == State(Some(r.value), s.isError)
    ensures r.Rejected? ==> t.data == s.data && (t.isError <==> !IsAborted(r.thrown))
  {
    match r
    case Resolved(v) => State(Some(v), s.isError)
    case Rejected(thrown) => State(s.data, !IsAborted(thrown))
  }

  /** A whole attempt, started and settled with nothing in between. */
  function Attempt<V>(s: State<V>, r: Resolution<V>): State<V> {
    Settle(Start(s), r)
  }

  /** A successful attempt stores its value and leaves no error. */
  lemma ResolvedAttempt<V>(s: State<V>, v: V)
    ensures Attempt(s, Resolved(v)) == State(Some(v), false)
  {
  }

  /** A failed attempt keeps the previous value: stale but valid. */
  lemma RejectedAttemptKeepsData<V>(s: State<V>, thrown: Thrown)
    ensures Attempt(s, Rejected(thrown)).data == s.data
    ensures Attempt(s, Rejected(thrown)).isError <==> !IsAborted(thrown)
  {
  }

  /** From the initial state an aborted attempt leaves no data and no error;
      after a resolved attempt, a failure with another message keeps the
      value and raises the error. */
  lemma CancellationVersusError<V>(v: V, otherMessage: string)
    requires !Includes(otherMessage, AbortMessage)
    ensures Attempt(Initial<V>(), Rejected(ErrorInstance(AbortMessage + ": key"))) == Initial<V>()
    ensures Attempt(Attempt(Initial<V>(), Resolved(v)), Rejected(ErrorInstance(otherMessage))) == State(Some(v), true)
  {
    AbortedAnywhere("", ": key");
    assert "" + AbortMessage + ": key" == AbortMessage + ": key";
  }

  /** The state of one `useDeferData` instance. `L` is the type of the
      loader data, whose identity keys the effect; `V` is the type of its
      resolved form. */
  class DeferredResolver<L, V> {
    var data: Option<V>
    var isError: bool
    var mounted: bool
    var lastLoaderData: Ref?<L>
    /** The attempts started and not yet settled. */
    ghost var pending: nat

    function Current(): State<V>
      reads this
    {
      State(data, isError)
    }

    constructor ()
      ensures Current() == Initial<V>() && !mounted && pending == 0
    {
      data, isError := None, false;
      pending := 0;
      mounted, lastLoaderData := false, null;
    }

    /** One render with the current loader data: `handleGetData` is rebuilt,
        and the effect calls it, exactly when the loader data's identity
        changed (and on mount). The call clears `isError` right away; its
        settlement arrives later through `Settled`. */
    method Render(loaderData: Ref<L>) returns (started: bool)
      modifies this
      ensures started <==> !old(mounted) || loaderData != old(lastLoaderData)
      ensures Current() == if started then Start(old(Current())) else old(Current())
      ensures mounted && lastLoaderData == loaderData
      ensures pending == old(pending) + (if started then 1 else 0)
    {
      started := !mounted || loaderData != lastLoaderData;
      if started {
        isError := false;
        pending := pending + 1;
      }
      mounted, lastLoaderData := true, loaderData;
    }

    /** The settlement of an attempt that was started and has not settled
        yet. No attempt is ever cancelled and none is checked against a
        newer one: whichever settles last decides. */
    method Settled(r: Resolution<V>)
      requires pending > 0
      modifies this`data, this`isError, this`pending
      ensures Current() == Settle(old(Current()), r)
      ensures pending == old(pending) - 1
    {
      pending := pending - 1;
      match r {
        case Resolved(v) =>
          data := Some(v);
        case Rejected(thrown) =>
          var isAborted := thrown.ErrorInstance? && Includes(thrown.message, AbortMessage);
          isError := if isAborted then false else true;
      }
    }
  }
}
