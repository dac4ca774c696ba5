/** The `useVideoError` hook (`Organisms/CustomVideo/hooks/useVideoError.ts`):
    an error flag and a retry counter that advances each time an error is
    cleared, used to remount the native player. */
module VideoError {
  datatype ErrorState = ErrorState(hasError: bool, retryKey: nat)

  /** The hook on mount: no error, key zero. */
  const Initial: ErrorState := ErrorState(false, 0)

  /** `handleError`: raises the flag; the key is untouched. */
  function HandleError(e: ErrorState): (e': ErrorState)
    ensures e'.hasError && e'.retryKey == e.retryKey
  {
    ErrorState(true, e.retryKey)
  }

  /** `resetError`: clears the flag, advancing the key only when it was set. */
  function ResetError(e: ErrorState): (e': ErrorState)
    ensures !e'.hasError
    ensures e'.retryKey == if e.hasError then e.retryKey + 1 else e.retryKey
  {
    if e.hasError then ErrorState(false, e.retryKey + 1) else ErrorState(false, e.retryKey)
  }

  /** Resetting twice is resetting once: a second reset finds no error. */
  lemma ResetIdempotent(e: ErrorState)
    ensures ResetError(ResetError(e)) == ResetError(e)
  {
  }

  /** Events the hook reacts to. */
  datatype Event = Failed | Reset

  function Apply(e: ErrorState, ev: Event): ErrorState {
    match ev
    case Failed => HandleError(e)
    case Reset => ResetError(e)
  }

  function Run(e: ErrorState, evs: seq<Event>): ErrorState
    decreases |evs|
  {
    if evs == [] then e else Run(Apply(e, evs[0]), evs[1..])
  }

  /** The number of resets in `evs` that find the flag set, starting from `e`. */
  function EffectiveResets(e: ErrorState, evs: seq<Event>): nat
    decreases |evs|
  {
    if evs == [] then 0
    else (if evs[0] == Reset && e.hasError then 1 else 0) + EffectiveResets(Apply(e, evs[0]), evs[1..])
  }

  /** The retry key counts exactly the resets that cleared an error, so it
      never goes down and changes only when a remount is wanted. */
  lemma {:induction false} RetryKeyCountsClearedErrors(e: ErrorState, evs: seq<Event>)
    ensures Run(e, evs).retryKey == e.retryKey + EffectiveResets(e, evs)
    decreases |evs|
  {
    if evs != [] {
      RetryKeyCountsClearedErrors(Apply(e, evs[0]), evs[1..]);
    }
  }
}
