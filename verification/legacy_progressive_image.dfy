/** The older progressive-image hook (`hooks/useProgressiveImage.ts`): a
    loading flag and an error flag, reset whenever the image reference
    changes. The thumbnail-loaded and full-loaded flags it also keeps are
    never read and are not modelled. The thumbnail it returns is computed as
    in `ProgressiveImage.ThumbUri`. */
module LegacyProgressiveImage {
  import opened Base

  datatype Loading = Loading(isLoading: bool, hasError: bool)

  /** The hook on mount, and after the reset effect for a new `uri`. */
  const Initial: Loading := Loading(true, false)

  /** The states the hook can be in: never loading and failed at once. */
  predicate Valid(l: Loading) {
    !(l.isLoading && l.hasError)
  }

  function OnLoad(l: Loading): (l': Loading)
    ensures !l'.isLoading && !l'.hasError
  {
    Loading(false, false)
  }

  function OnError(l: Loading): (l': Loading)
    ensures !l'.isLoading && l'.hasError
  {
    Loading(false, true)
  }

  /** The reset effect on `[uri]` (run on mount and on every change). */
  function OnUriChange(l: Loading): (l': Loading)
    ensures l'.isLoading && !l'.hasError
  {
    Initial
  }

  datatype Event = Loaded | Failed | UriChanged

  function Step(l: Loading, e: Event): Loading {
    match e
    case Loaded => OnLoad(l)
    case Failed => OnError(l)
    case UriChanged => OnUriChange(l)
  }

  function Run(l: Loading, es: seq<Event>): Loading
    decreases |es|
  {
    if es == [] then l else Run(Step(l, es[0]), es[1..])
  }

  /** Every reachable state is valid, and after a URI change the hook is
      loading again until the next load or error. */
  lemma {:induction false} RunStaysValid(es: seq<Event>)
    ensures Valid(Run(Initial, es))
    ensures es != [] && es[|es| - 1] == UriChanged ==> Run(Initial, es) == Initial
  {
    RunValidFrom(Initial, es);
  }

  lemma {:induction false} RunValidFrom(l: Loading, es: seq<Event>)
    requires Valid(l)
    ensures Valid(Run(l, es))
    ensures es != [] && es[|es| - 1] == UriChanged ==> Run(l, es) == Initial
    decreases |es|
  {
    if es != [] {
      RunValidFrom(Step(l, es[0]), es[1..]);
      if |es| > 1 {
        assert es[1..][|es[1..]| - 1] == es[|es| - 1];
      }
    }
  }
}
