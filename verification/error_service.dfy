/** Error classification (`services/errorService.ts`): a thrown value is
    sorted into one of six kinds by keywords of its lower-cased message, the
    first matching kind winning, and turned into the app's error record. */
module ErrorService {
  import opened Text

  datatype ErrorType = Network | Timeout | Unauthorized | NotFound | Server | Unknown

  /** A thrown value: an `Error` with its message, or anything else, with
      the text `String(value)` gives it. */
  datatype Thrown = ErrorValue(message: string) | OtherValue(text: string)

  /** The order in which `classifyError` tests the kinds. */
  function Rank(t: ErrorType): nat {
    match t
    case Network => 0
    case Timeout => 1
    case Unauthorized => 2
    case NotFound => 3
    case Server => 4
    case Unknown => 5
  }

  /** The lower-cased message carries one of the keywords of kind `t`;
      `Unknown` has none. */
  predicate Mentions(t: ErrorType, lowerMessage: string) {
    match t
    case Network => Contains(lowerMessage, "network") || Contains(lowerMessage, "fetch")
    case Timeout => Contains(lowerMessage, "timeout")
    case Unauthorized => Contains(lowerMessage, "401") || Contains(lowerMessage, "unauthorized")
    case NotFound => Contains(lowerMessage, "404") || Contains(lowerMessage, "not found")
    case Server => Contains(lowerMessage, "500") || Contains(lowerMessage, "server")
    case Unknown => false
  }

  /** `classifyError`: the first kind whose keywords the lower-cased message
      carries; `Unknown` for a value that is not an `Error`, or when no
      keyword appears. */
  function Classify(e: Thrown): (t: ErrorType)
    ensures e.OtherValue? ==> t == Unknown
    ensures t != Unknown ==> e.ErrorValue? && Mentions(t, Lower(e.message))
    ensures e.ErrorValue? ==> forall u :: Rank(u) < Rank(t) ==> !Mentions(u, Lower(e.message))
  {
    match e
    case OtherValue(_) => Unknown
    case ErrorValue(m) =>
      var message := Lower(m);
      if Contains(message, "network") || Contains(message, "fetch") then Network
      else if Contains(message, "timeout") then Timeout
      else if Contains(message, "401") || Contains(message, "unauthorized") then Unauthorized
      else if Contains(message, "404") || Contains(message, "not found") then NotFound
      else if Contains(message, "500") || Contains(message, "server") then Server
      else Unknown
  }

  /** The classification is the first match: it is the one kind that is
      mentioned with no earlier kind mentioned, and `Unknown` exactly when
      no kind is mentioned. */
  lemma ClassifyIsFirstMatch(m: string, t: ErrorType)
    requires t != Unknown
    ensures Classify(ErrorValue(m)) == t <==>
      Mentions(t, Lower(m)) && forall u :: Rank(u) < Rank(t) ==> !Mentions(u, Lower(m))
  {
  }

  /** The message's letter case does not matter. */
  lemma ClassifyIgnoresCase(m1: string, m2: string)
    requires Lower(m1) == Lower(m2)
    ensures Classify(ErrorValue(m1)) == Classify(ErrorValue(m2))
  {
  }

  /** A concrete case of precedence: a message naming both a failed fetch
      and a timeout counts as a network error. */
  lemma FetchBeatsTimeout()
    ensures Classify(ErrorValue("fetch timeout")) == Network
  {
    var lm := Lower("fetch timeout");
    assert lm == "fetch timeout";
    assert OccursAt(lm, "fetch", 0);
  }

  /** `getUserFriendlyMessage`. */
  function FriendlyMessage(t: ErrorType): (msg: string)
    ensures msg != ""
  {
    match t
    case Network => "Network error. Please check your connection and try again."
    case Timeout => "Request timed out. Please try again."
    case Unauthorized => "Authentication failed. Please log in again."
    case NotFound => "Content not found."
    case Server => "Server error. Please try again later."
    case Unknown => "An unexpected error occurred. Please try again."
  }

  /** Different kinds read differently to the user. */
  lemma FriendlyMessagesDistinct(a: ErrorType, b: ErrorType)
    requires a != b
    ensures FriendlyMessage(a) != FriendlyMessage(b)
  {
    MessageLength(a);
    MessageLength(b);
  }

  /** The length of each message; no two are the same. */
  function MessageSize(t: ErrorType): nat
  {
    match t
    case Network => 58
    case Timeout => 36
    case Unauthorized => 43
    case NotFound => 18
    case Server => 37
    case Unknown => 47
  }

  lemma MessageLength(t: ErrorType)
    ensures |FriendlyMessage(t)| == MessageSize(t)
  {
    match t
    case Network =>
    case Timeout =>
    case Unauthorized =>
    case NotFound =>
    case Server =>
    case Unknown =>
  }

  /** `isRetryable`: network, timeout and server errors. */
  function IsRetryable(t: ErrorType): (r: bool)
    ensures r <==> t in {Network, Timeout, Server}
  {
    match t
    case Network => true
    case Timeout => true
    case Server => true
    case _ => false
  }

  /** The app's error record; `originalMessage` is the message of the kept
      `Error`. */
  datatype AppError = AppError(kind: ErrorType, message: string, originalMessage: string, retryable: bool)

  /** `createAppError`: the kind, its user message and its retry flag; the
      original is the thrown `Error`, or a new one wrapping `String(value)`. */
  function CreateAppError(e: Thrown): (a: AppError)
    ensures a.kind == Classify(e)
    ensures a.message == FriendlyMessage(a.kind)
    ensures a.retryable <==> a.kind == Network || a.kind == Timeout || a.kind == Server
    ensures a.originalMessage == if e.ErrorValue? then e.message else e.text
  {
    var kind := Classify(e);
    AppError(kind, FriendlyMessage(kind), if e.ErrorValue? then e.message else e.text, IsRetryable(kind))
  }

  /** A thrown value that is not an `Error` is never retried. */
  lemma NonErrorNotRetryable(text: string)
    ensures var a := CreateAppError(OtherValue(text));
      a.kind == Unknown && !a.retryable && a.originalMessage == text
  {
  }

  /** The user message determines the kind, so the record's message and
      kind never disagree. */
  lemma MessageDeterminesKind(e1: Thrown, e2: Thrown)
    requires CreateAppError(e1).message == CreateAppError(e2).message
    ensures CreateAppError(e1).kind == CreateAppError(e2).kind
            && CreateAppError(e1).retryable == CreateAppError(e2).retryable
  {
    var k1, k2 := Classify(e1), Classify(e2);
    if k1 != k2 {
      FriendlyMessagesDistinct(k1, k2);
    }
  }
}
