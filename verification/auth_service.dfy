/** The mock authentication backend (`services/authService.ts`): users and
    token pairs built from a username, login that accepts any credentials,
    and session refresh that reads the username back out of a refresh
    token `refresh::<username>::<timestamp>`. `Date.now()` is the parameter
    `now`; the reply delays are not modelled. */
module AuthService {
  import opened Base
  import opened Text

  /** `tokenExpirySeconds`: fifteen minutes. */
  const TokenExpirySeconds: nat := 900

  datatype User = User(id: string, username: string, email: string, avatar: Option<string>)

  datatype TokenPair = TokenPair(accessToken: string, refreshToken: string, expiresIn: nat)

  datatype Session = Session(user: User, tokens: TokenPair)

  /** How a service promise settles. */
  datatype Outcome = Resolved(session: Session) | Rejected(message: string)

  /** `buildUser(username)`. */
  function BuildUser(username: string): (u: User)
    ensures u.username == username && u.avatar.None?
    ensures StartsWith(u.id, "user_") && u.id[5..] == username
    ensures |u.email| == |username| + 12
    ensures u.email[..|username|] == username && u.email[|username|..] == "@example.com"
  {
    User("user_" + username, username, username + "@example.com", None)
  }

  /** Users built from different names differ in id and in email. */
  lemma BuildUserInjective(a: string, b: string)
    requires a != b
    ensures BuildUser(a).id != BuildUser(b).id && BuildUser(a).email != BuildUser(b).email
  {
    assert BuildUser(a).id[5..] == a && BuildUser(b).id[5..] == b;
  }

  /** `createTokenPair(username)` at clock reading `now`. */
  function CreateTokenPair(username: string, now: nat): (t: TokenPair)
    ensures t.accessToken == "access::" + username + "::" + NatToString(now)
    ensures t.refreshToken == "refresh::" + username + "::" + NatToString(now)
    ensures t.expiresIn == 15 * 60
  {
    var timestamp := NatToString(now);
    TokenPair("access::" + username + "::" + timestamp, "refresh::" + username + "::" + timestamp, TokenExpirySeconds)
  }

  /** `extractUsernameFromToken` as written: the trimmed second field of the
      token split at every `::`, for a token that starts `refresh::`. */
  function ExtractUsernameAsWritten(token: string): (r: Option<string>)
    ensures !StartsWith(token, "refresh::") ==> r.None?
    ensures r.Some? ==> r.value != "" && Trim(r.value) == r.value
  {
    if token == "" || !StartsWith(token, "refresh::") then None
    else
      var parts := Split(token, "::");
      if |parts| < 2 then None
      else
        var username := parts[1];
        if username != "" && |Trim(username)| > 0 then
          TrimIdempotent(username);
          Some(Trim(username))
        else None
  }

  /** Splitting at every `::` puts a colon-free field right after
      `refresh::` second. */
  lemma SecondField(a: string, rest: string)
    requires forall k :: 0 <= k < |a| ==> a[k] != ':'
    ensures var parts := Split("refresh::" + a + "::" + rest, "::");
      |parts| >= 2 && parts[1] == a
  {
    assert "refresh::" + a + "::" + rest == "refresh" + "::" + (a + "::" + rest);
    SplitHead("refresh", "::", a + "::" + rest, ':');
    SplitHead(a, "::", rest, ':');
  }

  /** As written, a name without a colon comes back from its refresh token. */
  lemma AsWrittenRoundTrip(u: string, now: nat)
    requires u != "" && !IsSpace(u[0]) && !IsSpace(u[|u| - 1])
    requires forall k :: 0 <= k < |u| ==> u[k] != ':'
    ensures ExtractUsernameAsWritten(CreateTokenPair(u, now).refreshToken) == Some(u)
  {
    var token := CreateTokenPair(u, now).refreshToken;
    var tail := u + "::" + NatToString(now);
    assert token == "refresh::" + tail;
    StartsWithConcat("refresh::", tail);
    SecondField(u, NatToString(now));
    TrimOfTrimmed(u);
    AsWrittenReadsSecondField(token, u);
  }

  /** As written, a refresh token is read as its second `::` field. */
  lemma AsWrittenReadsSecondField(token: string, a: string)
    requires StartsWith(token, "refresh::")
    requires var parts := Split(token, "::"); |parts| >= 2 && parts[1] == a
    requires a != "" && Trim(a) == a
    ensures ExtractUsernameAsWritten(token) == Some(a)
  {
  }

  /** As written, a name containing `::` loses everything from its first
      `::` on: the refresh token of user `a::b` refreshes as user `a`. */
  lemma AsWrittenTruncatesName(a: string, b: string, now: nat)
    requires a != "" && !IsSpace(a[0]) && !IsSpace(a[|a| - 1])
    requires forall k :: 0 <= k < |a| ==> a[k] != ':'
    ensures ExtractUsernameAsWritten(CreateTokenPair(a + "::" + b, now).refreshToken) == Some(a)
  {
    var token := CreateTokenPair(a + "::" + b, now).refreshToken;
    var rest := b + "::" + NatToString(now);
    assert token == "refresh::" + a + "::" + rest;
    assert token == "refresh::" + (a + "::" + rest);
    StartsWithConcat("refresh::", a + "::" + rest);
    SecondField(a, rest);
    TrimOfTrimmed(a);
    AsWrittenReadsSecondField(token, a);
  }

  /** The corrected reading returns such a name whole. */
  lemma CorrectedKeepsName(a: string, b: string, now: nat)
    requires a != "" && !IsSpace(a[0])
    requires b != "" && !IsSpace(b[|b| - 1])
    ensures ExtractUsername(CreateTokenPair(a + "::" + b, now).refreshToken) == Some(a + "::" + b)
  {
    UsernameRoundTrip(a + "::" + b, now);
  }

  /** The last position below `i` where `::` starts in `s`. */
  function LastSeparatorBelow(s: string, i: nat): (r: Option<nat>)
    ensures r.Some? ==> r.value < i && OccursAt(s, "::", r.value)
    ensures r.Some? ==> forall j :: r.value < j < i ==> !OccursAt(s, "::", j)
    ensures r.None? ==> forall j :: 0 <= j < i ==> !OccursAt(s, "::", j)
  {
    if i == 0 then None
    else if OccursAt(s, "::", i - 1) then Some(i - 1)
    else LastSeparatorBelow(s, i - 1)
  }

  /** The username field as intended: everything between the `refresh::`
      prefix and the last `::`, which precedes the timestamp, trimmed; with
      no `::` after the prefix, the whole remainder, as the code reads it. */
  function ExtractUsername(token: string): (r: Option<string>)
    ensures !StartsWith(token, "refresh::") ==> r.None?
    ensures r.Some? ==> r.value != "" && Trim(r.value) == r.value
  {
    if token == "" || !StartsWith(token, "refresh::") then None
    else
      var rest := token[9..];
      var username := match LastSeparatorBelow(rest, |rest|)
        case None => rest
        case Some(i) => rest[..i];
      if |Trim(username)| > 0 then
        TrimIdempotent(username);
        Some(Trim(username))
      else None
  }

  /** Every trimmed, non-empty name comes back from its refresh token,
      whatever characters it holds. */
  lemma UsernameRoundTrip(u: string, now: nat)
    requires u != "" && !IsSpace(u[0]) && !IsSpace(u[|u| - 1])
    ensures ExtractUsername(CreateTokenPair(u, now).refreshToken) == Some(u)
  {
    var n := NatToString(now);
    var token := CreateTokenPair(u, now).refreshToken;
    var rest := token[9..];
    assert rest == u + "::" + n;
    LastSeparatorBeforeDigits(u, n);
    assert rest[..|u|] == u;
    TrimOfTrimmed(u);
  }

  /** In a name followed by `::` and a colon-free tail, the last `::`
      starts right after the name. */
  lemma LastSeparatorBeforeDigits(u: string, n: string)
    requires forall k :: 0 <= k < |n| ==> n[k] != ':'
    ensures var s := u + "::" + n; LastSeparatorBelow(s, |s|) == Some(|u|)
  {
    var s := u + "::" + n;
    assert OccursAt(s, "::", |u|);
    forall j | |u| < j < |s|
      ensures !OccursAt(s, "::", j)
    {
      if j + 2 <= |s| {
        assert s[j + 1] == n[j + 1 - |u| - 2];
      }
    }
  }

  /** On a refresh token with no colon after the prefix the two readings
      agree: both give the trimmed remainder. */
  lemma ReadingsAgreeWithoutSeparator(rest: string)
    requires forall k :: 0 <= k < |rest| ==> rest[k] != ':'
    ensures ExtractUsername("refresh::" + rest) == ExtractUsernameAsWritten("refresh::" + rest)
  {
    var token := "refresh::" + rest;
    assert token == "refresh" + "::" + rest;
    SplitHead("refresh", "::", rest, ':');
    NoOccurrenceWithout(rest, "::", ':');
    assert token[9..] == rest;
    assert LastSeparatorBelow(rest, |rest|).None?;
  }

  /** An access token never yields a username. */
  lemma AccessTokenRejected(u: string, now: nat)
    ensures ExtractUsername(CreateTokenPair(u, now).accessToken).None?
    ensures ExtractUsernameAsWritten(CreateTokenPair(u, now).accessToken).None?
  {
    var t := CreateTokenPair(u, now).accessToken;
    assert !StartsWith(t, "refresh::") by {
      assert t[0] == 'a';
      assert |t| < 9 || t[..9][0] != "refresh::"[0];
    }
  }

  /** The name `login` uses: the trimmed username, or `user` when it is
      missing or blank. */
  function LoginName(username: Option<string>): (name: string)
    ensures username.Some? && !AllSpace(username.value) ==> name == Trim(username.value)
    ensures username.None? || AllSpace(username.value) ==> name == "user"
    ensures name != "" && !IsSpace(name[0]) && !IsSpace(name[|name| - 1])
  {
    if username.Some? && Trim(username.value) != "" then Trim(username.value) else "user"
  }

  /** `login`: any credentials succeed; the password is not read. The
      "Username is required" rejection cannot happen, since the name is
      never empty. */
  function Login(username: Option<string>, now: nat): (r: Outcome)
    ensures r.Resolved?
    ensures r.session.user == BuildUser(LoginName(username))
    ensures r.session.tokens == CreateTokenPair(LoginName(username), now)
  {
    var name := LoginName(username);
    if name == "" then Rejected("Username is required")
    else Resolved(Session(BuildUser(name), CreateTokenPair(name, now)))
  }

  /** `refreshSession`: an empty token is refused at once; a token with no
      readable username is invalid; otherwise a fresh session for the user
      `extractUsernameFromToken` reads, which is the second `::` field. */
  function RefreshSession(token: string, now: nat): (r: Outcome)
    ensures token == "" ==> r == Rejected("Refresh token is required")
    ensures token != "" && ExtractUsernameAsWritten(token).Some? ==>
      r == Resolved(Session(BuildUser(ExtractUsernameAsWritten(token).value), CreateTokenPair(ExtractUsernameAsWritten(token).value, now)))
    ensures token != "" && ExtractUsernameAsWritten(token).None? ==> r == Rejected("Invalid refresh token")
    ensures r.Resolved? ==>
      && ExtractUsernameAsWritten(token).Some?
      && r.session.user.username == ExtractUsernameAsWritten(token).value
      && r.session.tokens.refreshToken == "refresh::" + r.session.user.username + "::" + NatToString(now)
  {
    if token == "" then Rejected("Refresh token is required")
    else match ExtractUsernameAsWritten(token)
      case None => Rejected("Invalid refresh token")
      case Some(name) => Resolved(Session(BuildUser(name), CreateTokenPair(name, now)))
  }

  /** `refreshSession` as evidently intended: the same flow with the
      corrected username reading. */
  function RefreshSessionIntended(token: string, now: nat): (r: Outcome)
    ensures token == "" ==> r == Rejected("Refresh token is required")
    ensures token != "" && ExtractUsername(token).Some? ==>
      r == Resolved(Session(BuildUser(ExtractUsername(token).value), CreateTokenPair(ExtractUsername(token).value, now)))
    ensures token != "" && ExtractUsername(token).None? ==> r == Rejected("Invalid refresh token")
    ensures r.Resolved? ==>
      && ExtractUsername(token).Some?
      && r.session.user.username == ExtractUsername(token).value
      && r.session.tokens.refreshToken == "refresh::" + r.session.user.username + "::" + NatToString(now)
  {
    if token == "" then Rejected("Refresh token is required")
    else match ExtractUsername(token)
      case None => Rejected("Invalid refresh token")
      case Some(name) => Resolved(Session(BuildUser(name), CreateTokenPair(name, now)))
  }

  /** Refreshing the session of a login whose name has no colon gives back
      the same user with a new token pair. */
  lemma RefreshAfterLogin(username: Option<string>, now: nat, later: nat)
    requires forall k :: 0 <= k < |LoginName(username)| ==> LoginName(username)[k] != ':'
    ensures var s := Login(username, now).session;
      RefreshSession(s.tokens.refreshToken, later) == Resolved(Session(s.user, CreateTokenPair(s.user.username, later)))
  {
    AsWrittenRoundTrip(LoginName(username), now);
  }

  /** A login as `a::b` refreshes as a different user, `a`. */
  lemma RefreshAfterLoginTruncates(a: string, b: string, now: nat, later: nat)
    requires a != "" && !IsSpace(a[0]) && !IsSpace(a[|a| - 1])
    requires forall k :: 0 <= k < |a| ==> a[k] != ':'
    requires b != "" && !IsSpace(b[|b| - 1])
    ensures var s := Login(Some(a + "::" + b), now).session;
      && s.user.username == a + "::" + b
      && RefreshSession(s.tokens.refreshToken, later) == Resolved(Session(BuildUser(a), CreateTokenPair(a, later)))
      && BuildUser(a) != s.user
  {
    var name := a + "::" + b;
    TrimOfTrimmed(name);
    AsWrittenTruncatesName(a, b, now);
    assert |a| < |name|;
  }

  /** With the intended reading every login refreshes as the same user. */
  lemma RefreshAfterLoginIntended(username: Option<string>, now: nat, later: nat)
    ensures var s := Login(username, now).session;
      RefreshSessionIntended(s.tokens.refreshToken, later) == Resolved(Session(s.user, CreateTokenPair(s.user.username, later)))
  {
    UsernameRoundTrip(LoginName(username), now);
  }

  /** Refreshing with an access token fails. */
  lemma RefreshRejectsAccessToken(username: Option<string>, now: nat, later: nat)
    ensures RefreshSession(Login(username, now).session.tokens.accessToken, later) == Rejected("Invalid refresh token")
  {
    AccessTokenRejected(LoginName(username), now);
  }
}
