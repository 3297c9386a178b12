/** The request dependencies that authenticate a caller
    (app/api/dependencies.py): parsing the `Authorization: Bearer <token>`
    header, resolving the verified token to a local user, and the optional
    variant that never fails. The token verifier and the user table are
    parameters: what the verifier answered for the token, whether a live
    local user with that id exists, and whether the database fails. */
module Auth {
  import opened Basics
  import opened Users

  /** Why a request is refused; the HTTP status is StatusOf. */
  datatype AuthFailure =
    | HeaderRequired            // 401 "Authorization header is required"
    | InvalidHeaderFormat       // 401 "Expected: Bearer <token>"
    | VerifierRejected(status: int)

  function StatusOf(f: AuthFailure): (s: int)
    ensures f.HeaderRequired? || f.InvalidHeaderFormat? ==> s == 401
    ensures f.VerifierRejected? ==> s == f.status
  {
    match f
    case HeaderRequired => 401
    case InvalidHeaderFormat => 401
    case VerifierRejected(status) => status
  }

  /** Who the request runs as. The minimal user copies the verifier's user
      id and e-mail as they are, null included: the verifier's answer always
      carries both keys, so reading them never raises. */
  datatype Resolution =
    | LocalUser(id: string)                                                  // found in the local table
    | CreatedUser(id: string)                                                // synced into the table just now
    | MinimalUser(tokenId: Option<string>, email: Option<string>, provider: string) // built from the token only, not stored

  function ResolvedId(r: Resolution): Option<string>
  {
    match r
    case LocalUser(id) => Some(id)
    case CreatedUser(id) => Some(id)
    case MinimalUser(id, _, _) => id
  }

  const BearerPrefix: string := "Bearer "

  predicate StartsWithBearer(h: string)
  {
    |h| >= |BearerPrefix| && h[..|BearerPrefix|] == BearerPrefix
  }

  /** get_authorization_header: the second space-separated field of a
      header that starts with "Bearer ". */
  function AuthorizationToken(header: Option<string>): Result<string, AuthFailure>
  {
    if header.None? || header.value == "" then Err(HeaderRequired)
    else if !StartsWithBearer(header.value) then Err(InvalidHeaderFormat)
    else Ok(Before(header.value[|BearerPrefix|..], ' '))
  }

  /** A missing or empty header is refused as required, any other header
      without the exact "Bearer " prefix as malformed; an accepted token has
      no space, follows the prefix directly and ends the header or is
      followed by a space. */
  lemma AuthorizationTokenFacts(header: Option<string>)
    ensures var r := AuthorizationToken(header);
      && (r == Err(HeaderRequired) <==> header.None? || header.value == "")
      && (r == Err(InvalidHeaderFormat) <==> header.Some? && header.value != "" && !StartsWithBearer(header.value))
      && (r.Ok? <==> header.Some? && StartsWithBearer(header.value))
      && (r.Ok? ==>
            var h := header.value;
            var n := |BearerPrefix| + |r.value|;
            && ' ' !in r.value
            && n <= |h| && h[..n] == BearerPrefix + r.value
            && (n == |h| || h[n] == ' '))
  {
    if header.Some? && StartsWithBearer(header.value) {
      var h := header.value;
      var t := Before(h[|BearerPrefix|..], ' ');
      assert h[..|BearerPrefix| + |t|] == h[..|BearerPrefix|] + h[|BearerPrefix|..][..|t|];
    }
  }

  /** The token of "Bearer <t>" is `t` for a space-free `t`, whatever
      follows it after a space. */
  lemma BearerRoundTrip(t: string, rest: string)
    requires ' ' !in t
    ensures AuthorizationToken(Some(BearerPrefix + t)) == Ok(t)
    ensures AuthorizationToken(Some(BearerPrefix + t + " " + rest)) == Ok(t)
  {
    SplitOnceRoundTrip(t, ' ', rest);
    assert (BearerPrefix + t)[|BearerPrefix|..] == t;
    assert (BearerPrefix + t + " " + rest)[|BearerPrefix|..] == t + [' '] + rest;
  }

  /** "Bearer a b" carries the token "a"; the prefix is case- and
      space-sensitive. */
  lemma BearerExamples()
    ensures AuthorizationToken(Some("Bearer a b")) == Ok("a")
    ensures AuthorizationToken(Some("bearer a")) == Err(InvalidHeaderFormat)
    ensures AuthorizationToken(Some("Bearer")) == Err(InvalidHeaderFormat)
    ensures AuthorizationToken(Some("")) == Err(HeaderRequired)
  {
    BearerRoundTrip("a", "b");
    assert BearerPrefix + "a" + " " + "b" == "Bearer a b";
    assert "bearer a"[..7] != BearerPrefix by { assert "bearer a"[0] != BearerPrefix[0]; }
  }

  /** Whether sync_user_to_db creates the user: it needs both required
      fields and a working database. */
  predicate SyncSucceeds(info: UserInfo, dbFails: bool)
  {
    FirstMissingField(info).None? && !dbFails
  }

  /** get_current_user behind its header dependency: the verifier's
      answer for the token, then the local user if one is found (a null id
      finds none), else the synced one, and when syncing fails a minimal
      user built from the token info. */
  function CurrentUser(header: Option<string>, verified: Result<UserInfo, int>, found: bool, dbFails: bool)
    : Result<Resolution, AuthFailure>
  {
    match AuthorizationToken(header)
    case Err(e) => Err(e)
    case Ok(_) =>
      match verified
      case Err(status) => Err(VerifierRejected(status))
      case Ok(info) =>
        if found && info.userId.Some? then Ok(LocalUser(info.userId.value))
        else if SyncSucceeds(info, dbFails) then Ok(CreatedUser(info.userId.value))
        else Ok(MinimalUser(info.userId, info.email, ProviderOrDefault(info.provider)))
  }

  /** get_optional_current_user: nothing without a Bearer header, and
      nothing whenever a later step fails. */
  function OptionalCurrentUser(header: Option<string>, verified: Result<UserInfo, int>, found: bool, dbFails: bool)
    : Option<Resolution>
  {
    if header.None? || header.value == "" || !StartsWithBearer(header.value) then None
    else match verified
      case Err(_) => None
      case Ok(info) =>
        if found && info.userId.Some? then Some(LocalUser(info.userId.value))
        else if SyncSucceeds(info, dbFails) then Some(CreatedUser(info.userId.value))
        else None
  }

  /** Once the header is accepted and the verifier has answered, the
      database never refuses the request, whatever the user id and e-mail
      hold: the caller runs under the token's user id, as the stored user
      exactly when one is found, and as a minimal user carrying the token's
      e-mail and provider exactly when the user is neither found nor
      synced. */
  lemma DatabaseNeverBlocksVerifiedUser(header: Option<string>, info: UserInfo, found: bool, dbFails: bool)
    requires AuthorizationToken(header).Ok?
    ensures var r := CurrentUser(header, Ok(info), found, dbFails);
      && r.Ok? && ResolvedId(r.value) == info.userId
      && (r.value.LocalUser? <==> found && info.userId.Some?)
      && (r.value.MinimalUser? <==> !(found && info.userId.Some?) && !SyncSucceeds(info, dbFails))
      && (r.value.MinimalUser? ==> r.value.email == info.email && r.value.provider == ProviderOrDefault(info.provider))
  {
  }

  /** A refused header refuses the request with 401 and the optional
      variant returns nothing for it. */
  lemma RefusedHeader(header: Option<string>, verified: Result<UserInfo, int>, found: bool, dbFails: bool)
    requires AuthorizationToken(header).Err?
    ensures CurrentUser(header, verified, found, dbFails).Err?
    ensures StatusOf(CurrentUser(header, verified, found, dbFails).error) == 401
    ensures OptionalCurrentUser(header, verified, found, dbFails).None?
  {
  }

  /** The optional variant answers exactly when the required one resolves
      to a stored user, and then with the same user; it never builds the
      minimal fallback user. */
  lemma OptionalAgreesWithCurrent(header: Option<string>, verified: Result<UserInfo, int>, found: bool, dbFails: bool)
    ensures var o := OptionalCurrentUser(header, verified, found, dbFails);
      var c := CurrentUser(header, verified, found, dbFails);
      && (o.Some? ==> c == Ok(o.value) && !o.value.MinimalUser?)
      && (c.Ok? && !c.value.MinimalUser? ==> o == Some(c.value))
      && (o.None? && c.Ok? ==> c.value.MinimalUser?)
  {
  }
}
