/** src/auth/authentication-state.ts, and the credential part of src/settings-workflow.ts `prepareSettingsPatch`. */
module AuthenticationState {
  import opened Basics

  datatype Method = Manual | OAuth

  datatype Authorization = Authorization(clientId: string, grantId: string, refreshToken: Option<string>, expiresAt: Option<int>)

  /** `YandexDiskSyncSettings`: the credentials, the destination, the encryption password and everything else. A
      method that was never stored is None; an absent token or client reads as "". */
  datatype Settings = Settings(
    clientId: string, token: string, authMethod: Option<Method>, grant: Option<Authorization>,
    manualSyncRequired: bool, manualConfirmed: bool, remotePath: string, password: Option<string>, rest: string)

  /** `AuthenticationSettings` */
  datatype Authentication = Authentication(
    clientId: string, token: string, authMethod: Method, grant: Option<Authorization>,
    manualSyncRequired: bool, manualConfirmed: bool)

  datatype Change =
    | Interactive(token: string, authorization: Authorization)
    | Refresh(token: string, authorization: Authorization)
    | ManualConfirmation
    | Logout(requested: Option<Method>, preservePassword: bool)

  predicate Whitespace(ch: char) {
    ch in "\t\n\U{000B}\U{000C}\r \U{00A0}\U{1680}\U{2028}\U{2029}\U{202F}\U{205F}\U{3000}\U{FEFF}" || '\U{2000}' <= ch <= '\U{200A}'
  }

  /** `!text.trim()` */
  predicate Blank(text: string) { forall i :: 0 <= i < |text| ==> Whitespace(text[i]) }

  /** `isOAuthAuthorization` */
  predicate ValidAuthorization(a: Authorization) {
    && !Blank(a.clientId) && a.grantId != "" && a.refreshToken != Some("")
    && (a.expiresAt.Some? ==> 0 < a.expiresAt.value <= MAX_SAFE_INTEGER)
  }

  /** The method of settings that may predate it. */
  function MethodOf(s: Settings): Method {
    if s.authMethod.Some? then s.authMethod.value else if s.token != "" || s.clientId != "" then Manual else OAuth
  }

  /** `normalizeAuthentication` accepts: a manual method has no grant, a grant is valid and comes with a token, and an
      OAuth token comes with a grant. */
  predicate Consistent(s: Settings) {
    match s.grant
    case Some(grant) => MethodOf(s) == OAuth && ValidAuthorization(grant) && s.token != ""
    case None => MethodOf(s) == OAuth ==> s.token == ""
  }

  /** `captureAuthentication` */
  function Capture(s: Settings): Option<Authentication> {
    if !Consistent(s) then None
    else Some(Authentication(if MethodOf(s) == Manual then s.clientId else "", s.token, MethodOf(s), s.grant,
                             s.manualSyncRequired, s.manualConfirmed))
  }

  function WithAuthentication(s: Settings, a: Authentication): Settings {
    s.(clientId := a.clientId, token := a.token, authMethod := Some(a.authMethod), grant := a.grant,
       manualSyncRequired := a.manualSyncRequired, manualConfirmed := a.manualConfirmed)
  }

  /** `prepareAuthenticationUpdate` applied to the current settings; None when it throws. */
  function Update(current: Settings, change: Change): Option<Settings> {
    if change.Logout? then
      Some(current.(clientId := "", token := "",
                    authMethod := if change.requested.Some? then change.requested else current.authMethod,
                    grant := None, manualSyncRequired := true, manualConfirmed := false,
                    password := if change.preservePassword then current.password else None))
    else if change.ManualConfirmation? then
      var captured := Capture(current);
      if captured.None? then None else Some(WithAuthentication(current, captured.value).(manualConfirmed := true))
    else if Blank(change.token) || !ValidAuthorization(change.authorization) || (change.Refresh? && !Renews(current, change.authorization))
    then None
    else
      Some(current.(clientId := "", token := change.token, authMethod := Some(OAuth), grant := Some(change.authorization),
                    manualSyncRequired := change.Interactive? || current.manualSyncRequired, manualConfirmed := false))
  }

  /** The authorization renews the current grant. */
  predicate Renews(current: Settings, authorization: Authorization) {
    && current.authMethod == Some(OAuth) && current.grant.Some?
    && current.grant.value.grantId == authorization.grantId && current.grant.value.clientId == authorization.clientId
  }

  /** The keys of a user draft that the credentials depend on, and the rest. */
  datatype Patch = Patch(clientId: Option<string>, token: Option<string>, remotePath: Option<string>, rest: Option<string>)
  {
    predicate ChangesCredentials() { token.Some? || clientId.Some? }
  }

  function OrElse<T>(value: Option<T>, otherwise: T): T { if value.Some? then value.value else otherwise }

  predicate ChangesConnection(current: Settings, patch: Patch) {
    || OrElse(patch.remotePath, current.remotePath) != current.remotePath
    || OrElse(patch.token, current.token) != current.token
    || (patch.ChangesCredentials() && current.authMethod == Some(OAuth))
  }

  /** `prepareSettingsPatch(current, patch).settings`, for a draft whose values are valid. */
  function ApplyPatch(current: Settings, patch: Patch): Settings {
    var changed := ChangesConnection(current, patch);
    var drafted := current.(
      clientId := OrElse(patch.clientId, current.clientId), token := OrElse(patch.token, current.token),
      remotePath := OrElse(patch.remotePath, current.remotePath), rest := OrElse(patch.rest, current.rest),
      manualSyncRequired := current.manualSyncRequired || changed,
      manualConfirmed := !changed && current.manualConfirmed);
    if !patch.ChangesCredentials() then drafted
    else drafted.(authMethod := Some(Manual), grant := None,
                  token := OrElse(patch.token, if current.authMethod == Some(Manual) then current.token else ""))
  }

  /** A grant without a client or identity, with an empty refresh token or an impossible expiry. */
  predicate BrokenGrant(a: Authorization) {
    || Blank(a.clientId) || a.grantId == "" || a.refreshToken == Some("")
    || (a.expiresAt.Some? && !(1 <= a.expiresAt.value <= 9007199254740991))
  }

  /** What the load refuses, in the order of the source: settings that predate the method count as manual once they
      hold a token or a client. */
  lemma RefusedCredentials(s: Settings)
    ensures !Consistent(s) <==>
      var manual := match s.authMethod case Some(m) => m.Manual? case None => s.token != "" || s.clientId != "";
      match s.grant
      case Some(grant) => manual || BrokenGrant(grant) || s.token == ""
      case None => !manual && s.token != ""
  {}

  // What credential changes keep.

  /** Captured credentials are consistent, and capturing them again changes nothing. */
  lemma CaptureIsStable(s: Settings, other: Settings)
    requires Capture(s).Some?
    ensures Capture(WithAuthentication(other, Capture(s).value)) == Capture(s)
  {}

  /** Whatever the credentials were, the ones a change leaves are accepted by the next load. */
  lemma UpdatesAreConsistent(current: Settings, change: Change)
    requires Update(current, change).Some?
    ensures Consistent(Update(current, change).value)
  {
    var updated := Update(current, change).value;
    if change.ManualConfirmation? { CaptureIsStable(current, current); }
    else if !change.Logout? { assert Blank(""); }
  }

  lemma PatchesAreConsistent(current: Settings, patch: Patch)
    requires Consistent(current) || patch.ChangesCredentials()
    ensures Consistent(ApplyPatch(current, patch))
  {}

  /** What a draft says reaches the settings, and nothing else changes: a new token or client makes the method manual
      and drops the grant, and the token of another method with it. A new destination, token or method asks for a manual
      sync that has not been confirmed. */
  lemma DraftReachesSettings(current: Settings, patch: Patch)
    ensures var n := ApplyPatch(current, patch);
      && (match patch.remotePath case Some(path) => n.remotePath == path case None => n.remotePath == current.remotePath)
      && (match patch.rest case Some(rest) => n.rest == rest case None => n.rest == current.rest)
      && (match patch.clientId case Some(client) => n.clientId == client case None => n.clientId == current.clientId)
      && n.password == current.password
      && (match (patch.token, patch.clientId)
          case (Some(token), _) => n.token == token && n.authMethod == Some(Manual) && n.grant == None
          case (None, Some(_)) =>
            n.authMethod == Some(Manual) && n.grant == None && n.token == if current.authMethod == Some(Manual) then current.token else ""
          case (None, None) => n.token == current.token && n.authMethod == current.authMethod && n.grant == current.grant)
    ensures var n := ApplyPatch(current, patch);
      var reconnects := n.remotePath != current.remotePath || patch.token !in {None, Some(current.token)}
        || (current.authMethod == Some(OAuth) && (patch.token.Some? || patch.clientId.Some?));
      if reconnects then n.manualSyncRequired && !n.manualConfirmed
      else n.manualSyncRequired == current.manualSyncRequired && n.manualConfirmed == current.manualConfirmed
  {}

  /** What a credential change leaves, and when it is refused. Nothing but the credentials and, at a logout that does
      not preserve it, the password changes. */
  lemma ChangesReachSettings(current: Settings, change: Change)
    ensures Update(current, change).None? <==>
      match change
      case Logout(_, _) => false
      case ManualConfirmation => !Consistent(current)
      case Interactive(token, a) => Blank(token) || !ValidAuthorization(a)
      case Refresh(token, a) =>
        || Blank(token) || !ValidAuthorization(a) || current.authMethod != Some(OAuth)
        || match current.grant case None => true case Some(g) => g.grantId != a.grantId || g.clientId != a.clientId
    ensures Update(current, change).Some? ==>
      (var n := Update(current, change).value;
       && n.remotePath == current.remotePath && n.rest == current.rest
       && match change
          case Logout(requested, preserve) =>
            && n.token == "" && n.clientId == "" && n.grant == None && n.manualSyncRequired && !n.manualConfirmed
            && n.authMethod == (if requested.Some? then requested else current.authMethod)
            && n.password == if preserve then current.password else None
          case ManualConfirmation =>
            && n.token == current.token && n.grant == current.grant && n.manualSyncRequired == current.manualSyncRequired
            && n.manualConfirmed && n.password == current.password && n.authMethod == Some(MethodOf(current))
            && n.clientId == if MethodOf(current) == Manual then current.clientId else ""
          case Interactive(token, a) =>
            && n.token == token && n.clientId == "" && n.grant == Some(a) && n.authMethod == Some(OAuth)
            && n.manualSyncRequired && !n.manualConfirmed && n.password == current.password
          case Refresh(token, a) =>
            && n.token == token && n.clientId == "" && n.grant == Some(a) && n.authMethod == Some(OAuth)
            && n.manualSyncRequired == current.manualSyncRequired && !n.manualConfirmed && n.password == current.password)
  {}

  /** A refresh never switches the grant or its client, and it needs a grant to renew. */
  lemma RefreshKeepsGrant(current: Settings, change: Change)
    requires change.Refresh? && Update(current, change).Some?
    ensures var updated := Update(current, change).value;
      && current.grant.Some? && updated.grant.Some? && updated.token == change.token
      && updated.grant.value.grantId == current.grant.value.grantId && updated.grant.value.clientId == current.grant.value.clientId
      && updated.manualSyncRequired == current.manualSyncRequired
  {}
}
