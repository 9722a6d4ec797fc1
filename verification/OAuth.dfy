// The credential document and the refresh exchange (internal/oauth/oauth.go).

module OAuth {
  /** A JSON object whose values stay raw. */
  type Doc = map<string, string>

  /**
   * A stored credential. Opaque is text that is not a JSON object (an API key,
   * say), Document is an object without claudeAiOauth, and Blob has one: its
   * modelled token fields, the inner fields that are only carried along, and
   * the other top-level keys.
   */
  datatype Cred =
    | Opaque(bytes: string)
    | Document(top: Doc)
    | Blob(refresh: string, access: string, expiresAt: int, inner: Doc, top: Doc)

  /** What identifies a generation; two documents with one refresh token are one generation. */
  datatype Fp = Token(refresh: string) | Whole(cred: Cred)

  function Fingerprint(c: Cred): Fp {
    if c.Blob? && c.refresh != "" then Token(c.refresh) else Whole(c)
  }

  /** The refresh failures, and the two gate outcomes beside them. */
  datatype Kind =
    | NoError
    | Transient
    | NoRefreshToken
    | InvalidGrant
    | InvalidClient
    | ConsumeBusy
    | StashUnreadable

  const EXPIRY_BUFFER_MS := 300_000

  predicate Expired(expiresAt: int, nowMs: int) {
    expiresAt != 0 && nowMs + EXPIRY_BUFFER_MS >= expiresAt
  }

  /** What came back from the token endpoint; error is "" for a body that did not decode. */
  datatype Reply =
    | NoAnswer
    | Refused(status: int, error: string)
    | Granted(access: string, refresh: string, expiresIn: int, scope: string)

  /** The error classes of section 5.2 of RFC 6749, read from the "error" member alone. */
  function Classify(r: Reply): Kind {
    match r
    case NoAnswer => Transient
    case Refused(status, error) =>
      if status != 400 && status != 401 && status != 403 then Transient
      else if error == "invalid_grant" then InvalidGrant
      else if error == "invalid_client" then InvalidClient
      else Transient
    case Granted(access, _, _, _) => if access == "" then Transient else NoError
  }

  /** Why a credential is never POSTed at all, or NoError when it can be. */
  function Refusal(c: Cred): Kind {
    match c
    case Opaque(_) => Transient
    case Document(_) => NoRefreshToken
    case Blob(refresh, _, _, _, _) => if refresh == "" then NoRefreshToken else NoError
  }

  /** A credential with a refresh token: the only kind that is ever POSTed. */
  type Sendable = c: Cred | Refusal(c) == NoError witness Blob("rt", "", 0, map[], map[])

  /** The inner field the reply's scope overwrites; a list of words, carried as their text. */
  const SCOPES := "scopes"

  /** The updated copy of the blob; an absent refresh token keeps the old one (section 6 of RFC 6749). */
  function Successor(c: Sendable, r: Reply, nowMs: int): (s: Sendable)
    requires r.Granted?
    ensures s.top == c.top && s.inner - {SCOPES} == c.inner - {SCOPES}
    ensures r.scope == "" ==> s.inner == c.inner
    ensures Fingerprint(s) == Fingerprint(c) <==> r.refresh == "" || r.refresh == c.refresh
  {
    c.(access := r.access,
       expiresAt := if r.expiresIn > 0 then nowMs + r.expiresIn * 1000 else c.expiresAt,
       refresh := if r.refresh != "" then r.refresh else c.refresh,
       inner := if r.scope != "" then c.inner[SCOPES := r.scope] else c.inner)
  }

  /**
   * When a refreshed credential expires, in milliseconds: five minutes before
   * the lifetime the reply gives it has passed, or when the old one does without
   * such a lifetime. It carries the reply's tokens.
   */
  lemma SuccessorExpiresIff(c: Sendable, r: Reply, nowMs: int, t: int)
    requires r.Granted? && nowMs > 0
    ensures var s := Successor(c, r, nowMs);
      && (Expired(s.expiresAt, t) <==>
            if r.expiresIn > 0 then t >= nowMs + r.expiresIn * 1000 - 300_000
            else c.expiresAt != 0 && t >= c.expiresAt - 300_000)
      && s.access == r.access
      && s.refresh == (if r.refresh == "" then c.refresh else r.refresh)
      && (r.scope != "" ==> "scopes" in s.inner && s.inner["scopes"] == r.scope)
  {
  }

  function RefreshToken(c: Cred): string {
    if c.Blob? then c.refresh else ""
  }

  /** Two documents are one generation exactly when they share a refresh token, or have none and are the same. */
  lemma SameGenerationIff(a: Cred, b: Cred)
    ensures Fingerprint(a) == Fingerprint(b) <==>
      RefreshToken(a) == RefreshToken(b) && (RefreshToken(a) == "" ==> a == b)
  {
  }
}
