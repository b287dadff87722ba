/** Refresh-token rotation and step-up challenges, each call split between its read and its commit. */
module Sessions {
  import opened Basics
  import opened Schema

  datatype Token = Token(
    sessionId: Id, hash: Digest, expiresAt: nat, usedAt: Option<nat>, revokedAt: Option<nat>)

  datatype Purpose = Registration | StepUpPurpose

  datatype Challenge = Challenge(userId: Id, sessionId: Id, purpose: Purpose, expiresAt: nat, usedAt: Option<nat>)

  // A rotate call after its read: the row it found and what it saw there.
  datatype Rotation = Rotation(token: Id, reused: bool, inactive: bool, newHash: Digest, now: nat, open: bool)

  // A verify call after its read of the active challenge.
  datatype Verification = Verification(challenge: Id, sessionId: Id, purpose: Purpose, open: bool)

  datatype AuthDb = AuthDb(
    sessions: seq<Session>, tokens: seq<Token>, challenges: seq<Challenge>,
    rotations: seq<Rotation>, verifications: seq<Verification>,
    exchanged: seq<Id>,   // history: tokens in the order they were exchanged
    consumed: seq<Id>,    // history: challenges in the order they were consumed
    burned: set<Id>)      // history: sessions of which a used token was presented or a race was lost

  const EMPTY_AUTH := AuthDb([], [], [], [], [], [], [], {})

  datatype AuthStep =
    | Create(userId: Id, hash: Digest, ttl: nat)
    | BeginRotate(hash: Digest, newHash: Digest)
    | CommitRotate(rotation: nat, accountActive: bool)
    | Revoke(sessionId: Id)
    | RevokeAll(userId: Id)
    | RequestChallenge(auth: Auth, purpose: Purpose, ttl: nat)
    | BeginVerify(auth: Auth, purpose: Purpose)
    | CommitVerify(verification: nat, verified: bool)

  datatype AuthReply = Done | Invalid | Reused | Rotated(sessionId: Id) | Began(call: nat) | Refused

  // ---------------------------------------------------------------- queries

  predicate Live(t: Token) { t.usedAt.None? && t.revokedAt.None? }

  predicate HashTaken(tokens: seq<Token>, hash: Digest) { exists t :: 0 <= t < |tokens| && tokens[t].hash == hash }

  function FindToken(tokens: seq<Token>, hash: Digest): (r: Option<Id>)
    ensures r.Some? ==> r.value < |tokens| && tokens[r.value].hash == hash
    ensures r.None? <==> !HashTaken(tokens, hash)
  {
    if tokens == [] then None
    else
      var n := |tokens| - 1;
      var earlier := FindToken(tokens[..n], hash);
      if earlier.Some? then earlier else if tokens[n].hash == hash then Some(n) else None
  }

  // The session checks of authenticateAccessToken.
  predicate Authenticates(sessions: seq<Session>, now: nat, auth: Auth) {
    auth.sessionId < |sessions|
    && var s := sessions[auth.sessionId]; s.userId == auth.userId && s.revokedAt.None? && now < s.expiresAt
  }

  // A challenge this user and session may still answer.
  predicate Answerable(c: Challenge, auth: Auth, purpose: Purpose, now: nat) {
    && c.userId == auth.userId && c.sessionId == auth.sessionId && c.purpose == purpose
    && c.usedAt.None? && now < c.expiresAt
  }

  /** The newest unused, unexpired challenge of this user, session and purpose. */
  function ActiveChallenge(challenges: seq<Challenge>, auth: Auth, purpose: Purpose, now: nat): (r: Option<Id>)
    ensures r.Some? ==> r.value < |challenges| && Answerable(challenges[r.value], auth, purpose, now)
    ensures forall c :: (if r.Some? then r.value else -1) < c < |challenges| ==>
      !Answerable(challenges[c], auth, purpose, now)
  {
    if challenges == [] then None
    else
      var n := |challenges| - 1;
      if Answerable(challenges[n], auth, purpose, now) then Some(n)
      else ActiveChallenge(challenges[..n], auth, purpose, now)
  }

  // ---------------------------------------------------------------- statements

  function RevokedSession(s: Session, now: nat): Session {
    if s.revokedAt.None? then s.(revokedAt := Some(now)) else s
  }

  function RevokedToken(t: Token, now: nat): Token {
    if t.revokedAt.None? then t.(revokedAt := Some(now)) else t
  }

  function RevokeFamily(a: AuthDb, family: nat, now: nat): AuthDb {
    a.(sessions := seq(|a.sessions|, i requires 0 <= i < |a.sessions| =>
         if a.sessions[i].family == family then RevokedSession(a.sessions[i], now) else a.sessions[i]),
       tokens := seq(|a.tokens|, i requires 0 <= i < |a.tokens| =>
         if a.tokens[i].sessionId < |a.sessions| && a.sessions[a.tokens[i].sessionId].family == family
         then RevokedToken(a.tokens[i], now) else a.tokens[i]))
  }

  function RevokeUser(a: AuthDb, userId: Id, now: nat): AuthDb {
    a.(sessions := seq(|a.sessions|, i requires 0 <= i < |a.sessions| =>
         if a.sessions[i].userId == userId then RevokedSession(a.sessions[i], now) else a.sessions[i]),
       tokens := seq(|a.tokens|, i requires 0 <= i < |a.tokens| =>
         if a.tokens[i].sessionId < |a.sessions| && a.sessions[a.tokens[i].sessionId].userId == userId
         then RevokedToken(a.tokens[i], now) else a.tokens[i]))
  }

  function UseChallenges(cs: seq<Challenge>, sessionId: Id, purpose: Purpose, now: nat): seq<Challenge> {
    seq(|cs|, i requires 0 <= i < |cs| =>
      if cs[i].sessionId == sessionId && cs[i].purpose == purpose && cs[i].usedAt.None?
      then cs[i].(usedAt := Some(now)) else cs[i])
  }

  // ---------------------------------------------------------------- session.service

  // tokenFamilyId is a random UUID: here, the row number.
  function CreateSession(a: AuthDb, userId: Id, hash: Digest, now: nat, ttl: nat): (AuthDb, AuthReply) {
    if HashTaken(a.tokens, hash) then (a, Refused)
    else
      (a.(sessions := a.sessions + [Session(userId, |a.sessions|, hash, 0, None, now + ttl, None)],
          tokens := a.tokens + [Token(|a.sessions|, hash, now + ttl, None, None)]), Done)
  }

  function ReadRotation(a: AuthDb, hash: Digest, newHash: Digest, now: nat): (AuthDb, AuthReply) {
    var found := FindToken(a.tokens, hash);
    if found.None? || a.tokens[found.value].sessionId >= |a.sessions| then (a, Invalid)
    else
      var token := a.tokens[found.value];
      var session := a.sessions[token.sessionId];
      var reused := token.usedAt.Some? || token.revokedAt.Some?;
      var inactive := session.revokedAt.Some? || session.expiresAt <= now || token.expiresAt <= now;
      (a.(rotations := a.rotations + [Rotation(found.value, reused, inactive, newHash, now, true)]),
        Began(|a.rotations|))
  }

  function Exchange(a: AuthDb, t: Id, newHash: Digest, now: nat): AuthDb
    requires t < |a.tokens| && a.tokens[t].sessionId < |a.sessions|
  {
    var s := a.tokens[t].sessionId;
    var session := a.sessions[s];
    a.(tokens := a.tokens[t := a.tokens[t].(usedAt := Some(now))] + [Token(s, newHash, session.expiresAt, None, None)],
       sessions := a.sessions[s := session.(refreshHash := newHash, rotationCounter := session.rotationCounter + 1)],
       exchanged := a.exchanged + [t])
  }

  function FinishRotation(a: AuthDb, r: nat, accountActive: bool): (AuthDb, AuthReply) {
    if r >= |a.rotations| || !a.rotations[r].open then (a, Refused)
    else
      var call := a.rotations[r];
      var closed := a.(rotations := a.rotations[r := call.(open := false)]);
      if call.token >= |a.tokens| || a.tokens[call.token].sessionId >= |a.sessions| then (closed, Refused)
      else
        var token := a.tokens[call.token];
        var family := a.sessions[token.sessionId].family;
        var revoked := RevokeFamily(closed, family, call.now);
        if call.reused then (revoked.(burned := a.burned + {token.sessionId}), Reused)
        else if call.inactive || !accountActive then (revoked, Invalid)
        else if !Live(token) then (revoked.(burned := a.burned + {token.sessionId}), Reused)
        else if HashTaken(a.tokens, call.newHash) then (closed, Refused)
        else (Exchange(closed, call.token, call.newHash, call.now), Rotated(token.sessionId))
  }

  // ---------------------------------------------------------------- passkey.service

  function ReplaceChallenge(a: AuthDb, auth: Auth, purpose: Purpose, now: nat, ttl: nat): (AuthDb, AuthReply) {
    if !Authenticates(a.sessions, now, auth) then (a, Refused)
    else
      (a.(challenges := UseChallenges(a.challenges, auth.sessionId, purpose, now)
                        + [Challenge(auth.userId, auth.sessionId, purpose, now + ttl, None)]), Done)
  }

  function ReadChallenge(a: AuthDb, auth: Auth, purpose: Purpose, now: nat): (AuthDb, AuthReply) {
    var found := ActiveChallenge(a.challenges, auth, purpose, now);
    if !Authenticates(a.sessions, now, auth) || found.None? then (a, Refused)
    else (a.(verifications := a.verifications + [Verification(found.value, auth.sessionId, purpose, true)]),
          Began(|a.verifications|))
  }

  // verified is the verdict on the authenticator's response, and now the instant of the consuming update.
  function ConsumeChallenge(a: AuthDb, v: nat, verified: bool, now: nat): (AuthDb, AuthReply) {
    if v >= |a.verifications| || !a.verifications[v].open then (a, Refused)
    else
      var call := a.verifications[v];
      var closed := a.(verifications := a.verifications[v := call.(open := false)]);
      if !verified || call.challenge >= |a.challenges| || call.sessionId >= |a.sessions| then (closed, Refused)
      else
        var c := a.challenges[call.challenge];
        if c.usedAt.Some? || c.expiresAt <= now then (closed, Refused)
        else
          (closed.(
             challenges := a.challenges[call.challenge := c.(usedAt := Some(now))],
             consumed := a.consumed + [call.challenge],
             sessions := if call.purpose == StepUpPurpose
                         then a.sessions[call.sessionId := a.sessions[call.sessionId].(stepUpVerifiedAt := Some(now))]
                         else a.sessions), Done)
  }

  // ---------------------------------------------------------------- one step of any call

  function AuthApply(a: AuthDb, now: nat, step: AuthStep): (AuthDb, AuthReply) {
    match step
    case Create(userId, hash, ttl) => CreateSession(a, userId, hash, now, ttl)
    case BeginRotate(hash, newHash) => ReadRotation(a, hash, newHash, now)
    case CommitRotate(r, active) => FinishRotation(a, r, active)
    case Revoke(s) => if s < |a.sessions| then (RevokeFamily(a, a.sessions[s].family, now), Done) else (a, Done)
    case RevokeAll(userId) => (RevokeUser(a, userId, now), Done)
    case RequestChallenge(auth, purpose, ttl) => ReplaceChallenge(a, auth, purpose, now, ttl)
    case BeginVerify(auth, purpose) => ReadChallenge(a, auth, purpose, now)
    case CommitVerify(v, verified) => ConsumeChallenge(a, v, verified, now)
  }
}
