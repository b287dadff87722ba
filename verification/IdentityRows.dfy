/** What the session and passkey calls store and answer, in the columns of the rows. */
module IdentityRows {
  import opened Basics
  import opened Schema
  import opened Sessions
  import opened SessionInvariant

  // ---------------------------------------------------------------- sessions

  ghost predicate HasHash(tokens: seq<Token>, t: Id, hash: Digest) { t < |tokens| && tokens[t].hash == hash }

  // The caller's own session, unrevoked and unexpired.
  ghost predicate SignedIn(sessions: seq<Session>, now: nat, auth: Auth) {
    && auth.sessionId < |sessions| && sessions[auth.sessionId].userId == auth.userId
    && sessions[auth.sessionId].revokedAt == None && now < sessions[auth.sessionId].expiresAt
  }

  lemma SignedInAuthenticates(sessions: seq<Session>, now: nat, auth: Auth)
    ensures Authenticates(sessions, now, auth) <==> SignedIn(sessions, now, auth)
  {
  }

  /** A created session and its first token expire together, ttl from now; only a repeated hash is refused. */
  lemma CreateStores(a: AuthDb, userId: Id, hash: Digest, now: nat, ttl: nat)
    ensures var (b, reply) := CreateSession(a, userId, hash, now, ttl);
      && (reply == Refused <==> exists t: Id :: HasHash(a.tokens, t, hash))
      && (reply == Refused ==> b == a)
      && (reply != Refused ==>
            reply == Done && b == a.(
              sessions := a.sessions + [Session(userId, |a.sessions|, hash, 0, None, now + ttl, None)],
              tokens := a.tokens + [Token(|a.sessions|, hash, now + ttl, None, None)]))
  {
    assert HashTaken(a.tokens, hash) <==> exists t: Id :: HasHash(a.tokens, t, hash) by {
      if HashTaken(a.tokens, hash) {
        var t :| 0 <= t < |a.tokens| && a.tokens[t].hash == hash;
        assert HasHash(a.tokens, t, hash);
      }
    }
  }

  // ---------------------------------------------------------------- rotation

  /** The read of rotate notes whether the token is spent, and whether it, or its session, is past use. */
  lemma RotationReads(a: AuthDb, t: Id, hash: Digest, newHash: Digest, now: nat)
    requires TokensDistinct(a.tokens)
    ensures HasHash(a.tokens, t, hash) ==>
      var token := a.tokens[t];
      ReadRotation(a, hash, newHash, now) ==
        if token.sessionId >= |a.sessions| then (a, Invalid)
        else
          var session := a.sessions[token.sessionId];
          (a.(rotations := a.rotations + [Rotation(
             t, token.usedAt != None || token.revokedAt != None,
             session.revokedAt != None || session.expiresAt <= now || token.expiresAt <= now, newHash, now, true)]),
           Began(|a.rotations|))
    ensures (forall u: Id :: !HasHash(a.tokens, u, hash)) ==> ReadRotation(a, hash, newHash, now) == (a, Invalid)
  {
    var found := FindToken(a.tokens, hash);
    if found.Some? { assert HasHash(a.tokens, found.value, hash); }
    if HasHash(a.tokens, t, hash) { assert found == Some(t); }
  }

  // An open rotation of a token of a session.
  ghost predicate Rotating(a: AuthDb, r: nat, t: Id, s: Id) {
    && r < |a.rotations| && a.rotations[r].open && a.rotations[r].token == t
    && t < |a.tokens| && a.tokens[t].sessionId == s && s < |a.sessions|
  }

  ghost predicate Spent(t: Token) { t.usedAt != None || t.revokedAt != None }

  ghost predicate Taken(tokens: seq<Token>, hash: Digest) { exists t: Id :: HasHash(tokens, t, hash) }

  /** The commit of rotate answers by what the read noted, then by the token as it stands now. */
  lemma RotationAnswers(a: AuthDb, r: nat, accountActive: bool, t: Id, s: Id)
    requires Rotating(a, r, t, s)
    ensures FinishRotation(a, r, accountActive).1 ==
      if a.rotations[r].reused then Reused
      else if a.rotations[r].inactive || !accountActive then Invalid
      else if Spent(a.tokens[t]) then Reused
      else if Taken(a.tokens, a.rotations[r].newHash) then Refused
      else Rotated(s)
  {
    TakenIs(a.tokens, a.rotations[r].newHash);
    hide HashTaken, Taken, RevokeFamily;
  }

  lemma TakenIs(tokens: seq<Token>, hash: Digest)
    ensures HashTaken(tokens, hash) <==> Taken(tokens, hash)
  {
    if HashTaken(tokens, hash) {
      var t :| 0 <= t < |tokens| && tokens[t].hash == hash;
      assert HasHash(tokens, t, hash);
    }
  }

  /** A rotated token is used at the call's instant and replaced by one of the same session and expiry. */
  lemma RotationStores(a: AuthDb, r: nat, accountActive: bool, t: Id, s: Id)
    requires Rotating(a, r, t, s) && FinishRotation(a, r, accountActive).1 == Rotated(s)
    ensures var b, call := FinishRotation(a, r, accountActive).0, a.rotations[r];
      b == a.(
        rotations := a.rotations[r := call.(open := false)],
        tokens := a.tokens[t := a.tokens[t].(usedAt := Some(call.now))]
          + [Token(s, call.newHash, a.sessions[s].expiresAt, None, None)],
        sessions := a.sessions[s := a.sessions[s].(
          refreshHash := call.newHash, rotationCounter := a.sessions[s].rotationCounter + 1)],
        exchanged := a.exchanged + [t])
  {
  }

  /** A reused or invalid one revokes its session and all its tokens at the call's instant; a repeated hash does
      nothing. */
  lemma RotationKills(a: AuthDb, r: nat, accountActive: bool, t: Id, s: Id)
    requires TokensSound(a) && Rotating(a, r, t, s)
    ensures var (b, reply) := FinishRotation(a, r, accountActive);
      var closed := a.(rotations := a.rotations[r := a.rotations[r].(open := false)]);
      && (reply == Refused ==> b == closed)
      && (reply == Invalid ==> RevokesSome(closed, b, {s}, a.rotations[r].now))
      && (reply == Reused ==> RevokesSome(closed.(burned := a.burned + {s}), b, {s}, a.rotations[r].now))
  {
  }

  // ---------------------------------------------------------------- challenges

  // The challenge of this caller and purpose that is unused and unexpired.
  ghost predicate Open(cs: seq<Challenge>, c: Id, auth: Auth, purpose: Purpose, now: nat) {
    && c < |cs| && cs[c].userId == auth.userId && cs[c].sessionId == auth.sessionId && cs[c].purpose == purpose
    && cs[c].usedAt == None && now < cs[c].expiresAt
  }

  /** A new challenge expires ttl from now, and uses up the older ones of its session and purpose; only a caller
      without a current session is refused. */
  lemma ChallengeReplaces(a: AuthDb, auth: Auth, purpose: Purpose, now: nat, ttl: nat)
    ensures var (b, reply) := ReplaceChallenge(a, auth, purpose, now, ttl);
      && (reply == if SignedIn(a.sessions, now, auth) then Done else Refused)
      && (reply == Refused ==> b == a)
      && (reply == Done ==>
            var n := |a.challenges|;
            && |b.challenges| == n + 1 && b == a.(challenges := b.challenges)
            && b.challenges[n] == Challenge(auth.userId, auth.sessionId, purpose, now + ttl, None)
            && forall c :: 0 <= c < n ==>
                 b.challenges[c] == if a.challenges[c].sessionId == auth.sessionId
                                       && a.challenges[c].purpose == purpose && a.challenges[c].usedAt == None
                                    then a.challenges[c].(usedAt := Some(now)) else a.challenges[c])
  {
  }

  /** A verification begins on the newest open challenge of a signed-in caller. */
  lemma VerificationBegins(a: AuthDb, auth: Auth, purpose: Purpose, now: nat, c: Id)
    requires Open(a.challenges, c, auth, purpose, now)
    requires forall d :: c < d < |a.challenges| ==> !Open(a.challenges, d, auth, purpose, now)
    ensures ReadChallenge(a, auth, purpose, now) ==
      if SignedIn(a.sessions, now, auth)
      then (a.(verifications := a.verifications + [Verification(c, auth.sessionId, purpose, true)]),
            Began(|a.verifications|))
      else (a, Refused)
  {
    var found := ActiveChallenge(a.challenges, auth, purpose, now);
    assert Answerable(a.challenges[c], auth, purpose, now);
    assert found.Some? ==> Open(a.challenges, found.value, auth, purpose, now);
    assert found == Some(c);
  }

  lemma NothingToVerify(a: AuthDb, auth: Auth, purpose: Purpose, now: nat)
    requires forall c: Id :: !Open(a.challenges, c, auth, purpose, now)
    ensures ReadChallenge(a, auth, purpose, now) == (a, Refused)
  {
    var found := ActiveChallenge(a.challenges, auth, purpose, now);
    assert found.Some? ==> Open(a.challenges, found.value, auth, purpose, now);
  }

  // An open verification of an existing challenge and session.
  ghost predicate Verifying(a: AuthDb, v: nat) {
    && v < |a.verifications| && a.verifications[v].open
    && a.verifications[v].challenge < |a.challenges| && a.verifications[v].sessionId < |a.sessions|
  }

  /** A challenge is consumed exactly when the response is good and the challenge is still unused and unexpired; a
      step-up then leaves its instant on the session. */
  lemma ConsumeStores(a: AuthDb, v: nat, verified: bool, now: nat)
    requires Verifying(a, v)
    ensures var (b, reply) := ConsumeChallenge(a, v, verified, now);
      var call := a.verifications[v];
      var c, s := call.challenge, call.sessionId;
      var closed := a.(verifications := a.verifications[v := call.(open := false)]);
      var good := verified && a.challenges[c].usedAt == None && now < a.challenges[c].expiresAt;
      && reply == (if good then Done else Refused)
      && b == if !good then closed else closed.(
           challenges := a.challenges[c := a.challenges[c].(usedAt := Some(now))], consumed := a.consumed + [c],
           sessions := if call.purpose == StepUpPurpose
                       then a.sessions[s := a.sessions[s].(stepUpVerifiedAt := Some(now))] else a.sessions)
  {
  }
}
