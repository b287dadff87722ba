/** The session and passkey services over the identity tables, each call in its read and its commit. */
module IdentityServices {
  import opened Basics
  import opened Schema
  import opened Sessions
  import opened SessionInvariant
  import opened SessionTheorems

  class IdentityDatabase {
    var sessions: seq<Session>
    var tokens: seq<Token>
    var challenges: seq<Challenge>
    var rotations: seq<Rotation>
    var verifications: seq<Verification>
    var exchanged: seq<Id>
    var consumed: seq<Id>
    var burned: set<Id>

    constructor ()
      ensures Rows() == EMPTY_AUTH
    {
      sessions, tokens, challenges, rotations, verifications, exchanged, consumed, burned := [], [], [], [], [], [],
        [], {};
    }

    /** The rows and the calls under way, as a value. */
    function Rows(): AuthDb
      reads this
    {
      AuthDb(sessions, tokens, challenges, rotations, verifications, exchanged, consumed, burned)
    }
  }

  class SessionService {
    const database: IdentityDatabase

    constructor (database: IdentityDatabase)
      ensures this.database == database
    {
      this.database := database;
    }

    method Create(userId: Id, hash: Digest, now: nat, ttl: nat) returns (reply: AuthReply)
      modifies database
      ensures (database.Rows(), reply) == CreateSession(old(database.Rows()), userId, hash, now, ttl)
    {
      if HashTaken(database.tokens, hash) { return Refused; }
      var expiresAt := now + ttl;
      database.sessions := database.sessions + [Session(userId, |database.sessions|, hash, 0, None, expiresAt, None)];
      database.tokens := database.tokens + [Token(|database.sessions| - 1, hash, expiresAt, None, None)];
      return Done;
    }

    /** The session checks of authenticateAccessToken; the account and membership checks are accountActive. */
    method AuthenticateAccessToken(auth: Auth, now: nat, accountActive: bool) returns (accepted: bool)
      ensures accepted <==>
        && auth.sessionId < |database.sessions|
        && database.sessions[auth.sessionId].userId == auth.userId
        && database.sessions[auth.sessionId].revokedAt == None && now < database.sessions[auth.sessionId].expiresAt
        && accountActive
      ensures accepted <==> Authenticates(database.sessions, now, auth) && accountActive
    {
      if auth.sessionId >= |database.sessions| { return false; }
      var session := database.sessions[auth.sessionId];
      if session.userId != auth.userId || session.revokedAt.Some? || session.expiresAt <= now { return false; }
      return accountActive;
    }

    // The transaction of rotate up to its conditional update: what the call has read.
    method BeginRotation(hash: Digest, newHash: Digest, now: nat) returns (reply: AuthReply)
      modifies database
      ensures (database.Rows(), reply) == ReadRotation(old(database.Rows()), hash, newHash, now)
    {
      var found := FindToken(database.tokens, hash);
      if found.None? || database.tokens[found.value].sessionId >= |database.sessions| { return Invalid; }
      var token := database.tokens[found.value];
      var session := database.sessions[token.sessionId];
      var reused := token.usedAt.Some? || token.revokedAt.Some?;
      var inactive := session.revokedAt.Some? || session.expiresAt <= now || token.expiresAt <= now;
      database.rotations := database.rotations + [Rotation(found.value, reused, inactive, newHash, now, true)];
      return Began(|database.rotations| - 1);
    }

    // The rest of the transaction.
    method CommitRotation(r: nat, accountActive: bool) returns (reply: AuthReply)
      modifies database
      ensures (database.Rows(), reply) == FinishRotation(old(database.Rows()), r, accountActive)
    {
      if r >= |database.rotations| || !database.rotations[r].open { return Refused; }
      var call := database.rotations[r];
      database.rotations := database.rotations[r := call.(open := false)];
      if call.token >= |database.tokens|
        || database.tokens[call.token].sessionId >= |database.sessions| { return Refused; }
      var token := database.tokens[call.token];
      var session := database.sessions[token.sessionId];
      if call.reused {
        RevokeFamily(session.family, call.now);
        database.burned := database.burned + {token.sessionId};
        return Reused;
      }
      if call.inactive || !accountActive {
        RevokeFamily(session.family, call.now);
        return Invalid;
      }
      if !Live(token) {
        RevokeFamily(session.family, call.now);
        database.burned := database.burned + {token.sessionId};
        return Reused;
      }
      if HashTaken(database.tokens, call.newHash) { return Refused; }
      ConsumeToken(call.token, call.newHash, call.now);
      return Rotated(token.sessionId);
    }

    method ConsumeToken(t: Id, newHash: Digest, now: nat)
      requires t < |database.tokens| && database.tokens[t].sessionId < |database.sessions|
      modifies database
      ensures database.Rows() == Exchange(old(database.Rows()), t, newHash, now)
    {
      var token := database.tokens[t];
      var session := database.sessions[token.sessionId];
      database.tokens := database.tokens[t := token.(usedAt := Some(now))];
      database.sessions := database.sessions[token.sessionId := session.(
        refreshHash := newHash, rotationCounter := session.rotationCounter + 1)];
      database.tokens := database.tokens + [Token(token.sessionId, newHash, session.expiresAt, None, None)];
      database.exchanged := database.exchanged + [t];
    }

    /** rotate with no other call between its read and its commit. A live token of an unexpired session of an active
        account is exchanged for a new one, and presenting any other token revokes its family. */
    method Rotate(hash: Digest, newHash: Digest, now: nat, accountActive: bool) returns (reply: AuthReply)
      requires AuthSound(database.Rows(), now)
      modifies database
      ensures AuthSound(database.Rows(), now) && AuthEvolves(old(database.Rows()), database.Rows())
      ensures var before := old(database.Rows());
        var t := FindToken(before.tokens, hash);
        if t.None? then reply == Invalid && database.Rows() == before
        else
          var s := before.tokens[t.value].sessionId;
          (reply.Rotated? || reply.Refused? <==>
             before.tokens[t.value].usedAt == None && before.tokens[t.value].revokedAt == None
             && now < before.sessions[s].expiresAt && accountActive)
          && (reply.Refused? ==> HashTaken(before.tokens, newHash))
          && (reply.Rotated? ==> reply == Rotated(s) && database.sessions[s].refreshHash == newHash)
          && (!reply.Rotated? && !reply.Refused? ==> Dead(database.Rows(), s))
    {
      ghost var before := database.Rows();
      ReadRotationKeeps(before, hash, newHash, now);
      if FindToken(before.tokens, hash).Some? {
        RotateResult(before, FindToken(before.tokens, hash).value, hash, newHash, now, accountActive);
      }
      hide AuthSound, AuthEvolves, FinishRotation, ReadRotation, Dead, HashTaken;
      reply := BeginRotation(hash, newHash, now);
      ghost var middle := database.Rows();
      if reply.Began? {
        FinishRotationKeeps(middle, reply.call, accountActive, now);
        reply := CommitRotation(reply.call, accountActive);
        EvolvesTransitively(before, middle, database.Rows());
      }
    }

    lemma RotateResult(a: AuthDb, t: Id, hash: Digest, newHash: Digest, now: nat, active: bool)
      requires AuthSound(a, now) && FindToken(a.tokens, hash) == Some(t)
      ensures var (b, began) := ReadRotation(a, hash, newHash, now);
        began.Began? &&
        var (c, reply) := FinishRotation(b, began.call, active);
        var s := a.tokens[t].sessionId;
        s < |a.sessions| && s < |c.sessions|
        && (reply.Rotated? || reply.Refused? <==> Live(a.tokens[t]) && now < a.sessions[s].expiresAt && active)
        && (reply.Refused? ==> HashTaken(a.tokens, newHash))
        && (reply.Rotated? ==> reply == Rotated(s) && c.sessions[s].refreshHash == newHash)
        && (!reply.Rotated? && !reply.Refused? ==> Dead(c, s))
        && !reply.Began?
    {
      assert TokenSound(a.sessions, a.tokens[t]);
      var (b, began) := ReadRotation(a, hash, newHash, now);
      var (c, reply) := FinishRotation(b, began.call, active);
      ReadRotationKeeps(a, hash, newHash, now);
      FinishRotationKeeps(b, began.call, active, now);
      var s := a.tokens[t].sessionId;
      if !reply.Rotated? && !reply.Refused? { RevokedIsDead(c, now, s); }
      hide AuthSound, AuthEvolves, Dead;
    }

    method Revoke(sessionId: Id, now: nat)
      modifies database
      ensures database.Rows() == AuthApply(old(database.Rows()), now, AuthStep.Revoke(sessionId)).0
    {
      if sessionId < |database.sessions| { RevokeFamily(database.sessions[sessionId].family, now); }
    }

    /** Revokes all sessions of a user and all their tokens; what was revoked before keeps its instant. */
    method RevokeAll(userId: Id, now: nat)
      modifies database
      ensures RevokesSome(old(database.Rows()), database.Rows(), SessionsOf(old(database.sessions), userId), now)
      ensures TokensSound(old(database.Rows())) ==>
        AllDead(database.Rows(), SessionsOf(old(database.sessions), userId))
      ensures database.Rows() == RevokeUser(old(database.Rows()), userId, now)
    {
      UserIsSessions(database.Rows(), userId, now);
      RevokedAreDead(database.Rows(), RevokeUser(database.Rows(), userId, now), SessionsOf(database.sessions, userId),
        now);
      ghost var after := RevokeUser(database.Rows(), userId, now);
      hide RevokesSome, TokensSound, AllDead, SessionsOf;
      var sessions, tokens := database.sessions, database.tokens;
      database.sessions := seq(|sessions|, i requires 0 <= i < |sessions| =>
        if sessions[i].userId == userId then RevokedSession(sessions[i], now) else sessions[i]);
      database.tokens := seq(|tokens|, i requires 0 <= i < |tokens| =>
        if tokens[i].sessionId < |sessions| && sessions[tokens[i].sessionId].userId == userId
        then RevokedToken(tokens[i], now) else tokens[i]);
      assert database.sessions == after.sessions && database.tokens == after.tokens;
    }

    /** Revokes the sessions of a family and all their tokens; what was revoked before keeps its instant. */
    method RevokeFamily(family: nat, now: nat)
      modifies database
      ensures RevokesSome(old(database.Rows()), database.Rows(), FamilySessions(old(database.sessions), family), now)
      ensures TokensSound(old(database.Rows())) ==>
        AllDead(database.Rows(), FamilySessions(old(database.sessions), family))
      ensures database.Rows() == Sessions.RevokeFamily(old(database.Rows()), family, now)
    {
      ghost var after := Sessions.RevokeFamily(database.Rows(), family, now);
      FamilyIsSessions(database.Rows(), family, now);
      RevokedAreDead(database.Rows(), after, FamilySessions(database.sessions, family), now);
      hide RevokesSome, TokensSound, AllDead, FamilySessions;
      var sessions, tokens := database.sessions, database.tokens;
      database.sessions := seq(|sessions|, i requires 0 <= i < |sessions| =>
        if sessions[i].family == family then RevokedSession(sessions[i], now) else sessions[i]);
      database.tokens := seq(|tokens|, i requires 0 <= i < |tokens| =>
        if tokens[i].sessionId < |sessions| && sessions[tokens[i].sessionId].family == family
        then RevokedToken(tokens[i], now) else tokens[i]);
      assert database.sessions == after.sessions && database.tokens == after.tokens;
    }
  }

  class PasskeyService {
    const database: IdentityDatabase

    constructor (database: IdentityDatabase)
      ensures this.database == database
    {
      this.database := database;
    }

    method ReplaceChallenge(auth: Auth, purpose: Purpose, now: nat, ttl: nat) returns (reply: AuthReply)
      modifies database
      ensures (database.Rows(), reply) == Sessions.ReplaceChallenge(old(database.Rows()), auth, purpose, now, ttl)
    {
      if !Authenticates(database.sessions, now, auth) { return Refused; }
      database.challenges := UseChallenges(database.challenges, auth.sessionId, purpose, now);
      database.challenges := database.challenges + [Challenge(auth.userId, auth.sessionId, purpose, now + ttl, None)];
      return Done;
    }

    // activeChallenge, with which every verification begins.
    method BeginVerification(auth: Auth, purpose: Purpose, now: nat) returns (reply: AuthReply)
      modifies database
      ensures (database.Rows(), reply) == ReadChallenge(old(database.Rows()), auth, purpose, now)
    {
      var challenge := ActiveChallenge(database.challenges, auth, purpose, now);
      if !Authenticates(database.sessions, now, auth) || challenge.None? { return Refused; }
      database.verifications := database.verifications + [Verification(challenge.value, auth.sessionId, purpose, true)];
      return Began(|database.verifications| - 1);
    }

    // The consuming transaction; verified is the verdict on the authenticator's response.
    method Consume(v: nat, verified: bool, now: nat) returns (reply: AuthReply)
      modifies database
      ensures (database.Rows(), reply) == ConsumeChallenge(old(database.Rows()), v, verified, now)
    {
      if v >= |database.verifications| || !database.verifications[v].open { return Refused; }
      var call := database.verifications[v];
      database.verifications := database.verifications[v := call.(open := false)];
      if !verified || call.challenge >= |database.challenges|
        || call.sessionId >= |database.sessions| { return Refused; }
      var challenge := database.challenges[call.challenge];
      if challenge.usedAt.Some? || challenge.expiresAt <= now { return Refused; }
      database.challenges := database.challenges[call.challenge := challenge.(usedAt := Some(now))];
      database.consumed := database.consumed + [call.challenge];
      if call.purpose == StepUpPurpose {
        database.sessions :=
          database.sessions[call.sessionId := database.sessions[call.sessionId].(stepUpVerifiedAt := Some(now))];
      }
      return Done;
    }
  }
}
