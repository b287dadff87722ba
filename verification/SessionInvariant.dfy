/** What every interleaving of session and passkey calls keeps. */
module SessionInvariant {
  import opened Basics
  import opened Schema
  import opened Sessions

  // ---------------------------------------------------------------- tokens and sessions

  function CountTokens(tokens: seq<Token>, s: Id): nat {
    if tokens == [] then 0
    else CountTokens(tokens[..|tokens| - 1], s) + if tokens[|tokens| - 1].sessionId == s then 1 else 0
  }

  ghost predicate TokenSound(sessions: seq<Session>, t: Token) {
    && t.sessionId < |sessions|
    && t.expiresAt == sessions[t.sessionId].expiresAt
    && (sessions[t.sessionId].revokedAt.Some? ==> t.revokedAt.Some?)
    && (Live(t) ==> t.hash == sessions[t.sessionId].refreshHash)
  }

  ghost predicate HasLive(tokens: seq<Token>, s: Id) {
    exists t :: 0 <= t < |tokens| && tokens[t].sessionId == s && Live(tokens[t])
  }

  ghost predicate SessionSound(tokens: seq<Token>, s: Id, session: Session) {
    && session.family == s
    && (session.revokedAt.None? ==> HasLive(tokens, s))
    && CountTokens(tokens, s) == session.rotationCounter + 1
  }

  ghost predicate TokensDistinct(tokens: seq<Token>) {
    forall t, u :: 0 <= t < u < |tokens| ==> tokens[t].hash != tokens[u].hash
  }

  ghost predicate ExchangesSound(a: AuthDb) {
    && (forall i :: 0 <= i < |a.exchanged| ==> a.exchanged[i] < |a.tokens| && a.tokens[a.exchanged[i]].usedAt.Some?)
    && (forall i, j :: 0 <= i < j < |a.exchanged| ==> a.exchanged[i] != a.exchanged[j])
    && (forall s :: s in a.burned ==> s < |a.sessions| && a.sessions[s].revokedAt.Some?)
  }

  // ---------------------------------------------------------------- challenges

  ghost predicate ConsumedOnce(a: AuthDb) {
    && (forall i :: 0 <= i < |a.consumed| ==>
         a.consumed[i] < |a.challenges| && a.challenges[a.consumed[i]].usedAt.Some?)
    && (forall i, j :: 0 <= i < j < |a.consumed| ==> a.consumed[i] != a.consumed[j])
  }

  // A consumed step-up challenge of this user and session vouches for the instant.
  ghost predicate Vouches(a: AuthDb, c: Id, userId: Id, sessionId: Id, at: nat) {
    && c < |a.challenges| && c in a.consumed
    && a.challenges[c].purpose == StepUpPurpose && a.challenges[c].userId == userId
    && a.challenges[c].sessionId == sessionId && a.challenges[c].usedAt == Some(at) && at < a.challenges[c].expiresAt
  }

  ghost predicate Vouched(a: AuthDb, userId: Id, sessionId: Id, at: nat) {
    exists c: Id :: Vouches(a, c, userId, sessionId, at)
  }

  ghost predicate StepUpsSound(a: AuthDb, now: nat) {
    forall s :: 0 <= s < |a.sessions| && a.sessions[s].stepUpVerifiedAt.Some? ==>
      a.sessions[s].stepUpVerifiedAt.value <= now
      && Vouched(a, a.sessions[s].userId, s, a.sessions[s].stepUpVerifiedAt.value)
  }

  ghost predicate ChallengesSound(a: AuthDb) {
    && (forall c :: 0 <= c < |a.challenges| ==>
          a.challenges[c].sessionId < |a.sessions|
            && a.challenges[c].userId == a.sessions[a.challenges[c].sessionId].userId)
    && (forall v :: 0 <= v < |a.verifications| ==>
          a.verifications[v].challenge < |a.challenges|
          && a.challenges[a.verifications[v].challenge].sessionId == a.verifications[v].sessionId
          && a.challenges[a.verifications[v].challenge].purpose == a.verifications[v].purpose)
  }

  ghost predicate TokensSound(a: AuthDb) {
    && (forall t :: 0 <= t < |a.tokens| ==> TokenSound(a.sessions, a.tokens[t]))
    && (forall s :: 0 <= s < |a.sessions| ==> SessionSound(a.tokens, s, a.sessions[s]))
    && TokensDistinct(a.tokens) && ExchangesSound(a)
  }

  ghost predicate PasskeysSound(a: AuthDb, now: nat) {
    ConsumedOnce(a) && ChallengesSound(a) && StepUpsSound(a, now)
  }

  ghost predicate AuthSound(a: AuthDb, now: nat) {
    TokensSound(a) && PasskeysSound(a, now)
  }

  // ---------------------------------------------------------------- what no step undoes

  ghost predicate AuthEvolves(a: AuthDb, b: AuthDb) {
    && |a.sessions| <= |b.sessions| && |a.tokens| <= |b.tokens| && |a.challenges| <= |b.challenges|
    && a.exchanged <= b.exchanged && a.consumed <= b.consumed && a.burned <= b.burned
    && (forall s :: 0 <= s < |a.sessions| ==>
          b.sessions[s].userId == a.sessions[s].userId && b.sessions[s].expiresAt == a.sessions[s].expiresAt
          && (a.sessions[s].revokedAt.Some? ==> b.sessions[s].revokedAt.Some?))
    && (forall t :: 0 <= t < |a.tokens| ==>
          b.tokens[t].sessionId == a.tokens[t].sessionId && b.tokens[t].hash == a.tokens[t].hash
          && b.tokens[t].expiresAt == a.tokens[t].expiresAt
          && (a.tokens[t].usedAt.Some? ==> b.tokens[t].usedAt == a.tokens[t].usedAt)
          && (a.tokens[t].revokedAt.Some? ==> b.tokens[t].revokedAt == a.tokens[t].revokedAt))
    && (forall c :: 0 <= c < |a.challenges| ==>
          b.challenges[c] == a.challenges[c]
            || (a.challenges[c].usedAt.None? && b.challenges[c] == a.challenges[c].(usedAt := b.challenges[c].usedAt)))
  }

  // ---------------------------------------------------------------- revocation

  lemma CountKept(tokens: seq<Token>, tokens': seq<Token>, s: Id)
    requires |tokens'| == |tokens| && forall t :: 0 <= t < |tokens| ==> tokens'[t].sessionId == tokens[t].sessionId
    ensures CountTokens(tokens', s) == CountTokens(tokens, s)
  {
  }

  // Revoking some sessions and exactly their tokens; what was revoked before keeps its instant.
  ghost predicate RevokesSome(a: AuthDb, b: AuthDb, chosen: set<Id>, at: nat) {
    && b == a.(sessions := b.sessions, tokens := b.tokens)
    && |b.sessions| == |a.sessions| && |b.tokens| == |a.tokens|
    && (forall s :: 0 <= s < |a.sessions| ==>
          b.sessions[s] == if s in chosen && a.sessions[s].revokedAt == None
                           then a.sessions[s].(revokedAt := Some(at)) else a.sessions[s])
    && (forall t :: 0 <= t < |a.tokens| ==>
          b.tokens[t] == if a.tokens[t].sessionId in chosen && a.tokens[t].revokedAt == None
                         then a.tokens[t].(revokedAt := Some(at)) else a.tokens[t])
  }

  lemma RevokingKeepsTokens(a: AuthDb, b: AuthDb, chosen: set<Id>, at: nat)
    requires TokensSound(a) && RevokesSome(a, b, chosen, at)
    ensures TokensSound(b)
  {
    forall t | 0 <= t < |b.tokens| ensures TokenSound(b.sessions, b.tokens[t]) {
      assert TokenSound(a.sessions, a.tokens[t]);
    }
    forall s | 0 <= s < |b.sessions| ensures SessionSound(b.tokens, s, b.sessions[s]) {
      assert SessionSound(a.tokens, s, a.sessions[s]);
      CountKept(a.tokens, b.tokens, s);
      if b.sessions[s].revokedAt.None? {
        var t :| 0 <= t < |a.tokens| && a.tokens[t].sessionId == s && Live(a.tokens[t]);
        assert b.tokens[t] == a.tokens[t];
      }
    }
  }

  lemma RevokingKeepsPasskeys(a: AuthDb, b: AuthDb, chosen: set<Id>, at: nat, now: nat)
    requires PasskeysSound(a, now) && RevokesSome(a, b, chosen, at)
    ensures PasskeysSound(b, now)
  {
    forall s | 0 <= s < |b.sessions| && b.sessions[s].stepUpVerifiedAt.Some?
      ensures Vouched(b, b.sessions[s].userId, s, b.sessions[s].stepUpVerifiedAt.value)
    {
      var c: Id :| Vouches(a, c, a.sessions[s].userId, s, a.sessions[s].stepUpVerifiedAt.value);
      assert Vouches(b, c, b.sessions[s].userId, s, b.sessions[s].stepUpVerifiedAt.value);
    }
  }

  function FamilySessions(sessions: seq<Session>, family: nat): set<Id> {
    set s: Id | s < |sessions| && sessions[s].family == family
  }

  function SessionsOf(sessions: seq<Session>, userId: Id): set<Id> {
    set s: Id | s < |sessions| && sessions[s].userId == userId
  }

  lemma FamilyIsSessions(a: AuthDb, family: nat, at: nat)
    ensures RevokesSome(a, RevokeFamily(a, family, at), FamilySessions(a.sessions, family), at)
  {
  }

  lemma FamilyIsSession(a: AuthDb, s: Id, at: nat)
    requires TokensSound(a) && s < |a.sessions|
    ensures FamilySessions(a.sessions, a.sessions[s].family) == {s}
    ensures RevokesSome(a, RevokeFamily(a, a.sessions[s].family, at), {s}, at)
  {
    FamilyIsSessions(a, a.sessions[s].family, at);
    forall r | 0 <= r < |a.sessions| ensures a.sessions[r].family == r {
      assert SessionSound(a.tokens, r, a.sessions[r]);
    }
    assert FamilySessions(a.sessions, a.sessions[s].family) == {s};
  }

  lemma UserIsSessions(a: AuthDb, userId: Id, at: nat)
    ensures RevokesSome(a, RevokeUser(a, userId, at), SessionsOf(a.sessions, userId), at)
  {
  }

  lemma RevokingKeeps(a: AuthDb, b: AuthDb, chosen: set<Id>, at: nat, now: nat)
    requires AuthSound(a, now) && RevokesSome(a, b, chosen, at)
    ensures AuthSound(b, now) && AuthEvolves(a, b)
  {
    RevokingKeepsTokens(a, b, chosen, at);
    RevokingKeepsPasskeys(a, b, chosen, at, now);
  }

  // ---------------------------------------------------------------- create and exchange

  lemma CountAppend(tokens: seq<Token>, t: Token, s: Id)
    ensures CountTokens(tokens + [t], s) == CountTokens(tokens, s) + if t.sessionId == s then 1 else 0
  {
  }

  lemma CountNone(tokens: seq<Token>, s: Id)
    requires forall t :: 0 <= t < |tokens| ==> tokens[t].sessionId != s
    ensures CountTokens(tokens, s) == 0
  {
  }

  lemma CreateKeeps(a: AuthDb, userId: Id, hash: Digest, now: nat, ttl: nat)
    requires AuthSound(a, now)
    ensures var b := CreateSession(a, userId, hash, now, ttl).0; TokensSound(b) && AuthEvolves(a, b)
  {
    var b := CreateSession(a, userId, hash, now, ttl).0;
    if b != a {
      var n := |a.sessions|;
      forall t | 0 <= t < |b.tokens| ensures TokenSound(b.sessions, b.tokens[t]) {
        if t < |a.tokens| { assert TokenSound(a.sessions, a.tokens[t]); }
      }
      forall s | 0 <= s <= n ensures SessionSound(b.tokens, s, b.sessions[s]) {
        CountAppend(a.tokens, b.tokens[|a.tokens|], s);
        if s < n {
          assert SessionSound(a.tokens, s, a.sessions[s]);
          if a.sessions[s].revokedAt.None? {
            var t :| 0 <= t < |a.tokens| && a.tokens[t].sessionId == s && Live(a.tokens[t]);
            assert b.tokens[t] == a.tokens[t];
          }
        } else {
          forall t | 0 <= t < |a.tokens|
            ensures a.tokens[t].sessionId != n
          {
            assert TokenSound(a.sessions, a.tokens[t]);
          }
          CountNone(a.tokens, n);
          assert Live(b.tokens[|a.tokens|]);
        }
      }
    }
  }

  ghost predicate OneLive(a: AuthDb) {
    forall t, u :: 0 <= t < u < |a.tokens| && Live(a.tokens[t]) && Live(a.tokens[u]) ==>
      a.tokens[t].sessionId != a.tokens[u].sessionId
  }

  lemma LiveTokensDiffer(a: AuthDb)
    requires TokensSound(a)
    ensures OneLive(a)
  {
  }

  lemma ExchangeKeepsRows(a: AuthDb, t: Id, newHash: Digest, at: nat)
    requires TokensSound(a) && t < |a.tokens| && Live(a.tokens[t]) && a.tokens[t].sessionId < |a.sessions|
    ensures var b := Exchange(a, t, newHash, at);
      forall u :: 0 <= u < |b.tokens| ==> TokenSound(b.sessions, b.tokens[u])
  {
  }

  lemma ExchangeKeepsSessions(a: AuthDb, t: Id, newHash: Digest, at: nat)
    requires TokensSound(a) && t < |a.tokens| && Live(a.tokens[t]) && a.tokens[t].sessionId < |a.sessions|
    ensures var b := Exchange(a, t, newHash, at);
      forall s :: 0 <= s < |b.sessions| ==> SessionSound(b.tokens, s, b.sessions[s])
  {
    var b := Exchange(a, t, newHash, at);
    var s0, n := a.tokens[t].sessionId, |a.tokens|;
    var marked := a.tokens[t := a.tokens[t].(usedAt := Some(at))];
    forall s | 0 <= s < |b.sessions| ensures SessionSound(b.tokens, s, b.sessions[s]) {
      assert SessionSound(a.tokens, s, a.sessions[s]);
      CountKept(a.tokens, marked, s);
      CountAppend(marked, b.tokens[n], s);
      if s == s0 {
        assert Live(b.tokens[n]);
      } else if a.sessions[s].revokedAt.None? {
        var u :| 0 <= u < |a.tokens| && a.tokens[u].sessionId == s && Live(a.tokens[u]);
        assert b.tokens[u] == a.tokens[u];
      }
    }
  }

  lemma ExchangeKeeps(a: AuthDb, t: Id, newHash: Digest, at: nat)
    requires TokensSound(a) && t < |a.tokens| && Live(a.tokens[t]) && a.tokens[t].sessionId < |a.sessions|
    requires !HashTaken(a.tokens, newHash)
    ensures TokensSound(Exchange(a, t, newHash, at)) && AuthEvolves(a, Exchange(a, t, newHash, at))
  {
    ExchangeKeepsRows(a, t, newHash, at);
    ExchangeKeepsSessions(a, t, newHash, at);
    hide TokenSound, SessionSound;
  }

  // Only the in-flight calls, the log of burned sessions or a session's own row changed.
  lemma ExchangeKeepsPasskeys(a: AuthDb, b: AuthDb, now: nat)
    requires PasskeysSound(a, now) && b.challenges == a.challenges && b.consumed == a.consumed
    requires b.verifications == a.verifications && |b.sessions| >= |a.sessions|
    requires forall s :: 0 <= s < |a.sessions| ==>
      b.sessions[s].userId == a.sessions[s].userId && b.sessions[s].stepUpVerifiedAt == a.sessions[s].stepUpVerifiedAt
    requires forall s :: |a.sessions| <= s < |b.sessions| ==> b.sessions[s].stepUpVerifiedAt.None?
    ensures PasskeysSound(b, now)
  {
    forall s | 0 <= s < |b.sessions| && b.sessions[s].stepUpVerifiedAt.Some?
      ensures Vouched(b, b.sessions[s].userId, s, b.sessions[s].stepUpVerifiedAt.value)
    {
      var c: Id :| Vouches(a, c, a.sessions[s].userId, s, a.sessions[s].stepUpVerifiedAt.value);
      assert Vouches(b, c, b.sessions[s].userId, s, b.sessions[s].stepUpVerifiedAt.value);
    }
  }

  // Closing the call, then revoking the family, with or without recording the reuse.
  lemma RevokedRotationKeeps(a: AuthDb, s: Id, at: nat, burned: set<Id>, now: nat)
    requires AuthSound(a, now) && s < |a.sessions| && burned <= a.burned + {s} && a.burned <= burned
    ensures var b := RevokeFamily(a, a.sessions[s].family, at).(burned := burned);
      AuthSound(b, now) && AuthEvolves(a, b)
  {
    var revoked := RevokeFamily(a, a.sessions[s].family, at);
    FamilyIsSession(a, s, at);
    RevokingKeeps(a, revoked, {s}, at, now);
    assert revoked.sessions[s].revokedAt.Some?;
    hide RevokeFamily, RevokesSome;
    ExchangeKeepsPasskeys(revoked, revoked.(burned := burned), now);
  }

  lemma ClosingKeeps(a: AuthDb, rotations: seq<Rotation>, now: nat)
    requires AuthSound(a, now)
    ensures AuthSound(a.(rotations := rotations), now) && AuthEvolves(a, a.(rotations := rotations))
  {
    ExchangeKeepsPasskeys(a, a.(rotations := rotations), now);
  }

  lemma EvolvesAfterClosing(a: AuthDb, rotations: seq<Rotation>, b: AuthDb)
    requires AuthEvolves(a.(rotations := rotations), b)
    ensures AuthEvolves(a, b)
  {
  }

  lemma FinishRotationKeeps(a: AuthDb, r: nat, active: bool, now: nat)
    requires AuthSound(a, now)
    ensures var b := FinishRotation(a, r, active).0; AuthSound(b, now) && AuthEvolves(a, b)
  {
    if r < |a.rotations| && a.rotations[r].open {
      var call := a.rotations[r];
      var rotations := a.rotations[r := call.(open := false)];
      var closed := a.(rotations := rotations);
      var b := FinishRotation(a, r, active).0;
      ClosingKeeps(a, rotations, now);
      if call.token < |a.tokens| && a.tokens[call.token].sessionId < |a.sessions| {
        hide AuthSound, AuthEvolves, RevokeFamily, Exchange, HashTaken;
        var s := a.tokens[call.token].sessionId;
        RevokedRotationKeeps(closed, s, call.now, a.burned + {s}, now);
        RevokedRotationKeeps(closed, s, call.now, a.burned, now);
        if Live(a.tokens[call.token]) && !HashTaken(a.tokens, call.newHash) {
          ExchangedKeeps(closed, call.token, call.newHash, call.now, now);
        }
        assert RevokeFamily(closed, a.sessions[s].family, call.now).burned == a.burned
          by { BurnedUntouched(closed, a.sessions[s].family, call.now); }
        assert AuthSound(b, now) && AuthEvolves(closed, b);
        EvolvesAfterClosing(a, rotations, b);
      }
    }
  }

  lemma BurnedUntouched(a: AuthDb, family: nat, at: nat)
    ensures RevokeFamily(a, family, at).burned == a.burned
  {
  }

  lemma ExchangedKeeps(a: AuthDb, t: Id, newHash: Digest, at: nat, now: nat)
    requires AuthSound(a, now) && t < |a.tokens| && Live(a.tokens[t]) && a.tokens[t].sessionId < |a.sessions|
    requires !HashTaken(a.tokens, newHash)
    ensures AuthSound(Exchange(a, t, newHash, at), now) && AuthEvolves(a, Exchange(a, t, newHash, at))
  {
    hide TokensSound;
    ExchangeKeeps(a, t, newHash, at);
    ExchangeKeepsPasskeys(a, Exchange(a, t, newHash, at), now);
  }

  // ---------------------------------------------------------------- passkeys

  lemma SameTokensKeep(a: AuthDb, b: AuthDb)
    requires TokensSound(a) && b.tokens == a.tokens && b.exchanged == a.exchanged && b.burned == a.burned
    requires |b.sessions| == |a.sessions|
    requires forall s :: 0 <= s < |a.sessions| ==>
      b.sessions[s].(stepUpVerifiedAt := a.sessions[s].stepUpVerifiedAt) == a.sessions[s]
    ensures TokensSound(b)
  {
  }

  lemma ReplacedChallengesVouch(a: AuthDb, auth: Auth, purpose: Purpose, now: nat, ttl: nat)
    requires PasskeysSound(a, now)
    ensures PasskeysSound(ReplaceChallenge(a, auth, purpose, now, ttl).0, now)
  {
    var b := ReplaceChallenge(a, auth, purpose, now, ttl).0;
    forall s | 0 <= s < |b.sessions| && b.sessions[s].stepUpVerifiedAt.Some?
      ensures Vouched(b, b.sessions[s].userId, s, b.sessions[s].stepUpVerifiedAt.value)
    {
      var c: Id :| Vouches(a, c, a.sessions[s].userId, s, a.sessions[s].stepUpVerifiedAt.value);
      assert Vouches(b, c, b.sessions[s].userId, s, b.sessions[s].stepUpVerifiedAt.value);
    }
  }

  lemma ReplaceChallengeKeeps(a: AuthDb, auth: Auth, purpose: Purpose, now: nat, ttl: nat)
    requires AuthSound(a, now)
    ensures var b := ReplaceChallenge(a, auth, purpose, now, ttl).0; AuthSound(b, now) && AuthEvolves(a, b)
  {
    ReplacedChallengesVouch(a, auth, purpose, now, ttl);
    hide PasskeysSound, TokensSound;
    SameTokensKeep(a, ReplaceChallenge(a, auth, purpose, now, ttl).0);
  }

  lemma ReadChallengeKeeps(a: AuthDb, auth: Auth, purpose: Purpose, now: nat)
    requires AuthSound(a, now)
    ensures var b := ReadChallenge(a, auth, purpose, now).0; AuthSound(b, now) && AuthEvolves(a, b)
  {
    var b := ReadChallenge(a, auth, purpose, now).0;
    SameTokensKeep(a, b);
    forall s | 0 <= s < |b.sessions| && b.sessions[s].stepUpVerifiedAt.Some?
      ensures Vouched(b, b.sessions[s].userId, s, b.sessions[s].stepUpVerifiedAt.value)
    {
      var c: Id :| Vouches(a, c, a.sessions[s].userId, s, a.sessions[s].stepUpVerifiedAt.value);
      assert Vouches(b, c, b.sessions[s].userId, s, b.sessions[s].stepUpVerifiedAt.value);
    }
  }

  lemma ConsumeChallengeKeeps(a: AuthDb, v: nat, verified: bool, now: nat)
    requires AuthSound(a, now)
    ensures var b := ConsumeChallenge(a, v, verified, now).0; AuthSound(b, now) && AuthEvolves(a, b)
  {
    var b := ConsumeChallenge(a, v, verified, now).0;
    SameTokensKeep(a, b);
    forall s | 0 <= s < |b.sessions| && b.sessions[s].stepUpVerifiedAt.Some?
      ensures b.sessions[s].stepUpVerifiedAt.value <= now
      ensures Vouched(b, b.sessions[s].userId, s, b.sessions[s].stepUpVerifiedAt.value)
    {
      if b.sessions[s].stepUpVerifiedAt == a.sessions[s].stepUpVerifiedAt {
        var c: Id :| Vouches(a, c, a.sessions[s].userId, s, a.sessions[s].stepUpVerifiedAt.value);
        assert b.challenges[c] == a.challenges[c] && c in b.consumed;
        assert Vouches(b, c, b.sessions[s].userId, s, b.sessions[s].stepUpVerifiedAt.value);
      } else {
        var c := a.verifications[v].challenge;
        assert b.consumed[|a.consumed|] == c;
        assert Vouches(b, c, b.sessions[s].userId, s, now);
      }
    }
    ConsumeKeepsOnce(a, v, verified, now);
  }

  lemma ConsumeKeepsOnce(a: AuthDb, v: nat, verified: bool, now: nat)
    requires AuthSound(a, now)
    ensures var b := ConsumeChallenge(a, v, verified, now).0; ConsumedOnce(b) && ChallengesSound(b)
  {
  }

  // ---------------------------------------------------------------- any step

  lemma ReadRotationKeeps(a: AuthDb, hash: Digest, newHash: Digest, now: nat)
    requires AuthSound(a, now)
    ensures var b := ReadRotation(a, hash, newHash, now).0; AuthSound(b, now) && AuthEvolves(a, b)
  {
    var b := ReadRotation(a, hash, newHash, now).0;
    ExchangeKeepsPasskeys(a, b, now);
  }

  lemma AuthStepKeeps(a: AuthDb, now: nat, step: AuthStep)
    requires AuthSound(a, now)
    ensures var b := AuthApply(a, now, step).0; AuthSound(b, now) && AuthEvolves(a, b)
  {
    hide AuthSound, AuthEvolves, FinishRotation, RevokeFamily, RevokeUser;
    hide CreateSession, ReplaceChallenge, ReadChallenge, ConsumeChallenge, ReadRotation;
    match step
    case Create(userId, hash, ttl) => CreateStepKeeps(a, userId, hash, now, ttl);
    case BeginRotate(hash, newHash) => ReadRotationKeeps(a, hash, newHash, now);
    case CommitRotate(r, active) => FinishRotationKeeps(a, r, active, now);
    case Revoke(s) => RevokeStepKeeps(a, s, now);
    case RevokeAll(userId) => RevokeAllStepKeeps(a, userId, now);
    case RequestChallenge(auth, purpose, ttl) => ReplaceChallengeKeeps(a, auth, purpose, now, ttl);
    case BeginVerify(auth, purpose) => ReadChallengeKeeps(a, auth, purpose, now);
    case CommitVerify(v, verified) => ConsumeChallengeKeeps(a, v, verified, now);
  }

  lemma CreateStepKeeps(a: AuthDb, userId: Id, hash: Digest, now: nat, ttl: nat)
    requires AuthSound(a, now)
    ensures var b := CreateSession(a, userId, hash, now, ttl).0; AuthSound(b, now) && AuthEvolves(a, b)
  {
    CreateKeeps(a, userId, hash, now, ttl);
    ExchangeKeepsPasskeys(a, CreateSession(a, userId, hash, now, ttl).0, now);
  }

  lemma RevokeStepKeeps(a: AuthDb, s: Id, now: nat)
    requires AuthSound(a, now)
    ensures var b := AuthApply(a, now, Revoke(s)).0; AuthSound(b, now) && AuthEvolves(a, b)
  {
    if s < |a.sessions| {
      FamilyIsSession(a, s, now);
      RevokingKeeps(a, RevokeFamily(a, a.sessions[s].family, now), {s}, now, now);
    }
  }

  lemma RevokeAllStepKeeps(a: AuthDb, userId: Id, now: nat)
    requires AuthSound(a, now)
    ensures var b := RevokeUser(a, userId, now); AuthSound(b, now) && AuthEvolves(a, b)
  {
    UserIsSessions(a, userId, now);
    RevokingKeeps(a, RevokeUser(a, userId, now), SessionsOf(a.sessions, userId), now, now);
  }
}
