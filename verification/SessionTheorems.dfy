/** Rotation and step-up over whole runs: any number of calls, each split between read and commit. */
module SessionTheorems {
  import opened Schema
  import opened Sessions
  import opened SessionInvariant

  // A step, and how far the clock moves before it.
  datatype Tick = Tick(elapsed: nat, step: AuthStep)

  function AuthRun(a: AuthDb, now: nat, ticks: seq<Tick>): AuthDb
    decreases |ticks|
  {
    if ticks == [] then a
    else AuthRun(AuthApply(a, now + ticks[0].elapsed, ticks[0].step).0, now + ticks[0].elapsed, ticks[1..])
  }

  function Clock(now: nat, ticks: seq<Tick>): (r: nat)
    ensures r >= now
    decreases |ticks|
  {
    if ticks == [] then now else Clock(now + ticks[0].elapsed, ticks[1..])
  }

  lemma EvolvesTransitively(a: AuthDb, b: AuthDb, c: AuthDb)
    requires AuthEvolves(a, b) && AuthEvolves(b, c)
    ensures AuthEvolves(a, c)
  {
  }

  lemma LaterIsSound(a: AuthDb, now: nat, later: nat)
    requires AuthSound(a, now) && now <= later
    ensures AuthSound(a, later)
  {
  }

  lemma NothingEvolves(a: AuthDb)
    ensures AuthEvolves(a, a)
  {
  }

  lemma EmptyAuthIsSound()
    ensures AuthSound(EMPTY_AUTH, 0)
  {
  }

  /** Every state of every run satisfies the session invariant, and keeps what earlier states revoked or used. */
  lemma {:induction false} AuthRunKeeps(a: AuthDb, now: nat, ticks: seq<Tick>)
    requires AuthSound(a, now)
    ensures AuthSound(AuthRun(a, now, ticks), Clock(now, ticks)) && AuthEvolves(a, AuthRun(a, now, ticks))
    decreases |ticks|
  {
    hide AuthSound, AuthEvolves, AuthApply;
    if ticks == [] {
      NothingEvolves(a);
    } else {
      var at := now + ticks[0].elapsed;
      var b := AuthApply(a, at, ticks[0].step).0;
      LaterIsSound(a, now, at);
      AuthStepKeeps(a, at, ticks[0].step);
      AuthRunKeeps(b, at, ticks[1..]);
      EvolvesTransitively(a, b, AuthRun(a, now, ticks));
    }
  }

  // ---------------------------------------------------------------- rotation

  ghost predicate OnlyLive(a: AuthDb, t: Id, s: Id) {
    && t < |a.tokens| && a.tokens[t].sessionId == s && Live(a.tokens[t])
    && forall u :: 0 <= u < |a.tokens| && a.tokens[u].sessionId == s && Live(a.tokens[u]) ==> u == t
  }

  /** An unrevoked session has exactly one live token, the one it names; it has rotated once per other token, and
      its tokens share its expiry. */
  lemma OneLiveToken(ticks: seq<Tick>, s: Id)
    requires s < |AuthRun(EMPTY_AUTH, 0, ticks).sessions|
    ensures var a := AuthRun(EMPTY_AUTH, 0, ticks);
      && CountTokens(a.tokens, s) == a.sessions[s].rotationCounter + 1
      && (forall t :: 0 <= t < |a.tokens| && a.tokens[t].sessionId == s ==>
           a.tokens[t].expiresAt == a.sessions[s].expiresAt)
      && (a.sessions[s].revokedAt.None? <==>
            exists t: Id :: OnlyLive(a, t, s) && a.tokens[t].hash == a.sessions[s].refreshHash)
  {
    var a := AuthRun(EMPTY_AUTH, 0, ticks);
    EmptyAuthIsSound();
    AuthRunKeeps(EMPTY_AUTH, 0, ticks);
    hide AuthRun, PasskeysSound;
    assert SessionSound(a.tokens, s, a.sessions[s]);
    LiveTokensDiffer(a);
    if a.sessions[s].revokedAt.None? {
      var t :| 0 <= t < |a.tokens| && a.tokens[t].sessionId == s && Live(a.tokens[t]);
      assert TokenSound(a.sessions, a.tokens[t]);
      assert OnlyLive(a, t, s);
    } else {
      forall t | 0 <= t < |a.tokens| && a.tokens[t].sessionId == s ensures !Live(a.tokens[t]) {
        assert TokenSound(a.sessions, a.tokens[t]);
      }
    }
    forall t | 0 <= t < |a.tokens| && a.tokens[t].sessionId == s
      ensures a.tokens[t].expiresAt == a.sessions[s].expiresAt
    {
      assert TokenSound(a.sessions, a.tokens[t]);
    }
  }

  ghost predicate Dead(a: AuthDb, s: Id) {
    && s < |a.sessions| && a.sessions[s].revokedAt.Some?
    && forall t :: 0 <= t < |a.tokens| && a.tokens[t].sessionId == s ==> !Live(a.tokens[t])
  }

  lemma RevokedIsDead(a: AuthDb, now: nat, s: Id)
    requires AuthSound(a, now) && s < |a.sessions| && a.sessions[s].revokedAt.Some?
    ensures Dead(a, s)
  {
  }

  ghost predicate AllDead(a: AuthDb, chosen: set<Id>) { TokensSound(a) && forall s :: s in chosen ==> Dead(a, s) }

  /** Revoking sessions kills them: not one of their tokens is live. */
  lemma RevokedAreDead(a: AuthDb, b: AuthDb, chosen: set<Id>, at: nat)
    requires RevokesSome(a, b, chosen, at) && forall s :: s in chosen ==> s < |a.sessions|
    ensures TokensSound(a) ==> AllDead(b, chosen)
  {
    if TokensSound(a) { RevokingKeepsTokens(a, b, chosen, at); }
    hide TokensSound;
  }

  /** A revoked session stays dead: it never authenticates and none of its tokens is exchanged again. */
  lemma RevokedForever(a: AuthDb, now: nat, s: Id, ticks: seq<Tick>, auth: Auth, at: nat, r: nat, active: bool)
    requires AuthSound(a, now) && s < |a.sessions| && a.sessions[s].revokedAt.Some? && auth.sessionId == s
    ensures var b := AuthRun(a, now, ticks);
      && Dead(b, s) && !Authenticates(b.sessions, at, auth)
      && FinishRotation(b, r, active).1 != Rotated(s)
  {
    var b := AuthRun(a, now, ticks);
    AuthRunKeeps(a, now, ticks);
    hide AuthRun;
    RevokedIsDead(b, Clock(now, ticks), s);
    hide AuthSound, AuthEvolves, RevokeFamily;
  }

  lemma FinishRotationRevokes(a: AuthDb, r: nat, active: bool)
    requires TokensSound(a) && FinishRotation(a, r, active).1 == Reused
    ensures r < |a.rotations| && a.rotations[r].token < |a.tokens|
    ensures var s := a.tokens[a.rotations[r].token].sessionId; var b := FinishRotation(a, r, active).0;
      s < |a.sessions| && s < |b.sessions| && b.sessions[s].revokedAt.Some? && s in b.burned
  {
  }

  /** Once a call presents a used token or loses a race, no token of the family is live, then or ever again. */
  lemma ReuseKillsFamily(a: AuthDb, now: nat, r: nat, active: bool, ticks: seq<Tick>)
    requires AuthSound(a, now) && FinishRotation(a, r, active).1 == Reused
    ensures r < |a.rotations| && a.rotations[r].token < |a.tokens|
    ensures Dead(AuthRun(FinishRotation(a, r, active).0, now, ticks), a.tokens[a.rotations[r].token].sessionId)
  {
    FinishRotationRevokes(a, r, active);
    FinishRotationKeeps(a, r, active, now);
    var b := FinishRotation(a, r, active).0;
    hide FinishRotation;
    AuthRunKeeps(b, now, ticks);
    hide AuthRun;
    RevokedIsDead(AuthRun(b, now, ticks), Clock(now, ticks), a.tokens[a.rotations[r].token].sessionId);
  }

  ghost predicate Targets(a: AuthDb, r: nat, t: Id) {
    r < |a.rotations| && a.rotations[r].open && a.rotations[r].token == t && t < |a.tokens|
      && a.tokens[t].sessionId < |a.sessions|
  }

  lemma RotationMarksToken(a: AuthDb, r: nat, active: bool, t: Id)
    requires Targets(a, r, t) && FinishRotation(a, r, active).1.Rotated?
    ensures var b := FinishRotation(a, r, active).0;
      t < |b.tokens| && b.tokens[t].usedAt.Some? && b.exchanged == a.exchanged + [t]
  {
  }

  /** Each token is exchanged at most once, however many calls read it before either committed: a later commit on
      the same token reports reuse and kills the family. */
  lemma ExchangedOnce(a: AuthDb, now: nat, r: nat, active: bool, t: Id, ticks: seq<Tick>, r2: nat, active2: bool)
    requires AuthSound(a, now) && Targets(a, r, t) && FinishRotation(a, r, active).1.Rotated?
    ensures var b := AuthRun(FinishRotation(a, r, active).0, now, ticks);
      Targets(b, r2, t) ==>
        (FinishRotation(b, r2, active2).1 == Reused
          || (FinishRotation(b, r2, active2).1 == Invalid && (b.rotations[r2].inactive || !active2)))
        && Dead(FinishRotation(b, r2, active2).0, b.tokens[t].sessionId)
  {
    RotationMarksToken(a, r, active, t);
    FinishRotationKeeps(a, r, active, now);
    var a1 := FinishRotation(a, r, active).0;
    AuthRunKeeps(a1, now, ticks);
    var b := AuthRun(a1, now, ticks);
    assert b.tokens[t].usedAt.Some?;
    hide AuthRun;
    if Targets(b, r2, t) { SpentTokenKills(b, Clock(now, ticks), r2, active2, t); }
  }

  lemma SpentTokenKills(b: AuthDb, now: nat, r: nat, active: bool, t: Id)
    requires AuthSound(b, now) && Targets(b, r, t) && b.tokens[t].usedAt.Some?
    ensures FinishRotation(b, r, active).1 == Reused
      || (FinishRotation(b, r, active).1 == Invalid && (b.rotations[r].inactive || !active))
    ensures Dead(FinishRotation(b, r, active).0, b.tokens[t].sessionId)
  {
  }

  // ---------------------------------------------------------------- step-up

  /** No challenge is consumed twice. */
  lemma ConsumedAtMostOnce(
      a: AuthDb, now: nat, v: nat, verified: bool, ticks: seq<Tick>, v2: nat, verified2: bool, at: nat)
    requires AuthSound(a, now) && ConsumeChallenge(a, v, verified, now).1 == Done
    ensures v < |a.verifications|
    ensures var b := AuthRun(ConsumeChallenge(a, v, verified, now).0, now, ticks);
      v2 < |b.verifications| && b.verifications[v2].challenge == a.verifications[v].challenge ==>
        ConsumeChallenge(b, v2, verified2, at).1 == Refused
  {
    ConsumeChallengeKeeps(a, v, verified, now);
    var a1 := ConsumeChallenge(a, v, verified, now).0;
    assert a1.challenges[a.verifications[v].challenge].usedAt.Some?;
    AuthRunKeeps(a1, now, ticks);
    hide AuthRun, AuthSound;
  }

  /** A session's step-up instant is when a step-up challenge of its own user and session was consumed, before that
      challenge expired. */
  lemma StepUpIsVouched(ticks: seq<Tick>, s: Id)
    requires s < |AuthRun(EMPTY_AUTH, 0, ticks).sessions|
    ensures var a := AuthRun(EMPTY_AUTH, 0, ticks);
      a.sessions[s].stepUpVerifiedAt.Some? ==>
        Vouched(a, a.sessions[s].userId, s, a.sessions[s].stepUpVerifiedAt.value)
  {
    EmptyAuthIsSound();
    AuthRunKeeps(EMPTY_AUTH, 0, ticks);
    hide AuthRun, TokensSound, Vouched;
  }
}
