/** The token calls as the service makes them, one at a time, over its token table. */
module AuthServices {
  import opened Wrappers
  import opened Tokens

  /** The token table and the next row number. */
  datatype Vault = Vault(tokens: map<Id, Token>, next: Id)

  /** What one refresh that runs alone leaves, and what it answers. */
  function Refreshed(v: Vault, k: Id, now: Time, accountActive: bool, expiresAt: Time): (Vault, Outcome) {
    if k !in v.tokens then (v, Refused)
    else if v.tokens[k].revokedAt.Some? then
      (v.(tokens := Revoke(v.tokens, LiveOf(v.tokens, v.tokens[k].user), now)), ReuseDetected)
    else if v.tokens[k].expiresAt < now || !accountActive then (v, Refused)
    else (Vault(Rotate(v.tokens, k, v.next, expiresAt, now), v.next + 1), Issued(v.next))
  }

  function LoggedOut(v: Vault, k: Id, now: Time): Vault {
    if k !in v.tokens || v.tokens[k].revokedAt.Some? || v.tokens[k].expiresAt < now then v
    else v.(tokens := v.tokens[k := v.tokens[k].(revokedAt := Some(now))])
  }

  ghost predicate VaultOk(v: Vault) {
    TokensOk(v.tokens, v.next)
  }

  lemma RevocationResponse(v: Vault, user: Id, now: Time)
    requires VaultOk(v)
    ensures var after := Revoke(v.tokens, LiveOf(v.tokens, user), now);
            && TokensOk(after, v.next) && Advances(v.tokens, after)
            && after.Keys == v.tokens.Keys && LiveOf(after, user) == {}
            && forall j :: j in v.tokens ==>
                 after[j] == if v.tokens[j].revokedAt == None && v.tokens[j].user == user
                             then v.tokens[j].(revokedAt := Some(now)) else v.tokens[j]
  {
    RevokeIsOk(v.tokens, v.next, LiveOf(v.tokens, user), now);
  }

  lemma RotationResponse(v: Vault, k: Id, expiresAt: Time, now: Time)
    requires VaultOk(v) && Live(v.tokens, k)
    ensures var after := Rotate(v.tokens, k, v.next, expiresAt, now);
            && TokensOk(after, v.next + 1) && Advances(v.tokens, after)
            && LiveOf(after, v.tokens[k].user) == LiveOf(v.tokens, v.tokens[k].user) - {k} + {v.next}
            && v.next !in v.tokens
            && after == v.tokens[k := v.tokens[k].(revokedAt := Some(now), replacedBy := Some(v.next))]
                                [v.next := Token(v.tokens[k].user, v.tokens[k].family, expiresAt, None, None)]
  {
    var after := Rotate(v.tokens, k, v.next, expiresAt, now);
    RotateIsOk(v.tokens, v.next + 1, k, v.next, expiresAt, now);
    assert v.next !in v.tokens && k != v.next;
    hide TokensOk, Advances;
    RotationMovesLife(v.tokens, k, v.next, expiresAt, now);
    hide LiveOf;
  }

  lemma RotationMovesLife(tokens: map<Id, Token>, k: Id, replacement: Id, expiresAt: Time, now: Time)
    requires Live(tokens, k) && replacement !in tokens
    ensures var after, user := Rotate(tokens, k, replacement, expiresAt, now), tokens[k].user;
            LiveOf(after, user) == LiveOf(tokens, user) - {k} + {replacement}
  {
  }

  /** Presenting a revoked token revokes, at that time, exactly the live tokens of its user although the
      call fails. Every other failing refresh leaves the table as it was. A token is issued exactly for
      an unrevoked, unexpired token of an active account; that one is then revoked, linked and replaced
      by one live token of the same user and family with the given expiry. */
  lemma RefreshResponse(v: Vault, k: Id, now: Time, accountActive: bool, expiresAt: Time)
    requires VaultOk(v)
    ensures var (after, outcome) := Refreshed(v, k, now, accountActive, expiresAt);
            && VaultOk(after) && Advances(v.tokens, after.tokens)
            && (outcome.Refused? ==> after == v)
            && (outcome.ReuseDetected? <==> k in v.tokens && v.tokens[k].revokedAt.Some?)
            && (outcome.Issued? <==> k in v.tokens && v.tokens[k].revokedAt == None && v.tokens[k].expiresAt >= now
                                     && accountActive)
            && (outcome.ReuseDetected? ==>
                  && after.tokens.Keys == v.tokens.Keys
                  && LiveOf(after.tokens, v.tokens[k].user) == {}
                  && after.next == v.next
                  && forall j :: j in v.tokens ==>
                       after.tokens[j] == if v.tokens[j].revokedAt == None && v.tokens[j].user == v.tokens[k].user
                                          then v.tokens[j].(revokedAt := Some(now)) else v.tokens[j])
            && (outcome.Issued? ==>
                  && LiveOf(after.tokens, v.tokens[k].user) ==
                     LiveOf(v.tokens, v.tokens[k].user) - {k} + {outcome.token}
                  && outcome.token == v.next && v.next !in v.tokens && after.next == v.next + 1
                  && after.tokens[k].revokedAt == Some(now) && after.tokens[k].replacedBy == Some(outcome.token)
                  && after.tokens == v.tokens[k := v.tokens[k].(revokedAt := Some(now), replacedBy := Some(v.next))]
                       [v.next := Token(v.tokens[k].user, v.tokens[k].family, expiresAt, None, None)])
  {
    if k in v.tokens {
      if v.tokens[k].revokedAt.Some? {
        RevocationResponse(v, v.tokens[k].user, now);
      } else {
        RotationResponse(v, k, expiresAt, now);
      }
    }
    hide Rotate, Revoke, LiveOf, TokensOk;
  }

  /** A logout revokes an unrevoked, unexpired token at that time, so that no later refresh with it gets
      one, and changes nothing else; with any other token it changes nothing. */
  lemma LogoutResponse(v: Vault, k: Id, now: Time, later: Time, accountActive: bool, expiresAt: Time)
    ensures var after := LoggedOut(v, k, now);
            if k in v.tokens && v.tokens[k].revokedAt == None && now <= v.tokens[k].expiresAt then
              && !Live(after.tokens, k) && after.tokens[k].revokedAt == Some(now) && after.next == v.next
              && after.tokens == v.tokens[k := v.tokens[k].(revokedAt := Some(now))]
              && (forall j :: j in v.tokens && j != k ==> after.tokens[j] == v.tokens[j])
              && Refreshed(after, k, later, accountActive, expiresAt).1 == ReuseDetected
            else after == v
  {
  }

  // ---- A call alone is one run of the concurrent server ----

  lemma {:induction false} RunStepsConcat(s: Server, a: seq<Step>, b: seq<Step>)
    ensures RunSteps(s, a + b) == RunSteps(RunSteps(s, a), b)
  {
    if b == [] {
      assert a + b == a;
    } else {
      RunStepsConcat(s, a, b[..|b| - 1]);
      assert (a + b)[..|a + b| - 1] == a + b[..|b| - 1];
    }
  }

  lemma SweepOne(s: Server, t: Id, r: Refresh, x: Id)
    requires s.txns == map[t := r] && r.Sweeping? && x in r.todo && Live(s.tokens, x)
    ensures RunSteps(s, [Sweep(t, x)]) == s.(txns := map[t := r.(todo := r.todo - {x}, swept := r.swept + {x})])
  {
  }

  /** With no other transaction about, a sweep locks every row it is after. */
  lemma {:induction false} SweepAlone(s: Server, t: Id, r: Refresh) returns (steps: seq<Step>)
    requires s.txns == map[t := r] && r.Sweeping? && forall x :: x in r.todo ==> Live(s.tokens, x)
    ensures RunSteps(s, steps) == s.(txns := map[t := r.(todo := {}, swept := r.swept + r.todo)])
    decreases |r.todo|
  {
    if r.todo == {} {
      steps := [];
      assert r.swept + r.todo == r.swept;
    } else {
      hide Next, RunSteps, Live;
      var x :| x in r.todo;
      var q := r.(todo := r.todo - {x}, swept := r.swept + {x});
      SweepOne(s, t, r, x);
      var rest := SweepAlone(s.(txns := map[t := q]), t, q);
      steps := [Sweep(t, x)] + rest;
      RunStepsConcat(s, [Sweep(t, x)], rest);
      assert q.swept + q.todo == r.swept + r.todo;
    }
  }

  /** The state after the presented row is locked, with no other transaction about. */
  lemma PresentAndLock(s: Server, t: Id, k: Id, now: Time, accountActive: bool, expiresAt: Time)
    requires s.txns == map[] && t !in s.outcomes
    ensures RunSteps(s, [Present(t, k), Lock(t, now, accountActive, expiresAt)]) ==
            Examine(s.(txns := map[t := Looking(k)]), t, k, now, accountActive, expiresAt)
  {
    var steps := [Present(t, k), Lock(t, now, accountActive, expiresAt)];
    assert steps[..1] == [] + [Present(t, k)] && steps == [] + [Present(t, k)] + [steps[1]];
    LastStep(s, [], steps[0]);
    LastStep(s, [] + [steps[0]], steps[1]);
  }

  lemma SnapshotAlone(s: Server, t: Id, k: Id, user: Id)
    requires s.txns == map[t := Detected(k, user)]
    ensures Next(s, Snapshot(t)) == s.(txns := map[t := Sweeping(k, user, LiveOf(s.tokens, user), {})])
  {
  }

  /** So what the server machine proves of every run holds of these calls. */
  lemma RefreshIsARun(s: Server, t: Id, k: Id, now: Time, accountActive: bool, expiresAt: Time)
    returns (steps: seq<Step>)
    requires s.txns == map[] && t !in s.outcomes
    ensures var d := RunSteps(s, steps);
            && d.txns == map[] && t in d.outcomes
            && (Vault(d.tokens, d.next), d.outcomes[t]) ==
               Refreshed(Vault(s.tokens, s.next), k, now, accountActive, expiresAt)
  {
    hide RunSteps, Rotate, Revoke;
    var opening := [Present(t, k), Lock(t, now, accountActive, expiresAt)];
    PresentAndLock(s, t, k, now, accountActive, expiresAt);
    var d := RunSteps(s, opening);
    if t !in d.txns {
      steps := opening;
    } else if d.txns[t].Rotating? {
      steps := opening + [Commit(t, now)];
      LastStep(s, opening, Commit(t, now));
      assert d.txns - {t} == map[];
    } else {
      var user, doomed := s.tokens[k].user, LiveOf(s.tokens, s.tokens[k].user);
      var q := d.(txns := map[t := Sweeping(k, user, doomed, {})]);
      SnapshotAlone(d, t, k, user);
      LastStep(s, opening, Snapshot(t));
      var sweeps := SweepAlone(q, t, q.txns[t]);
      RunStepsConcat(s, opening + [Snapshot(t)], sweeps);
      assert RunSteps(q, sweeps).txns - {t} == map[] && {} + doomed == doomed;
      steps := opening + [Snapshot(t)] + sweeps + [Commit(t, now)];
      LastStep(s, opening + [Snapshot(t)] + sweeps, Commit(t, now));
    }
  }

  lemma LogoutIsARun(s: Server, l: Id, k: Id, now: Time)
    requires s.txns == map[] && l !in s.logouts
    ensures var d := RunSteps(s, [LogoutRead(l, k, now), LogoutReload(l), LogoutWrite(l, now)]);
            Vault(d.tokens, d.next) == LoggedOut(Vault(s.tokens, s.next), k, now)
  {
    var steps := [LogoutRead(l, k, now), LogoutReload(l), LogoutWrite(l, now)];
    LastStep(s, [], steps[0]);
    LastStep(s, [] + [steps[0]], steps[1]);
    LastStep(s, [] + [steps[0]] + [steps[1]], steps[2]);
    assert steps == [] + [steps[0]] + [steps[1]] + [steps[2]];
  }

  class AuthService {
    var tokens: map<Id, Token>
    var next: Id
    var activeAccounts: set<Id>
    const lifetime: nat

    constructor (lifetime: nat, accounts: set<Id>)
      ensures Table() == Vault(map[], 0) && VaultOk(Table())
      ensures this.lifetime == lifetime && activeAccounts == accounts
    {
      this.lifetime, activeAccounts := lifetime, accounts;
      tokens, next := map[], 0;
    }

    function Table(): Vault
      reads this
    {
      Vault(tokens, next)
    }

    /** A login starts a family of its own; a rotation continues the family it replaces. */
    method IssueRefreshToken(user: Id, family: Option<Id>, now: Time) returns (record: Id)
      modifies `tokens, `next
      ensures record == old(next) && next == old(next) + 1
      ensures tokens == old(tokens)[record := Token(user, if family.Some? then family.value else record,
                                                    now + lifetime, None, None)]
    {
      record := next;
      var origin := if family.Some? then family.value else record;
      tokens := tokens[record := Token(user, origin, now + lifetime, None, None)];
      next := next + 1;
    }

    method Login(user: Id, now: Time) returns (token: Id)
      requires VaultOk(Table())
      modifies `tokens, `next
      ensures VaultOk(Table()) && Advances(old(tokens), tokens)
      ensures Table() == Vault(old(tokens)[token := Token(user, token, now + lifetime, None, None)], old(next) + 1)
      ensures token == old(next)
    {
      ghost var before := Table();
      token := IssueRefreshToken(user, None, now);
      InsertIsOk(before.tokens, before.next, Token(user, before.next, now + lifetime, None, None));
    }

    method RevokeAllForUser(user: Id, now: Time)
      modifies `tokens
      ensures tokens == Revoke(old(tokens), LiveOf(old(tokens), user), now)
    {
      tokens := map k | k in tokens ::
        if tokens[k].user == user && tokens[k].revokedAt == None then tokens[k].(revokedAt := Some(now)) else tokens[k];
    }

    method Replace(presented: Id, now: Time) returns (record: Id)
      requires presented in tokens && presented < next
      modifies `tokens, `next
      ensures record == old(next) && next == old(next) + 1
      ensures tokens == Rotate(old(tokens), presented, record, now + lifetime, now)
    {
      var existing := tokens[presented];
      record := IssueRefreshToken(existing.user, Some(existing.family), now);
      tokens := tokens[presented := existing.(revokedAt := Some(now), replacedBy := Some(record))];
    }

    /** The transaction: on reuse it revokes and returns, so the revocation commits. */
    method RefreshInTransaction(presented: Id, now: Time) returns (outcome: Outcome)
      requires VaultOk(Table())
      modifies `tokens, `next
      ensures var active := presented in old(tokens) && old(tokens)[presented].user in activeAccounts;
              (Table(), outcome) == Refreshed(old(Table()), presented, now, active, now + lifetime)
    {
      if presented !in tokens { return Refused; }
      var existing := tokens[presented];
      assert presented < next;
      hide TokensOk, Rotate, Revoke;
      if existing.revokedAt.Some? {
        RevokeAllForUser(existing.user, now);
        return ReuseDetected;
      }
      if existing.expiresAt < now { return Refused; }
      if existing.user !in activeAccounts { return Refused; }
      var record := Replace(presented, now);
      return Issued(record);
    }

    /** Reuse is thrown only after the transaction has committed. */
    method Refresh(presented: Id, now: Time) returns (r: Result<Id>)
      requires VaultOk(Table())
      modifies `tokens, `next
      ensures VaultOk(Table()) && Advances(old(tokens), tokens)
      ensures var active := presented in old(tokens) && old(tokens)[presented].user in activeAccounts;
              var (after, outcome) := Refreshed(old(Table()), presented, now, active, now + lifetime);
              Table() == after && r == if outcome.Issued? then Ok(outcome.token) else Err(Unauthorized)
      ensures r.Err? && presented in old(tokens) && old(tokens)[presented].revokedAt.Some? ==>
                LiveOf(tokens, old(tokens)[presented].user) == {}
      ensures r.Err? && !(presented in old(tokens) && old(tokens)[presented].revokedAt.Some?) ==>
                Table() == old(Table())
    {
      hide Refreshed, TokensOk, Advances, LiveOf;
      ghost var active := presented in tokens && tokens[presented].user in activeAccounts;
      RefreshResponse(Table(), presented, now, active, now + lifetime);
      var outcome := RefreshInTransaction(presented, now);
      return if outcome.Issued? then Ok(outcome.token) else Err(Unauthorized);
    }

    method Logout(presented: Id, now: Time)
      modifies `tokens
      ensures Table() == LoggedOut(old(Table()), presented, now)
    {
      if presented !in tokens { return; }
      var current := tokens[presented];
      if current.revokedAt.Some? || current.expiresAt < now { return; }
      tokens := tokens[presented := current.(revokedAt := Some(now))];
    }
  }
}
