/** Refresh-token rotation with reuse detection, as the steps of concurrent transactions. */
module Tokens {
  import opened Wrappers

  type Id = nat
  type Time = nat

  /** A stored token. Ids number the rows in the order they were generated. `family` is the login a
      token descends from; the table does not store it. */
  datatype Token = Token(user: Id, family: Id, expiresAt: Time, revokedAt: Option<Time>, replacedBy: Option<Id>)

  /** A refresh transaction: waiting to lock the presented row; holding it with the replacement row
      and the revocation still private; having found the row revoked; or in the UPDATE that then
      revokes the user's rows, one row lock at a time. */
  datatype Refresh =
    | Looking(presented: Id)
    | Rotating(presented: Id, replacement: Id, expiresAt: Time)
    | Detected(presented: Id, user: Id)
    | Sweeping(presented: Id, user: Id, todo: set<Id>, swept: set<Id>)

  datatype Outcome = Issued(token: Id) | Refused | ReuseDetected

  /** A logout between its unlocked read and its save. */
  datatype Logout = Read(token: Id, copy: Token) | Reloaded(token: Id, copy: Token, stored: Token)

  datatype Server = Server(tokens: map<Id, Token>, next: Id, txns: map<Id, Refresh>,
                           outcomes: map<Id, Outcome>, logouts: map<Id, Logout>, rotated: seq<Id>)

  const EMPTY_SERVER := Server(map[], 0, map[], map[], map[], [])

  datatype Step =
    | Login(user: Id, expiresAt: Time)
    | Present(t: Id, token: Id)
    | Guess(t: Id)
    | Lock(t: Id, now: Time, accountActive: bool, expiresAt: Time)
    | Snapshot(t: Id)
    | Sweep(t: Id, token: Id)
    | Commit(t: Id, now: Time)
    | Abort(t: Id)
    | LogoutRead(l: Id, token: Id, now: Time)
    | LogoutReload(l: Id)
    | LogoutWrite(l: Id, now: Time)

  predicate Live(tokens: map<Id, Token>, k: Id) {
    k in tokens && tokens[k].revokedAt == None
  }

  /** The committed rows a transaction has locked. */
  function Held(r: Refresh): set<Id> {
    match r
    case Looking(_) => {}
    case Rotating(k, _, _) => {k}
    case Detected(k, _) => {k}
    case Sweeping(k, _, _, swept) => {k} + swept
  }

  predicate LockedByOther(s: Server, t: Id, k: Id) {
    exists u :: u in s.txns && u != t && k in Held(s.txns[u])
  }

  predicate Locked(s: Server, k: Id) {
    exists u :: u in s.txns && k in Held(s.txns[u])
  }

  /** The transaction ends and its caller gets an answer. */
  function Finish(s: Server, t: Id, outcome: Outcome): Server {
    s.(txns := s.txns - {t}, outcomes := s.outcomes[t := outcome])
  }

  function LiveOf(tokens: map<Id, Token>, user: Id): set<Id> {
    set k | k in tokens && tokens[k].user == user && Live(tokens, k)
  }

  /** What `refresh` does once it holds the presented row. */
  function Examine(s: Server, t: Id, k: Id, now: Time, accountActive: bool, expiresAt: Time): Server {
    if k !in s.tokens then Finish(s, t, Refused)
    else if s.tokens[k].revokedAt.Some? then
      s.(txns := s.txns[t := Detected(k, s.tokens[k].user)])
    else if s.tokens[k].expiresAt < now then Finish(s, t, Refused)
    else if !accountActive then Finish(s, t, Refused)
    else s.(txns := s.txns[t := Rotating(k, s.next, expiresAt)], next := s.next + 1)
  }

  function Rotate(tokens: map<Id, Token>, k: Id, replacement: Id, expiresAt: Time, now: Time): map<Id, Token>
    requires k in tokens
  {
    var row := tokens[k];
    tokens[k := row.(revokedAt := Some(now), replacedBy := Some(replacement))]
          [replacement := Token(row.user, row.family, expiresAt, None, None)]
  }

  function Revoke(tokens: map<Id, Token>, doomed: set<Id>, now: Time): map<Id, Token> {
    map k | k in tokens :: if k in doomed then tokens[k].(revokedAt := Some(now)) else tokens[k]
  }

  function Complete(s: Server, t: Id, now: Time): Server
    requires t in s.txns
  {
    match s.txns[t]
    case Looking(_) => s
    case Detected(_, _) => s
    case Rotating(k, replacement, expiresAt) =>
      if k !in s.tokens then s
      else Finish(s, t, Issued(replacement)).(tokens := Rotate(s.tokens, k, replacement, expiresAt, now),
                                              rotated := s.rotated + [k])
    case Sweeping(_, _, todo, swept) =>
      if todo != {} then s
      else Finish(s, t, ReuseDetected).(tokens := Revoke(s.tokens, swept, now))
  }

  /** Saving an entity updates the columns in which it differs from the row as reloaded. */
  function SaveStale(row: Token, copy: Token, stored: Token, now: Time): Token {
    row.(revokedAt := Some(now),
         replacedBy := if copy.replacedBy != stored.replacedBy then copy.replacedBy else row.replacedBy)
  }

  /** One step; a step that is not enabled or has to wait for a lock changes nothing. */
  function Next(s: Server, a: Step): Server {
    match a
    case Login(user, expiresAt) =>
      s.(tokens := s.tokens[s.next := Token(user, s.next, expiresAt, None, None)], next := s.next + 1)
    case Present(t, k) =>
      if t in s.txns || t in s.outcomes then s else s.(txns := s.txns[t := Looking(k)])
    case Guess(t) =>
      // a token that no row has, nor will have: the lookup finds nothing
      if t in s.txns || t in s.outcomes then s else Finish(s, t, Refused)
    case Lock(t, now, accountActive, expiresAt) =>
      if t !in s.txns || !s.txns[t].Looking? || LockedByOther(s, t, s.txns[t].presented) then s
      else Examine(s, t, s.txns[t].presented, now, accountActive, expiresAt)
    case Snapshot(t) =>
      // the UPDATE is a statement of its own: it goes over the rows committed when it begins
      if t !in s.txns || !s.txns[t].Detected? then s
      else
        var r := s.txns[t];
        s.(txns := s.txns[t := Sweeping(r.presented, r.user, LiveOf(s.tokens, r.user), {})])
    case Sweep(t, k) =>
      if t !in s.txns || !s.txns[t].Sweeping? || k !in s.txns[t].todo || LockedByOther(s, t, k) then s
      else
        // after waiting for the row the update re-checks that it is still unrevoked
        var r := s.txns[t];
        s.(txns := s.txns[t := r.(todo := r.todo - {k}, swept := if Live(s.tokens, k) then r.swept + {k} else r.swept)])
    case Commit(t, now) => if t in s.txns then Complete(s, t, now) else s
    case Abort(t) => if t in s.txns then Finish(s, t, Refused) else s
    case LogoutRead(l, k, now) =>
      if l in s.logouts || !Live(s.tokens, k) || s.tokens[k].expiresAt < now then s
      else s.(logouts := s.logouts[l := Read(k, s.tokens[k])])
    case LogoutReload(l) =>
      if l !in s.logouts || !s.logouts[l].Read? || s.logouts[l].token !in s.tokens then s
      else
        var lo := s.logouts[l];
        s.(logouts := s.logouts[l := Reloaded(lo.token, lo.copy, s.tokens[lo.token])])
    case LogoutWrite(l, now) =>
      if l !in s.logouts || !s.logouts[l].Reloaded? || s.logouts[l].token !in s.tokens
         || Locked(s, s.logouts[l].token) then s
      else
        var lo := s.logouts[l];
        s.(tokens := s.tokens[lo.token := SaveStale(s.tokens[lo.token], lo.copy, lo.stored, now)],
           logouts := s.logouts - {l})
  }

  function RunSteps(s: Server, steps: seq<Step>): Server {
    if steps == [] then s else Next(RunSteps(s, steps[..|steps| - 1]), steps[|steps| - 1])
  }

  // ---- Invariants ----

  /** Ids and families come from the counter, a row is only ever replaced by a younger one, a live
      row has not been replaced, and a family has at most one live row. */
  ghost predicate TokensOk(tokens: map<Id, Token>, next: Id) {
    && (forall k :: k in tokens ==> k < next && tokens[k].family <= k)
    && (forall k :: k in tokens && tokens[k].replacedBy.Some? ==>
          k < tokens[k].replacedBy.value && tokens[k].replacedBy.value in tokens)
    && (forall k :: Live(tokens, k) ==> tokens[k].replacedBy == None)
    && OneLivePerFamily(tokens)
  }

  ghost predicate OneLivePerFamily(tokens: map<Id, Token>) {
    forall j, k :: Live(tokens, j) && Live(tokens, k) && tokens[j].family == tokens[k].family ==> j == k
  }

  /** A rotating transaction owns a live row and a number with no row yet. */
  ghost predicate TxnOk(tokens: map<Id, Token>, next: Id, r: Refresh) {
    match r
    case Looking(_) => true
    case Rotating(k, replacement, _) => Live(tokens, k) && k < replacement < next && replacement !in tokens
    case Detected(k, user) => k in tokens && tokens[k].user == user
    case Sweeping(k, user, todo, swept) =>
      forall x :: x in {k} + todo + swept ==> x in tokens && tokens[x].user == user
  }

  ghost predicate TxnsOk(tokens: map<Id, Token>, next: Id, txns: map<Id, Refresh>) {
    forall t :: t in txns ==> TxnOk(tokens, next, txns[t])
  }

  predicate Apart(r: Refresh, q: Refresh) {
    Held(r) !! Held(q) && (r.Rotating? && q.Rotating? ==> r.replacement != q.replacement)
  }

  ghost predicate Exclusive(txns: map<Id, Refresh>) {
    forall t, u :: t in txns && u in txns && t != u ==> Apart(txns[t], txns[u])
  }

  /** What a logout still holds of a row was unreplaced when it was read. */
  ghost predicate LogoutsOk(logouts: map<Id, Logout>) {
    forall l :: l in logouts ==> logouts[l].copy.replacedBy == None
  }

  ghost predicate RotatedOnce(tokens: map<Id, Token>, rotated: seq<Id>) {
    && (forall i :: 0 <= i < |rotated| ==> rotated[i] in tokens && !Live(tokens, rotated[i]))
    && (forall i, j :: 0 <= i < j < |rotated| ==> rotated[i] != rotated[j])
  }

  ghost predicate Invariant(s: Server) {
    && TokensOk(s.tokens, s.next)
    && TxnsOk(s.tokens, s.next, s.txns)
    && Exclusive(s.txns)
    && LogoutsOk(s.logouts)
    && RotatedOnce(s.tokens, s.rotated)
  }

  /** No step removes a token, moves it to another user or family, or makes it live again. */
  ghost predicate Advances(before: map<Id, Token>, after: map<Id, Token>) {
    forall k :: k in before ==>
      && k in after
      && after[k].user == before[k].user && after[k].family == before[k].family
      && (before[k].revokedAt.Some? ==> after[k].revokedAt.Some?)
  }

  // ---- Changes to the rows ----

  lemma InsertIsOk(tokens: map<Id, Token>, next: Id, row: Token)
    requires TokensOk(tokens, next) && row.family == next && row.replacedBy == None
    ensures TokensOk(tokens[next := row], next + 1) && Advances(tokens, tokens[next := row])
  {
  }

  lemma RotateIsOk(tokens: map<Id, Token>, next: Id, k: Id, replacement: Id, expiresAt: Time, now: Time)
    requires TokensOk(tokens, next) && Live(tokens, k) && k < replacement < next && replacement !in tokens
    ensures TokensOk(Rotate(tokens, k, replacement, expiresAt, now), next)
    ensures Advances(tokens, Rotate(tokens, k, replacement, expiresAt, now))
  {
    var after := Rotate(tokens, k, replacement, expiresAt, now);
    assert after.Keys == tokens.Keys + {replacement};
    assert after[k].replacedBy == Some(replacement) && after[replacement].replacedBy == None;
    assert forall x :: x in tokens && x != k ==> after[x] == tokens[x];
    assert after[replacement].family == tokens[k].family == after[k].family && !Live(after, k);
    assert after[k].user == tokens[k].user;
    hide Rotate, OneLivePerFamily;
    RotateKeepsOneLive(tokens, after, k, replacement);
  }

  lemma RotateKeepsOneLive(tokens: map<Id, Token>, after: map<Id, Token>, k: Id, replacement: Id)
    requires OneLivePerFamily(tokens) && Live(tokens, k)
    requires after.Keys == tokens.Keys + {replacement} && !Live(after, k)
    requires after[replacement].family == tokens[k].family
    requires forall x :: x in tokens && x != k && x != replacement ==> after[x] == tokens[x]
    ensures OneLivePerFamily(after)
  {
  }

  /** Revoking rows, whichever, changes nothing else about them. */
  lemma RevokedRowsAreOk(tokens: map<Id, Token>, after: map<Id, Token>, next: Id, now: Time)
    requires TokensOk(tokens, next) && after.Keys == tokens.Keys
    requires forall k :: k in tokens ==> after[k] == tokens[k] || after[k] == tokens[k].(revokedAt := Some(now))
    ensures TokensOk(after, next) && Advances(tokens, after)
  {
    forall x | Live(after, x)
      ensures Live(tokens, x) && after[x] == tokens[x]
    {
    }
  }

  lemma RevokeIsOk(tokens: map<Id, Token>, next: Id, doomed: set<Id>, now: Time)
    requires TokensOk(tokens, next)
    ensures TokensOk(Revoke(tokens, doomed, now), next) && Advances(tokens, Revoke(tokens, doomed, now))
  {
    hide TokensOk, Advances;
    RevokedRowsAreOk(tokens, Revoke(tokens, doomed, now), next, now);
  }

  /** A stale save may erase a replacement link, but revokes the row all the same. */
  lemma SaveStaleIsOk(tokens: map<Id, Token>, next: Id, lo: Logout, now: Time)
    requires TokensOk(tokens, next) && lo.Reloaded? && lo.token in tokens && lo.copy.replacedBy == None
    ensures var after := tokens[lo.token := SaveStale(tokens[lo.token], lo.copy, lo.stored, now)];
            && TokensOk(after, next) && Advances(tokens, after)
            && after[lo.token].revokedAt == Some(now) && !Live(after, lo.token)
            && forall x :: x in tokens && x != lo.token ==> after[x] == tokens[x]
  {
    var after := tokens[lo.token := SaveStale(tokens[lo.token], lo.copy, lo.stored, now)];
    assert forall x :: Live(after, x) ==> Live(tokens, x);
  }

  lemma AdvancingKeepsRotated(before: map<Id, Token>, after: map<Id, Token>, rotated: seq<Id>)
    requires Advances(before, after) && RotatedOnce(before, rotated)
    ensures RotatedOnce(after, rotated)
  {
  }

  /** Rows other transactions do not hold may change under them, as long as the rows they hold stay
      live and their replacement numbers stay free. */
  lemma OthersStayOk(before: map<Id, Token>, after: map<Id, Token>, next: Id, later: Id, txns: map<Id, Refresh>)
    requires TxnsOk(before, next, txns) && Advances(before, after) && next <= later
    requires forall t, k :: t in txns && txns[t].Rotating? && k == txns[t].presented ==> Live(after, k)
    requires forall t :: t in txns && txns[t].Rotating? ==> txns[t].replacement !in after
    ensures TxnsOk(after, later, txns)
  {
  }

  // ---- Steps ----

  lemma FinishKeeps(s: Server, t: Id, outcome: Outcome)
    requires Invariant(s)
    ensures Invariant(Finish(s, t, outcome)) && Finish(s, t, outcome).tokens == s.tokens
  {
  }

  lemma EnterKeeps(s: Server, t: Id, r: Refresh, later: Id)
    requires Invariant(s) && s.next <= later && TxnOk(s.tokens, later, r)
    requires forall u :: u in s.txns && u != t ==> Apart(r, s.txns[u]) && Apart(s.txns[u], r)
    ensures Invariant(s.(txns := s.txns[t := r], next := later))
  {
  }

  lemma ExamineKeeps(s: Server, t: Id, k: Id, now: Time, accountActive: bool, expiresAt: Time)
    requires Invariant(s) && !LockedByOther(s, t, k)
    ensures Invariant(Examine(s, t, k, now, accountActive, expiresAt))
    ensures Examine(s, t, k, now, accountActive, expiresAt).tokens == s.tokens
  {
    if k !in s.tokens || (s.tokens[k].revokedAt == None && (s.tokens[k].expiresAt < now || !accountActive)) {
      FinishKeeps(s, t, Refused);
    } else if s.tokens[k].revokedAt.Some? {
      EnterKeeps(s, t, Detected(k, s.tokens[k].user), s.next);
    } else {
      forall u | u in s.txns && s.txns[u].Rotating?
        ensures s.txns[u].replacement != s.next
      {
        assert TxnOk(s.tokens, s.next, s.txns[u]);
      }
      EnterKeeps(s, t, Rotating(k, s.next, expiresAt), s.next + 1);
    }
  }

  lemma RotatedAgain(before: map<Id, Token>, after: map<Id, Token>, rotated: seq<Id>, k: Id)
    requires Advances(before, after) && RotatedOnce(before, rotated) && Live(before, k) && !Live(after, k)
    ensures RotatedOnce(after, rotated + [k])
  {
  }

  lemma RotationKeeps(s: Server, t: Id, now: Time)
    requires Invariant(s) && t in s.txns && s.txns[t].Rotating?
    ensures Invariant(Complete(s, t, now)) && Advances(s.tokens, Complete(s, t, now).tokens)
  {
    var r := s.txns[t];
    var after := Rotate(s.tokens, r.presented, r.replacement, r.expiresAt, now);
    assert TxnOk(s.tokens, s.next, r);
    RotateIsOk(s.tokens, s.next, r.presented, r.replacement, r.expiresAt, now);
    var rest := s.txns - {t};
    forall u, k | u in rest && rest[u].Rotating? && k == rest[u].presented
      ensures Live(after, k) && rest[u].replacement !in after
    {
      assert TxnOk(s.tokens, s.next, rest[u]) && Apart(rest[u], r);
    }
    OthersStayOk(s.tokens, after, s.next, s.next, rest);
    RotatedAgain(s.tokens, after, s.rotated, r.presented);
    hide TokensOk, TxnsOk, Rotate, Advances, RotatedOnce;
  }

  lemma RevocationKeeps(s: Server, t: Id, now: Time)
    requires Invariant(s) && t in s.txns && s.txns[t].Sweeping?
    ensures Invariant(Complete(s, t, now)) && Advances(s.tokens, Complete(s, t, now).tokens)
  {
    hide TokensOk, RotatedOnce;
    var r, rest := s.txns[t], s.txns - {t};
    var after := Revoke(s.tokens, r.swept, now);
    RevokeIsOk(s.tokens, s.next, r.swept, now);
    forall u, k | u in rest && rest[u].Rotating? && k == rest[u].presented
      ensures Live(after, k) && rest[u].replacement !in after
    {
      assert TxnOk(s.tokens, s.next, rest[u]) && Apart(rest[u], r);
    }
    OthersStayOk(s.tokens, after, s.next, s.next, rest);
    AdvancingKeepsRotated(s.tokens, after, s.rotated);
  }

  lemma SnapshotKeeps(s: Server, t: Id)
    requires Invariant(s)
    ensures Invariant(Next(s, Snapshot(t))) && Next(s, Snapshot(t)).tokens == s.tokens
  {
    if t in s.txns && s.txns[t].Detected? {
      var r := s.txns[t];
      assert TxnOk(s.tokens, s.next, r);
      forall u | u in s.txns && u != t
        ensures Apart(r, s.txns[u])
      {
      }
      EnterKeeps(s, t, Sweeping(r.presented, r.user, LiveOf(s.tokens, r.user), {}), s.next);
    }
  }

  lemma SweepKeeps(s: Server, t: Id, k: Id)
    requires Invariant(s)
    ensures Invariant(Next(s, Sweep(t, k))) && Next(s, Sweep(t, k)).tokens == s.tokens
  {
    if t in s.txns && s.txns[t].Sweeping? && k in s.txns[t].todo && !LockedByOther(s, t, k) {
      var r := s.txns[t];
      assert TxnOk(s.tokens, s.next, r);
      forall u | u in s.txns && u != t
        ensures Apart(r, s.txns[u]) && k !in Held(s.txns[u])
      {
      }
      EnterKeeps(s, t, r.(todo := r.todo - {k}, swept := if Live(s.tokens, k) then r.swept + {k} else r.swept), s.next);
    }
  }

  lemma LogoutWriteKeeps(s: Server, l: Id, now: Time)
    requires Invariant(s)
    ensures Invariant(Next(s, LogoutWrite(l, now))) && Advances(s.tokens, Next(s, LogoutWrite(l, now)).tokens)
  {
    if l in s.logouts && s.logouts[l].Reloaded? && s.logouts[l].token in s.tokens && !Locked(s, s.logouts[l].token) {
      var lo := s.logouts[l];
      var after := s.tokens[lo.token := SaveStale(s.tokens[lo.token], lo.copy, lo.stored, now)];
      SaveStaleIsOk(s.tokens, s.next, lo, now);
      forall u, k | u in s.txns && s.txns[u].Rotating? && k == s.txns[u].presented
        ensures Live(after, k) && s.txns[u].replacement !in after
      {
        assert TxnOk(s.tokens, s.next, s.txns[u]) && k in Held(s.txns[u]);
      }
      OthersStayOk(s.tokens, after, s.next, s.next, s.txns);
      AdvancingKeepsRotated(s.tokens, after, s.rotated);
    }
  }

  lemma LoginKeeps(s: Server, user: Id, expiresAt: Time)
    requires Invariant(s)
    ensures Invariant(Next(s, Login(user, expiresAt))) && Advances(s.tokens, Next(s, Login(user, expiresAt)).tokens)
  {
    hide TokensOk, RotatedOnce, Exclusive, LogoutsOk;
    var row := Token(user, s.next, expiresAt, None, None);
    InsertIsOk(s.tokens, s.next, row);
    forall u | u in s.txns
      ensures TxnOk(s.tokens, s.next, s.txns[u])
    {
    }
    OthersStayOk(s.tokens, s.tokens[s.next := row], s.next, s.next + 1, s.txns);
    AdvancingKeepsRotated(s.tokens, s.tokens[s.next := row], s.rotated);
  }

  lemma LogoutReadKeeps(s: Server, a: Step)
    requires Invariant(s) && a.LogoutRead?
    ensures Invariant(Next(s, a))
  {
  }

  lemma TooEarlyToCommit(s: Server, t: Id, now: Time)
    requires t in s.txns && (s.txns[t].Looking? || s.txns[t].Detected?)
    ensures Complete(s, t, now) == s
  {
  }

  lemma NextKeeps(s: Server, a: Step)
    requires Invariant(s)
    ensures Invariant(Next(s, a)) && Advances(s.tokens, Next(s, a).tokens)
  {
    hide TokensOk, TxnsOk, Examine, Finish, Complete, Revoke, Rotate, RotatedOnce;
    match a
    case Login(user, expiresAt) => LoginKeeps(s, user, expiresAt);
    case Present(t, k) =>
      if t !in s.txns && t !in s.outcomes { EnterKeeps(s, t, Looking(k), s.next); }
    case Guess(t) => FinishKeeps(s, t, Refused);
    case Abort(t) => FinishKeeps(s, t, Refused);
    case Lock(t, now, accountActive, expiresAt) =>
      if t in s.txns && s.txns[t].Looking? && !LockedByOther(s, t, s.txns[t].presented) {
        ExamineKeeps(s, t, s.txns[t].presented, now, accountActive, expiresAt);
      }
    case Snapshot(t) => SnapshotKeeps(s, t);
    case Sweep(t, k) => SweepKeeps(s, t, k);
    case LogoutRead(_, _, _) => LogoutReadKeeps(s, a);
    case LogoutReload(_) =>
    case LogoutWrite(l, now) => LogoutWriteKeeps(s, l, now);
    case Commit(t, now) =>
      if t in s.txns {
        if s.txns[t].Looking? || s.txns[t].Detected? { TooEarlyToCommit(s, t, now); }
        if s.txns[t].Rotating? { RotationKeeps(s, t, now); }
        if s.txns[t].Sweeping? { RevocationKeeps(s, t, now); }
      }
  }

  // ---- What the steps do, column by column ----

  /** Once it holds the presented row, a refresh goes on to rotate exactly an unrevoked, unexpired token
      of an active account, and to detect reuse exactly of a revoked one. */
  lemma LockOutcome(s: Server, t: Id, now: Time, accountActive: bool, expiresAt: Time)
    requires t in s.txns && s.txns[t].Looking? && !LockedByOther(s, t, s.txns[t].presented)
    ensures var d, k := Next(s, Lock(t, now, accountActive, expiresAt)), s.txns[t].presented;
            var rotates := k in s.tokens && s.tokens[k].revokedAt == None && now <= s.tokens[k].expiresAt
                           && accountActive;
            var reused := k in s.tokens && s.tokens[k].revokedAt != None;
            && d.tokens == s.tokens
            && (if rotates then d.txns == s.txns[t := Rotating(k, s.next, expiresAt)] && d.next == s.next + 1
                else if reused then d.txns == s.txns[t := Detected(k, s.tokens[k].user)] && d.next == s.next
                else d.txns == s.txns - {t} && d.outcomes == s.outcomes[t := Refused] && d.next == s.next)
            && (rotates || reused ==> d.outcomes == s.outcomes)
  {
  }

  /** The UPDATE goes over the rows of its user that are unrevoked when it begins. It waits for each that
      somebody else has locked, and takes it only if it is unrevoked then. */
  lemma SweepOutcome(s: Server, t: Id, k: Id)
    requires t in s.txns
    ensures s.txns[t].Detected? ==>
              var d, r := Next(s, Snapshot(t)), s.txns[t];
              && t in d.txns && d == s.(txns := s.txns[t := d.txns[t]])
              && d.txns[t].Sweeping? && d.txns[t].presented == r.presented && d.txns[t].user == r.user
              && d.txns[t].swept == {}
              && forall x :: x in d.txns[t].todo <==>
                   x in s.tokens && s.tokens[x].user == r.user && s.tokens[x].revokedAt == None
    ensures s.txns[t].Sweeping? && k in s.txns[t].todo ==>
              var r := s.txns[t];
              var takes := k in s.tokens && s.tokens[k].revokedAt == None;
              Next(s, Sweep(t, k)) ==
              if exists u :: u in s.txns && u != t && k in Held(s.txns[u]) then s
              else s.(txns := s.txns[t := Sweeping(r.presented, r.user, r.todo - {k},
                                                   if takes then r.swept + {k} else r.swept)])
  {
  }

  /** How a transaction begins and how it is given up. A token nobody has is refused at once. */
  lemma EntryOutcome(s: Server, t: Id, k: Id)
    ensures t !in s.txns && t !in s.outcomes ==>
              && Next(s, Present(t, k)) == s.(txns := s.txns[t := Looking(k)])
              && Next(s, Guess(t)) == s.(txns := s.txns - {t}, outcomes := s.outcomes[t := Refused])
    ensures t in s.txns ==> Next(s, Abort(t)) == s.(txns := s.txns - {t}, outcomes := s.outcomes[t := Refused])
  {
  }

  /** A login inserts one live token, the first of its family, under the next number. */
  lemma LoginOutcome(s: Server, user: Id, expiresAt: Time)
    ensures Next(s, Login(user, expiresAt)) ==
            s.(tokens := s.tokens[s.next := Token(user, s.next, expiresAt, None, None)], next := s.next + 1)
  {
  }

  /** Saving reloads the row as it is then, whoever has it locked, but waits for the lock to write. */
  lemma ReloadOutcome(s: Server, l: Id, now: Time)
    requires l in s.logouts && s.logouts[l].token in s.tokens
    ensures var lo := s.logouts[l];
            && (lo.Read? ==> Next(s, LogoutReload(l)) ==
                             s.(logouts := s.logouts[l := Reloaded(lo.token, lo.copy, s.tokens[lo.token])]))
            && ((exists u :: u in s.txns && lo.token in Held(s.txns[u])) ==> Next(s, LogoutWrite(l, now)) == s)
  {
  }

  /** A rotation that commits revokes the presented row, links it to the new one and inserts that, live,
      for the same user and family; no other row changes. */
  lemma RotationOutcome(s: Server, t: Id, now: Time)
    requires Invariant(s) && t in s.txns && s.txns[t].Rotating?
    ensures var d, r := Next(s, Commit(t, now)), s.txns[t];
            && r.presented in s.tokens && r.replacement !in s.tokens
            && d.outcomes == s.outcomes[t := Issued(r.replacement)] && d.rotated == s.rotated + [r.presented]
            && var row := s.tokens[r.presented];
               d.tokens ==
                 s.tokens[r.presented := Token(row.user, row.family, row.expiresAt, Some(now), Some(r.replacement))]
                         [r.replacement := Token(row.user, row.family, r.expiresAt, None, None)]
  {
    assert TxnOk(s.tokens, s.next, s.txns[t]);
  }

  /** A sweep that commits revokes exactly the rows it has swept. */
  lemma RevocationOutcome(s: Server, t: Id, now: Time)
    requires t in s.txns && s.txns[t].Sweeping? && s.txns[t].todo == {}
    ensures var d, swept := Next(s, Commit(t, now)), s.txns[t].swept;
            && d.outcomes == s.outcomes[t := ReuseDetected]
            && d.tokens.Keys == s.tokens.Keys
            && forall x :: x in s.tokens ==>
                 d.tokens[x] == if x in swept then s.tokens[x].(revokedAt := Some(now)) else s.tokens[x]
  {
  }

  /** A logout that saves leaves its token revoked at that time and every other row as it was. It keeps
      the link to a replacement unless that link was made between its read and its reload. */
  lemma LogoutOutcome(s: Server, l: Id, now: Time)
    requires Invariant(s) && l in s.logouts && s.logouts[l].Reloaded? && s.logouts[l].token in s.tokens
    requires !Locked(s, s.logouts[l].token)
    ensures var d, lo := Next(s, LogoutWrite(l, now)), s.logouts[l];
            && d.tokens == s.tokens[lo.token := s.tokens[lo.token].(
                 revokedAt := Some(now),
                 replacedBy := if lo.stored.replacedBy == None then s.tokens[lo.token].replacedBy else None)]
            && d.tokens[lo.token].revokedAt == Some(now) && !Live(d.tokens, lo.token)
            && l !in d.logouts && d.txns == s.txns && d.outcomes == s.outcomes
  {
    assert s.logouts[l].copy.replacedBy == None;
  }

  /** A logout begins exactly for an unrevoked and unexpired token. */
  lemma LogoutReadOutcome(s: Server, l: Id, k: Id, now: Time)
    requires l !in s.logouts
    ensures var d := Next(s, LogoutRead(l, k, now));
            && d.tokens == s.tokens
            && (if k in s.tokens && s.tokens[k].revokedAt == None && now <= s.tokens[k].expiresAt
                then d.logouts == s.logouts[l := Read(k, s.tokens[k])] else d == s)
  {
  }

  // ---- Whole runs ----

  lemma {:induction false} StepsKeep(s: Server, steps: seq<Step>)
    requires Invariant(s)
    ensures Invariant(RunSteps(s, steps)) && Advances(s.tokens, RunSteps(s, steps).tokens)
  {
    hide Invariant, Next;
    if steps != [] {
      StepsKeep(s, steps[..|steps| - 1]);
      NextKeeps(RunSteps(s, steps[..|steps| - 1]), steps[|steps| - 1]);
    }
  }

  /** The token `hops` replacements after k, if there is one. */
  function Follow(tokens: map<Id, Token>, k: Id, hops: nat): Option<Id>
    decreases hops
  {
    if hops == 0 then Some(k)
    else if k in tokens && tokens[k].replacedBy.Some? then Follow(tokens, tokens[k].replacedBy.value, hops - 1)
    else None
  }

  lemma {:induction false} ChainEnds(tokens: map<Id, Token>, next: Id, k: Id, hops: nat)
    requires TokensOk(tokens, next) && k in tokens && k + hops >= next
    ensures Follow(tokens, k, hops) == None
    decreases hops
  {
    if tokens[k].replacedBy.Some? {
      ChainEnds(tokens, next, tokens[k].replacedBy.value, hops - 1);
    }
  }

  /** After any interleaving of logins, refreshes and logouts: no token was rotated twice, no family
      has two live tokens, nothing revoked came back, and every replacement chain ends. */
  lemma TokenFamilies(earlier: seq<Step>, later: seq<Step>)
    ensures var s := RunSteps(EMPTY_SERVER, earlier);
            var d := RunSteps(s, later);
            && (forall i, j :: 0 <= i < j < |d.rotated| ==> d.rotated[i] != d.rotated[j])
            && OneLivePerFamily(d.tokens)
            && (forall k :: k in s.tokens && s.tokens[k].revokedAt.Some? ==>
                  k in d.tokens && d.tokens[k].revokedAt.Some?)
            && (forall k :: k in d.tokens ==> Follow(d.tokens, k, d.next) == None)
  {
    var s := RunSteps(EMPTY_SERVER, earlier);
    var d := RunSteps(s, later);
    StepsKeep(EMPTY_SERVER, earlier);
    StepsKeep(s, later);
    forall k | k in d.tokens
      ensures Follow(d.tokens, k, d.next) == None
    {
      ChainEnds(d.tokens, d.next, k, d.next);
    }
  }

  // ---- When reuse detection leaves its user without a token ----

  ghost predicate Revoked(tokens: map<Id, Token>, user: Id) {
    forall x :: x in tokens && tokens[x].user == user ==> !Live(tokens, x)
  }

  /** Every live token of the user is a row of `base` already. */
  ghost predicate OldOnly(base: map<Id, Token>, tokens: map<Id, Token>, user: Id) {
    forall x :: Live(tokens, x) && tokens[x].user == user ==> x in base
  }

  /** A step that gives the user a new token: a login, or a rotation that commits. */
  predicate GivesToken(s: Server, user: Id, a: Step) {
    || (a.Login? && a.user == user)
    || (a.Commit? && a.t in s.txns && s.txns[a.t].Rotating? && s.txns[a.t].presented in s.tokens
        && s.tokens[s.txns[a.t].presented].user == user)
  }

  /** A step, other than one of transaction t, that revokes tokens of the user without replacing
      them: another sweep that commits, or a logout that saves. */
  predicate RevokesToken(s: Server, t: Id, user: Id, a: Step) {
    || (a.Commit? && a.t != t && a.t in s.txns && s.txns[a.t].Sweeping? && s.txns[a.t].user == user)
    || (a.LogoutWrite? && a.l in s.logouts && Live(s.tokens, s.logouts[a.l].token)
        && s.tokens[s.logouts[a.l].token].user == user)
  }

  /** Since its snapshot of the rows in `base`, t has all of the user's live ones among them in hand,
      and no others. */
  ghost predicate Covers(s: Server, t: Id, user: Id, base: map<Id, Token>) {
    && t in s.txns && s.txns[t].Sweeping? && s.txns[t].user == user
    && s.txns[t].todo + s.txns[t].swept <= base.Keys <= s.tokens.Keys
    && forall x :: Live(s.tokens, x) && s.tokens[x].user == user && x in base ==> x in s.txns[t].todo + s.txns[t].swept
  }

  lemma DetectionHolds(s: Server, t: Id, now: Time, accountActive: bool, expiresAt: Time)
    requires t in s.txns && s.txns[t].Looking? && !LockedByOther(s, t, s.txns[t].presented)
    requires s.txns[t].presented in s.tokens && s.tokens[s.txns[t].presented].revokedAt.Some?
    ensures var d, k := Next(s, Lock(t, now, accountActive, expiresAt)), s.txns[t].presented;
            d == s.(txns := s.txns[t := Detected(k, s.tokens[k].user)])
  {
  }

  lemma SnapshotCovers(s: Server, t: Id)
    requires t in s.txns && s.txns[t].Detected?
    ensures Covers(Next(s, Snapshot(t)), t, s.txns[t].user, s.tokens)
    ensures Next(s, Snapshot(t)).tokens == s.tokens
  {
  }

  /** A transaction that has begun is in flight or has an answer, for good. */
  lemma TxnEndsOnce(s: Server, t: Id, a: Step)
    ensures t in s.txns || t in s.outcomes ==> t in Next(s, a).txns || t in Next(s, a).outcomes
    ensures t in s.outcomes && t !in s.txns ==> t !in Next(s, a).txns
  {
  }

  lemma {:induction false} StillInFlight(s: Server, t: Id, steps: seq<Step>)
    requires t in s.txns || t in s.outcomes
    ensures t in RunSteps(s, steps).txns || t in RunSteps(s, steps).outcomes
    ensures t !in s.txns ==> t !in RunSteps(s, steps).txns
  {
    hide Next;
    if steps != [] {
      StillInFlight(s, t, steps[..|steps| - 1]);
      TxnEndsOnce(RunSteps(s, steps[..|steps| - 1]), t, steps[|steps| - 1]);
    }
  }

  /** In flight at the end means in flight before the last step. */
  lemma InFlightBefore(s: Server, t: Id, steps: seq<Step>)
    requires t in s.txns && steps != [] && t in RunSteps(s, steps).txns
    ensures t in RunSteps(s, steps[..|steps| - 1]).txns
  {
    hide Next;
    StillInFlight(s, t, steps[..|steps| - 1]);
    TxnEndsOnce(RunSteps(s, steps[..|steps| - 1]), t, steps[|steps| - 1]);
  }

  lemma SweepingStays(s: Server, t: Id, a: Step)
    requires t in s.txns && s.txns[t].Sweeping? && t in Next(s, a).txns
    ensures Next(s, a).txns[t].Sweeping? && Next(s, a).txns[t].user == s.txns[t].user
    ensures var r, q := s.txns[t], Next(s, a).txns[t];
            && q.todo + q.swept <= r.todo + r.swept
            && forall x :: Live(s.tokens, x) && x in r.todo + r.swept ==> x in q.todo + q.swept
  {
  }

  lemma StepKeepsCover(s: Server, t: Id, user: Id, base: map<Id, Token>, a: Step)
    requires Invariant(s) && Covers(s, t, user, base) && t in Next(s, a).txns
    ensures Covers(Next(s, a), t, user, base)
  {
    hide Next, TokensOk, TxnsOk;
    NextKeeps(s, a);
    SweepingStays(s, t, a);
  }

  lemma {:induction false} WindowKeepsCover(s: Server, t: Id, user: Id, base: map<Id, Token>, window: seq<Step>)
    requires Invariant(s) && Covers(s, t, user, base) && t in RunSteps(s, window).txns
    ensures Covers(RunSteps(s, window), t, user, base)
  {
    if window != [] {
      assert t in s.txns;
      hide Invariant, Next, Covers;
      var n := |window| - 1;
      InFlightBefore(s, t, window);
      WindowKeepsCover(s, t, user, base, window[..n]);
      StepsKeep(s, window[..n]);
      StepKeepsCover(RunSteps(s, window[..n]), t, user, base, window[n]);
    }
  }

  lemma CommitRevokesIff(s: Server, t: Id, user: Id, base: map<Id, Token>, now: Time)
    requires Covers(s, t, user, base) && s.txns[t].todo == {}
    ensures var d := Next(s, Commit(t, now));
            && t in d.outcomes && d.outcomes[t] == ReuseDetected && t !in d.txns
            && (Revoked(d.tokens, user) <==> OldOnly(base, s.tokens, user))
  {
    var d := Next(s, Commit(t, now));
    assert d.tokens == Revoke(s.tokens, s.txns[t].swept, now);
    forall x | x in s.tokens && s.tokens[x].user == user
      ensures Live(d.tokens, x) <==> Live(s.tokens, x) && x !in base
    {
    }
  }

  /** The run of a reuse detection up to its commit: `gap` runs between finding the row revoked and
      the snapshot of the UPDATE, `window` from there on. */
  function AtSnapshot(s: Server, lock: Step, gap: seq<Step>): Server {
    RunSteps(Next(s, lock), gap)
  }

  function AtCommit(s: Server, t: Id, lock: Step, gap: seq<Step>, window: seq<Step>): Server {
    RunSteps(Next(AtSnapshot(s, lock, gap), Snapshot(t)), window)
  }

  /** A revoked token was presented and its row is locked; the transaction gets to its UPDATE and to
      the end of it without being aborted. */
  ghost predicate Detects(s: Server, t: Id, lock: Step, gap: seq<Step>, window: seq<Step>) {
    && Invariant(s) && lock.Lock? && lock.t == t
    && t in s.txns && s.txns[t].Looking? && !LockedByOther(s, t, s.txns[t].presented)
    && s.txns[t].presented in s.tokens && s.tokens[s.txns[t].presented].revokedAt.Some?
    && (var p := AtSnapshot(s, lock, gap); t in p.txns && p.txns[t].Detected?)
    && (var q := AtCommit(s, t, lock, gap, window); t in q.txns && q.txns[t].Sweeping? && q.txns[t].todo == {})
  }

  lemma StageAdvances(s: Server, t: Id, a: Step)
    requires t in s.txns && t in Next(s, a).txns
    ensures s.txns[t].Detected? ==> Next(s, a).txns[t] == s.txns[t] || Next(s, a).txns[t].Sweeping?
    ensures s.txns[t].Sweeping? ==> Next(s, a).txns[t].Sweeping?
  {
  }

  /** Until its snapshot, a detection goes on for the user it found. */
  lemma {:induction false} DetectionStays(s: Server, t: Id, steps: seq<Step>)
    requires t in s.txns && s.txns[t].Detected? && t in RunSteps(s, steps).txns
    ensures RunSteps(s, steps).txns[t] == s.txns[t] || RunSteps(s, steps).txns[t].Sweeping?
  {
    if steps != [] {
      hide Next;
      InFlightBefore(s, t, steps);
      DetectionStays(s, t, steps[..|steps| - 1]);
      StageAdvances(RunSteps(s, steps[..|steps| - 1]), t, steps[|steps| - 1]);
    }
  }

  lemma DetectionReachesCommit(s: Server, t: Id, lock: Step, gap: seq<Step>, window: seq<Step>)
    requires Detects(s, t, lock, gap, window)
    ensures var user := s.tokens[s.txns[t].presented].user;
            var p := AtSnapshot(s, lock, gap);
            && p.txns[t].user == user
            && Invariant(Next(p, Snapshot(t))) && Covers(Next(p, Snapshot(t)), t, user, p.tokens)
            && Next(p, Snapshot(t)).tokens == p.tokens
            && Invariant(AtCommit(s, t, lock, gap, window))
            && Covers(AtCommit(s, t, lock, gap, window), t, user, p.tokens)
  {
    hide Invariant, Covers, Next;
    var user := s.tokens[s.txns[t].presented].user;
    DetectionHolds(s, t, lock.now, lock.accountActive, lock.expiresAt);
    var d, p := Next(s, lock), AtSnapshot(s, lock, gap);
    NextKeeps(s, lock);
    DetectionStays(d, t, gap);
    StepsKeep(d, gap);
    SnapshotCovers(p, t);
    NextKeeps(p, Snapshot(t));
    StepsKeep(Next(p, Snapshot(t)), window);
    WindowKeepsCover(Next(p, Snapshot(t)), t, user, p.tokens, window);
  }

  /** Reuse detection, from the lock on the revoked row to its commit, with anything in between: it is
      answered as reuse, and leaves its user no live token if and only if every token the user has live
      at the commit was a row already at the snapshot of the UPDATE. */
  lemma ReuseRevokesIff(s: Server, t: Id, lock: Step, gap: seq<Step>, window: seq<Step>, now: Time)
    requires Detects(s, t, lock, gap, window)
    ensures var user := s.tokens[s.txns[t].presented].user;
            var p, q := AtSnapshot(s, lock, gap), AtCommit(s, t, lock, gap, window);
            var d := Next(q, Commit(t, now));
            && t in d.outcomes && d.outcomes[t] == ReuseDetected
            && (Revoked(d.tokens, user) <==> OldOnly(p.tokens, q.tokens, user))
  {
    hide Invariant, Covers, Next, AtSnapshot, AtCommit;
    DetectionReachesCommit(s, t, lock, gap, window);
    var user := s.tokens[s.txns[t].presented].user;
    CommitRevokesIff(AtCommit(s, t, lock, gap, window), t, user, AtSnapshot(s, lock, gap).tokens, now);
  }

  // ---- The same in terms of what happens in the window ----

  /** All rows of the user were rows of `base` already. */
  ghost predicate OldRows(base: map<Id, Token>, tokens: map<Id, Token>, user: Id) {
    forall x :: x in tokens && tokens[x].user == user ==> x in base && base[x].user == user
  }

  lemma QuietAddsNoToken(s: Server, user: Id, a: Step)
    requires Invariant(s) && !GivesToken(s, user, a)
    ensures OldRows(s.tokens, Next(s, a).tokens, user)
  {
    NextKeeps(s, a);
    StepAddsRows(s, a);
    hide Next, Invariant, Live;
  }

  /** Only a login and the commit of a rotation add a row. */
  lemma StepAddsRows(s: Server, a: Step)
    ensures var d := Next(s, a).tokens;
            forall x :: x in d && x !in s.tokens ==>
              || (a.Login? && x == s.next && d[x].user == a.user)
              || (a.Commit? && a.t in s.txns && s.txns[a.t].Rotating? && s.txns[a.t].presented in s.tokens
                  && d[x].user == s.tokens[s.txns[a.t].presented].user)
  {
    hide Invariant, Live;
  }

  /** No step of the run gives the user a token. */
  ghost predicate Quiet(s: Server, user: Id, steps: seq<Step>) {
    forall i :: 0 <= i < |steps| ==> !GivesToken(RunSteps(s, steps[..i]), user, steps[i])
  }

  /** Nothing but transaction t revokes tokens of the user for good during the run. */
  ghost predicate SoleRevoker(s: Server, t: Id, user: Id, steps: seq<Step>) {
    forall i :: 0 <= i < |steps| ==> !RevokesToken(RunSteps(s, steps[..i]), t, user, steps[i])
  }

  lemma QuietPrefix(s: Server, t: Id, user: Id, steps: seq<Step>)
    requires steps != []
    ensures var n := |steps| - 1;
            && (Quiet(s, user, steps) <==>
                  Quiet(s, user, steps[..n]) && !GivesToken(RunSteps(s, steps[..n]), user, steps[n]))
            && (SoleRevoker(s, t, user, steps) ==>
                  SoleRevoker(s, t, user, steps[..n]) && !RevokesToken(RunSteps(s, steps[..n]), t, user, steps[n]))
  {
    hide GivesToken, RevokesToken, RunSteps;
    var n := |steps| - 1;
    forall i | 0 <= i < n
      ensures steps[..n][..i] == steps[..i] && steps[..n][i] == steps[i]
    {
    }
  }

  /** In a quiet run the user keeps to old rows, whoever else revokes them. */
  lemma {:induction false} QuietIsOldOnly(s: Server, user: Id, steps: seq<Step>)
    requires Invariant(s) && Quiet(s, user, steps)
    ensures OldRows(s.tokens, RunSteps(s, steps).tokens, user)
  {
    if steps != [] {
      hide Invariant, Next, GivesToken, Quiet;
      var n := |steps| - 1;
      QuietPrefix(s, 0, user, steps);
      QuietIsOldOnly(s, user, steps[..n]);
      StepsKeep(s, steps[..n]);
      QuietAddsNoToken(RunSteps(s, steps[..n]), user, steps[n]);
    }
  }

  lemma OldRowsAreOldOnly(base: map<Id, Token>, tokens: map<Id, Token>, user: Id)
    requires OldRows(base, tokens, user)
    ensures OldOnly(base, tokens, user)
  {
  }

  lemma GivenTokenIsNew(s: Server, user: Id, base: map<Id, Token>, a: Step)
    requires Invariant(s) && base.Keys <= s.tokens.Keys && GivesToken(s, user, a)
    ensures !OldOnly(base, Next(s, a).tokens, user)
  {
    var d := Next(s, a).tokens;
    if a.Login? {
      assert Live(d, s.next) && s.next !in s.tokens;
    } else {
      var r := s.txns[a.t];
      assert TxnOk(s.tokens, s.next, r);
      assert Live(d, r.replacement) && d[r.replacement].user == user;
    }
  }

  /** A new live token, or a successor of it, stays: only a revoker could end it. */
  lemma NewTokenStays(s: Server, t: Id, user: Id, base: map<Id, Token>, a: Step)
    requires Invariant(s) && base.Keys <= s.tokens.Keys && !OldOnly(base, s.tokens, user)
    requires !RevokesToken(s, t, user, a) && t in s.txns && s.txns[t].Sweeping? && t in Next(s, a).txns
    ensures !OldOnly(base, Next(s, a).tokens, user)
  {
    if GivesToken(s, user, a) {
      GivenTokenIsNew(s, user, base, a);
    } else {
      var x :| Live(s.tokens, x) && s.tokens[x].user == user && x !in base;
      LiveStays(s, t, x, a);
      assert Live(Next(s, a).tokens, x);
    }
  }

  lemma LoginSpares(s: Server, a: Step, k: Id)
    requires a.Login? && k in s.tokens && k != s.next
    ensures var d := Next(s, a).tokens; k in d && d[k] == s.tokens[k]
  {
  }

  lemma LogoutSpares(s: Server, a: Step, k: Id)
    requires a.LogoutWrite? && k in s.tokens && (a.l in s.logouts ==> s.logouts[a.l].token != k)
    ensures var d := Next(s, a).tokens; k in d && d[k] == s.tokens[k]
  {
  }

  lemma CommitSpares(s: Server, a: Step, k: Id)
    requires a.Commit? && a.t in s.txns && TxnOk(s.tokens, s.next, s.txns[a.t]) && k in s.tokens
    requires var r := s.txns[a.t];
             && (r.Rotating? ==> r.presented != k)
             && (r.Sweeping? ==> s.tokens[k].user != r.user)
    ensures var d := Next(s, a).tokens; k in d && d[k] == s.tokens[k]
  {
  }

  lemma RowsStay(s: Server, a: Step)
    requires !a.Login? && !a.LogoutWrite? && !(a.Commit? && a.t in s.txns)
    ensures Next(s, a).tokens == s.tokens
  {
  }

  lemma LiveStays(s: Server, t: Id, x: Id, a: Step)
    requires Invariant(s) && Live(s.tokens, x)
    requires !RevokesToken(s, t, s.tokens[x].user, a) && !GivesToken(s, s.tokens[x].user, a)
    requires t in s.txns && s.txns[t].Sweeping? && t in Next(s, a).txns
    ensures Live(Next(s, a).tokens, x) && Next(s, a).tokens[x] == s.tokens[x]
  {
    if a.Login? {
      assert x != s.next;
      LoginSpares(s, a, x);
    } else if a.Commit? && a.t == t {
      assert s.txns[t].todo != {};
    } else if a.Commit? && a.t in s.txns {
      assert TxnOk(s.tokens, s.next, s.txns[a.t]);
      CommitSpares(s, a, x);
    } else if a.LogoutWrite? {
      LogoutSpares(s, a, x);
    } else {
      RowsStay(s, a);
    }
    hide Invariant, Next;
  }

  /** Without another revoker, whoever got a token during the run still has a new one at its end. */
  lemma {:induction false} OldOnlyIffQuiet(s: Server, t: Id, user: Id, base: map<Id, Token>, steps: seq<Step>)
    requires Invariant(s) && base == s.tokens && SoleRevoker(s, t, user, steps)
    requires t in s.txns && s.txns[t].Sweeping? && t in RunSteps(s, steps).txns
    ensures OldOnly(base, RunSteps(s, steps).tokens, user) <==> Quiet(s, user, steps)
    ensures RunSteps(s, steps).txns[t].Sweeping?
  {
    if steps != [] {
      hide Invariant, Next, GivesToken, RevokesToken, Quiet, SoleRevoker, OldOnly;
      var n := |steps| - 1;
      QuietPrefix(s, t, user, steps);
      InFlightBefore(s, t, steps);
      OldOnlyIffQuiet(s, t, user, base, steps[..n]);
      StepsKeep(s, steps[..n]);
      var q := RunSteps(s, steps[..n]);
      StageAdvances(q, t, steps[n]);
      if Quiet(s, user, steps) {
        QuietIsOldOnly(s, user, steps);
        OldRowsAreOldOnly(base, RunSteps(s, steps).tokens, user);
      } else if GivesToken(q, user, steps[n]) {
        GivenTokenIsNew(q, user, base, steps[n]);
      } else {
        NewTokenStays(q, t, user, base, steps[n]);
      }
    }
  }

  /** If nobody else revokes the user's tokens between the snapshot and the commit, the detection is
      complete if and only if the user is given no token in between. */
  lemma ReuseRevokesIffQuiet(s: Server, t: Id, lock: Step, gap: seq<Step>, window: seq<Step>, now: Time)
    requires Detects(s, t, lock, gap, window)
    requires var p := Next(AtSnapshot(s, lock, gap), Snapshot(t));
             SoleRevoker(p, t, s.tokens[s.txns[t].presented].user, window)
    ensures var user := s.tokens[s.txns[t].presented].user;
            var d := Next(AtCommit(s, t, lock, gap, window), Commit(t, now));
            Revoked(d.tokens, user) <==> Quiet(Next(AtSnapshot(s, lock, gap), Snapshot(t)), user, window)
  {
    hide Invariant, Next, AtSnapshot, Revoked, OldOnly, Quiet, SoleRevoker;
    ReuseRevokesIff(s, t, lock, gap, window, now);
    DetectionReachesCommit(s, t, lock, gap, window);
    var p, user := AtSnapshot(s, lock, gap), s.tokens[s.txns[t].presented].user;
    OldOnlyIffQuiet(Next(p, Snapshot(t)), t, user, p.tokens, window);
  }

  /** And a quiet window suffices whoever else revokes. */
  lemma ReuseRevokesUser(s: Server, t: Id, lock: Step, gap: seq<Step>, window: seq<Step>, now: Time)
    requires Detects(s, t, lock, gap, window)
    requires Quiet(Next(AtSnapshot(s, lock, gap), Snapshot(t)), s.tokens[s.txns[t].presented].user, window)
    ensures var d := Next(AtCommit(s, t, lock, gap, window), Commit(t, now));
            Revoked(d.tokens, s.tokens[s.txns[t].presented].user)
  {
    hide Invariant, Next, AtSnapshot, Quiet;
    ReuseRevokesIff(s, t, lock, gap, window, now);
    DetectionReachesCommit(s, t, lock, gap, window);
    var p, user := AtSnapshot(s, lock, gap), s.tokens[s.txns[t].presented].user;
    QuietIsOldOnly(Next(p, Snapshot(t)), user, window);
    OldRowsAreOldOnly(p.tokens, AtCommit(s, t, lock, gap, window).tokens, user);
  }

  lemma LastStep(s: Server, base: seq<Step>, a: Step)
    ensures RunSteps(s, base + [a]) == Next(RunSteps(s, base), a)
  {
  }

  const SPENT := Token(7, 0, 9, Some(1), Some(1))
  const CURRENT := Token(7, 0, 9, None, None)

  /** One session whose first token has been rotated: the second is being rotated again while the
      first is presented once more. */
  const MID_RACE := Server(map[0 := SPENT, 1 := CURRENT], 3,
                           map[1 := Rotating(1, 2, 9), 2 := Sweeping(0, 7, {1}, {})],
                           map[0 := Issued(1)], map[], [0])

  const AFTER_ROTATION := Server(map[0 := SPENT, 1 := CURRENT], 2, map[], map[0 := Issued(1)], map[], [0])

  const ROTATION := [Login(7, 9), Present(0, 0), Lock(0, 1, true, 9), Commit(0, 1)]

  const TO_MID_RACE :=
    ROTATION + [Present(1, 1)] + [Lock(1, 1, true, 9)] + [Present(2, 0)] + [Lock(2, 1, true, 9)] + [Snapshot(2)]

  lemma RotationIsReachable()
    ensures RunSteps(EMPTY_SERVER, ROTATION) == AFTER_ROTATION
  {
    var s1 := Server(map[0 := CURRENT], 1, map[], map[], map[], []);
    LastStep(EMPTY_SERVER, [], ROTATION[0]);
    assert ROTATION[..1] == [] + [Login(7, 9)];
    AssertTwo(s1, ROTATION[..1], ROTATION[1], ROTATION[2]);
    LastStep(EMPTY_SERVER, ROTATION[..1] + [ROTATION[1]] + [ROTATION[2]], ROTATION[3]);
    assert ROTATION == ROTATION[..1] + [ROTATION[1]] + [ROTATION[2]] + [ROTATION[3]];
    var s3 := s1.(txns := map[0 := Rotating(0, 1, 9)], next := 2);
    assert Next(Next(s1, ROTATION[1]), ROTATION[2]) == s3;
    assert Next(s3, ROTATION[3]) == AFTER_ROTATION;
  }

  const FIRST_LOCKED := AFTER_ROTATION.(txns := map[1 := Rotating(1, 2, 9)], next := 3)

  lemma FirstLock()
    ensures Next(Next(AFTER_ROTATION, Present(1, 1)), Lock(1, 1, true, 9)) == FIRST_LOCKED
  {
    assert Next(AFTER_ROTATION, Present(1, 1)) == AFTER_ROTATION.(txns := map[1 := Looking(1)]);
  }

  lemma SecondLock()
    ensures Next(Next(FIRST_LOCKED, Present(2, 0)), Lock(2, 1, true, 9)) ==
            FIRST_LOCKED.(txns := FIRST_LOCKED.txns[2 := Detected(0, 7)])
  {
    var s := FIRST_LOCKED;
    assert Next(s, Present(2, 0)) == s.(txns := s.txns[2 := Looking(0)]);
  }

  lemma SnapshotInRace()
    ensures Next(FIRST_LOCKED.(txns := FIRST_LOCKED.txns[2 := Detected(0, 7)]), Snapshot(2)) == MID_RACE
  {
    assert LiveOf(FIRST_LOCKED.tokens, 7) == {1};
  }

  lemma MidRaceIsReachable()
    ensures RunSteps(EMPTY_SERVER, TO_MID_RACE) == MID_RACE
  {
    hide Next, RunSteps;
    var first := ROTATION + [Present(1, 1)] + [Lock(1, 1, true, 9)];
    RotationIsReachable();
    AssertTwo(AFTER_ROTATION, ROTATION, Present(1, 1), Lock(1, 1, true, 9));
    FirstLock();
    AssertTwo(FIRST_LOCKED, first, Present(2, 0), Lock(2, 1, true, 9));
    SecondLock();
    LastStep(EMPTY_SERVER, first + [Present(2, 0)] + [Lock(2, 1, true, 9)], Snapshot(2));
    SnapshotInRace();
  }

  lemma AssertTwo(s: Server, base: seq<Step>, a: Step, b: Step)
    requires RunSteps(EMPTY_SERVER, base) == s
    ensures RunSteps(EMPTY_SERVER, base + [a] + [b]) == Next(Next(s, a), b)
  {
  }

  /** A window that is not quiet is real: a rotation commits after the snapshot, so when the detection
      commits its user still has the live token 2. */
  lemma RacingRotationSurvives()
    ensures var s := RunSteps(EMPTY_SERVER, TO_MID_RACE + [Commit(1, 2)] + [Sweep(2, 1)] + [Commit(2, 3)]);
            && 2 in s.outcomes && s.outcomes[2] == ReuseDetected
            && Live(s.tokens, 2) && s.tokens[2].user == 7
  {
    hide RunSteps;
    MidRaceIsReachable();
    AssertTwo(MID_RACE, TO_MID_RACE, Commit(1, 2), Sweep(2, 1));
    LastStep(EMPTY_SERVER, TO_MID_RACE + [Commit(1, 2)] + [Sweep(2, 1)], Commit(2, 3));
    var s := Next(MID_RACE, Commit(1, 2));
    assert s.txns == map[2 := Sweeping(0, 7, {1}, {})] && s.tokens[1].revokedAt == Some(2);
    var q := Next(s, Sweep(2, 1));
    assert q.txns[2].todo == {} && q.txns[2].swept == {};
  }
}
