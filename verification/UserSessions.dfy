/** Several sessions of one user on the token server. As long as each token is in one use at a time and
    is presented while live, no refresh of any of them is ever taken for reuse. */
module UserSessions {
  import opened Wrappers
  import opened Tokens

  predicate OnReuse(r: Refresh) {
    r.Detected? || r.Sweeping?
  }

  predicate Presented(s: Server, k: Id) {
    exists t :: t in s.txns && s.txns[t].presented == k
  }

  predicate LoggingOut(s: Server, k: Id) {
    exists l :: l in s.logouts && s.logouts[l].token == k
  }

  /** The transaction acts for the user, that is, on one of the user's tokens. */
  predicate ActsFor(s: Server, t: Id, user: Id)
    requires t in s.txns
  {
    s.txns[t].presented in s.tokens && s.tokens[s.txns[t].presented].user == user
  }

  /** What the user's sessions may start: a refresh with a live token that nothing else in flight is
      using, and a logout of a token that is not being refreshed. Logins, guesses of tokens that do not
      exist, and other users' traffic are free. */
  predicate WellBehaved(s: Server, user: Id, step: Step) {
    match step
    case Present(_, k) =>
      k in s.tokens && (s.tokens[k].user == user ==> Live(s.tokens, k) && !Presented(s, k) && !LoggingOut(s, k))
    case LogoutRead(_, k, _) => k in s.tokens && s.tokens[k].user == user ==> !Presented(s, k)
    case _ => true
  }

  /** Every transaction of the user holds a live token of its own, and none is on reuse. */
  ghost predicate Orderly(s: Server, user: Id) {
    && Invariant(s)
    && (forall t :: t in s.txns ==> t !in s.outcomes && s.txns[t].presented in s.tokens)
    && (forall t :: t in s.txns && ActsFor(s, t, user) ==> !OnReuse(s.txns[t]) && Live(s.tokens, s.txns[t].presented))
    && (forall t, u :: t in s.txns && u in s.txns && t != u && ActsFor(s, t, user) ==>
          s.txns[t].presented != s.txns[u].presented)
    && (forall l :: l in s.logouts ==> s.logouts[l].token in s.tokens)
    && (forall l :: l in s.logouts && s.tokens[s.logouts[l].token].user == user ==> !Presented(s, s.logouts[l].token))
  }

  lemma EmptyServerIsOrderly(user: Id)
    ensures Orderly(EMPTY_SERVER, user)
  {
  }

  // ---- What each server step does, apart from the rows ----

  ghost predicate Moved(s: Server, d: Server, t: Id, r: Refresh) {
    && d.txns == s.txns[t := r] && d.outcomes == s.outcomes && d.logouts == s.logouts
  }

  ghost predicate Ended(s: Server, d: Server, t: Id, outcome: Outcome) {
    && d.txns == s.txns - {t} && d.outcomes == s.outcomes[t := outcome] && d.logouts == s.logouts
  }

  lemma LockEffect(s: Server, step: Step)
    requires step.Lock? && Next(s, step) != s
    ensures var d, t := Next(s, step), step.t;
            && t in s.txns && d.tokens == s.tokens
            && (t in d.txns ==> Moved(s, d, t, d.txns[t]) && d.txns[t].presented == s.txns[t].presented)
            && (t in d.txns && Live(s.tokens, s.txns[t].presented) ==> !OnReuse(d.txns[t]))
            && (t !in d.txns ==> Ended(s, d, t, Refused))
  {
  }

  lemma SweepEffect(s: Server, step: Step)
    requires (step.Snapshot? || step.Sweep?) && Next(s, step) != s
    ensures var d, t := Next(s, step), step.t;
            && t in s.txns && OnReuse(s.txns[t]) && d.tokens == s.tokens
            && t in d.txns && Moved(s, d, t, d.txns[t]) && d.txns[t].presented == s.txns[t].presented
  {
  }

  lemma CommitEffect(s: Server, step: Step)
    requires step.Commit? && Next(s, step) != s
    ensures var d, t := Next(s, step), step.t;
            && t in s.txns && t in d.outcomes && Ended(s, d, t, d.outcomes[t])
            && (s.txns[t].Rotating? ==>
                  && d.outcomes[t] == Issued(s.txns[t].replacement)
                  && s.txns[t].presented in s.tokens && s.txns[t].replacement in d.tokens
                  && var row := d.tokens[s.txns[t].replacement];
                     row.revokedAt == None && row.user == s.tokens[s.txns[t].presented].user
                     && row.family == s.tokens[s.txns[t].presented].family)
            && !s.txns[t].Looking?
  {
  }

  lemma EntryEffect(s: Server, step: Step)
    requires (step.Present? || step.Abort?) && Next(s, step) != s
    ensures var d := Next(s, step);
            && d.tokens == s.tokens
            && (step.Present? ==>
                  step.t !in s.txns && step.t !in s.outcomes && Moved(s, d, step.t, Looking(step.token)))
            && (step.Abort? ==> step.t in s.txns && Ended(s, d, step.t, Refused))
  {
  }

  lemma GuessEffect(s: Server, step: Step)
    requires step.Guess?
    ensures var d := Next(s, step);
            && d.tokens == s.tokens && d.txns == s.txns && d.logouts == s.logouts
            && (d.outcomes == s.outcomes || (step.t !in s.txns && step.t !in s.outcomes
                                             && d.outcomes == s.outcomes[step.t := Refused]))
  {
    assert step.t !in s.txns ==> s.txns - {step.t} == s.txns;
  }

  lemma RowsEffect(s: Server, step: Step)
    requires step.Login? || step.LogoutRead? || step.LogoutReload? || step.LogoutWrite?
    ensures var d := Next(s, step);
            && d.txns == s.txns && d.outcomes == s.outcomes
            && (forall l :: l in d.logouts && l in s.logouts ==> d.logouts[l].token == s.logouts[l].token)
            && (forall l :: l in d.logouts && l !in s.logouts ==>
                  step.LogoutRead? && d.logouts[l].token == step.token && step.token in s.tokens)
  {
  }

  // ---- Live tokens of the user survive everyone else ----

  /** A live token of the user ends only by the commit of its own rotation or the save of its own
      logout. */
  lemma LiveSurvives(s: Server, user: Id, step: Step, k: Id)
    requires Orderly(s, user) && Live(s.tokens, k) && s.tokens[k].user == user
    requires !(step.Commit? && step.t in s.txns && s.txns[step.t].presented == k)
    requires step.LogoutWrite? && step.l in s.logouts ==> s.logouts[step.l].token != k
    ensures var d := Next(s, step).tokens; k in d && d[k] == s.tokens[k]
  {
    if step.Commit? && step.t in s.txns {
      assert TxnOk(s.tokens, s.next, s.txns[step.t]);
      CommitSpares(s, step, k);
    } else if step.Login? {
      assert k != s.next;
      LoginSpares(s, step, k);
    } else if step.LogoutWrite? {
      LogoutSpares(s, step, k);
    } else {
      RowsStay(s, step);
    }
    hide Next, Invariant;
  }

  // ---- Hence the sessions stay in order ----

  lemma RowsKeepOrder(s: Server, d: Server, user: Id)
    requires Orderly(s, user) && Invariant(d) && Advances(s.tokens, d.tokens)
    requires d.txns == s.txns && d.outcomes == s.outcomes
    requires forall t :: t in s.txns && ActsFor(s, t, user) ==> Live(d.tokens, s.txns[t].presented)
    requires forall l :: l in d.logouts ==> d.logouts[l].token in s.tokens
    requires forall l :: l in d.logouts && s.tokens[d.logouts[l].token].user == user ==>
               !Presented(s, d.logouts[l].token)
    ensures Orderly(d, user)
  {
    hide Invariant, OnReuse, Live;
  }

  lemma MoveKeepsOrder(s: Server, d: Server, t: Id, r: Refresh, user: Id)
    requires Orderly(s, user) && Invariant(d) && d.tokens == s.tokens && Moved(s, d, t, r)
    requires t !in s.outcomes && r.presented in s.tokens
    requires t in s.txns ==> r.presented == s.txns[t].presented
    requires s.tokens[r.presented].user == user ==> !OnReuse(r)
    requires t !in s.txns && s.tokens[r.presented].user == user ==>
               Live(s.tokens, r.presented) && !Presented(s, r.presented) && !LoggingOut(s, r.presented)
    ensures Orderly(d, user)
  {
    hide Invariant, OnReuse, Live;
  }

  lemma EndKeepsOrder(s: Server, d: Server, t: Id, outcome: Outcome, user: Id)
    requires Orderly(s, user) && Invariant(d) && Advances(s.tokens, d.tokens) && t in s.txns && Ended(s, d, t, outcome)
    requires forall u :: u in s.txns && u != t && ActsFor(s, u, user) ==> Live(d.tokens, s.txns[u].presented)
    ensures Orderly(d, user)
  {
    hide Invariant, OnReuse, Live;
  }

  lemma StepRowsKeepOrder(s: Server, user: Id, step: Step)
    requires Orderly(s, user) && WellBehaved(s, user, step)
    requires step.Login? || step.LogoutRead? || step.LogoutReload? || step.LogoutWrite?
    ensures Orderly(Next(s, step), user)
  {
    hide Next, Invariant, Live;
    NextKeeps(s, step);
    RowsEffect(s, step);
    var d := Next(s, step);
    forall t | t in s.txns && ActsFor(s, t, user)
      ensures Live(d.tokens, s.txns[t].presented)
    {
      assert Presented(s, s.txns[t].presented);
      LiveSurvives(s, user, step, s.txns[t].presented);
      SameRowIsLive(s.tokens, d.tokens, s.txns[t].presented);
    }
    RowsKeepOrder(s, d, user);
  }

  lemma SameRowIsLive(tokens: map<Id, Token>, after: map<Id, Token>, k: Id)
    requires Live(tokens, k) && k in after && after[k] == tokens[k]
    ensures Live(after, k)
  {
  }

  lemma EndOfStepKeepsOrder(s: Server, user: Id, step: Step)
    requires Orderly(s, user) && step.Commit?
    ensures Orderly(Next(s, step), user)
  {
    hide Next, Invariant, Live, OnReuse;
    NextKeeps(s, step);
    var d, t := Next(s, step), step.t;
    if d != s {
      CommitEffect(s, step);
      forall u | u in s.txns && u != t && ActsFor(s, u, user)
        ensures Live(d.tokens, s.txns[u].presented)
      {
        LiveSurvives(s, user, step, s.txns[u].presented);
        SameRowIsLive(s.tokens, d.tokens, s.txns[u].presented);
      }
      EndKeepsOrder(s, d, t, d.outcomes[t], user);
    }
  }

  lemma LockKeepsOrder(s: Server, user: Id, step: Step)
    requires Orderly(s, user) && step.Lock?
    ensures Orderly(Next(s, step), user)
  {
    hide Next, Invariant, Live, OnReuse;
    NextKeeps(s, step);
    var d, t := Next(s, step), step.t;
    if d != s {
      LockEffect(s, step);
      if t in d.txns {
        MoveKeepsOrder(s, d, t, d.txns[t], user);
      } else {
        EndKeepsOrder(s, d, t, Refused, user);
      }
    }
  }

  lemma SweepKeepsOrder(s: Server, user: Id, step: Step)
    requires Orderly(s, user) && (step.Snapshot? || step.Sweep?)
    ensures Orderly(Next(s, step), user)
  {
    hide Next, Invariant, Live, OnReuse;
    NextKeeps(s, step);
    if Next(s, step) != s {
      SweepEffect(s, step);
      MoveKeepsOrder(s, Next(s, step), step.t, Next(s, step).txns[step.t], user);
    }
  }

  lemma EntryKeepsOrder(s: Server, user: Id, step: Step)
    requires Orderly(s, user) && WellBehaved(s, user, step) && (step.Present? || step.Abort?)
    ensures Orderly(Next(s, step), user)
  {
    hide Next, Invariant, Live, Presented, LoggingOut;
    NextKeeps(s, step);
    var d := Next(s, step);
    if d != s {
      EntryEffect(s, step);
      if step.Present? {
        MoveKeepsOrder(s, d, step.t, Looking(step.token), user);
      } else {
        EndKeepsOrder(s, d, step.t, Refused, user);
      }
    }
  }

  lemma GuessKeepsOrder(s: Server, user: Id, step: Step)
    requires Orderly(s, user) && step.Guess?
    ensures Orderly(Next(s, step), user)
  {
    hide Next, Invariant, Live, OnReuse;
    NextKeeps(s, step);
    GuessEffect(s, step);
  }

  lemma StepKeepsOrder(s: Server, user: Id, step: Step)
    requires Orderly(s, user) && WellBehaved(s, user, step)
    ensures Orderly(Next(s, step), user)
  {
    hide Orderly, WellBehaved, Next;
    match step
    case Lock(_, _, _, _) => LockKeepsOrder(s, user, step);
    case Snapshot(_) => SweepKeepsOrder(s, user, step);
    case Sweep(_, _) => SweepKeepsOrder(s, user, step);
    case Commit(_, _) => EndOfStepKeepsOrder(s, user, step);
    case Present(_, _) => EntryKeepsOrder(s, user, step);
    case Abort(_) => EntryKeepsOrder(s, user, step);
    case Guess(_) => GuessKeepsOrder(s, user, step);
    case _ => StepRowsKeepOrder(s, user, step);
  }

  ghost predicate AllWellBehaved(s: Server, user: Id, steps: seq<Step>) {
    forall i :: 0 <= i < |steps| ==> WellBehaved(RunSteps(s, steps[..i]), user, steps[i])
  }

  /** However many sessions of the user refresh, log in and log out, and whatever everyone else does:
      no refresh of the user is ever on reuse, and each goes on with a live token of its own. */
  lemma {:induction false} SessionsNeverReuse(s: Server, user: Id, steps: seq<Step>)
    requires Orderly(s, user) && AllWellBehaved(s, user, steps)
    ensures Orderly(RunSteps(s, steps), user)
  {
    if steps != [] {
      hide Orderly, WellBehaved, Next, RunSteps;
      var n := |steps| - 1;
      forall i | 0 <= i < n
        ensures steps[..n][..i] == steps[..i] && steps[..n][i] == steps[i]
      {
      }
      SessionsNeverReuse(s, user, steps[..n]);
      StepKeepsOrder(RunSteps(s, steps[..n]), user, steps[n]);
      LastOfRun(s, steps);
    } else {
      LastOfRun(s, steps);
    }
  }

  lemma LastOfRun(s: Server, steps: seq<Step>)
    ensures RunSteps(s, steps) == if steps == [] then s else Next(RunSteps(s, steps[..|steps| - 1]), steps[|steps| - 1])
  {
  }

  /** A refresh of the user's: still in flight with its token, or answered otherwise than by reuse. */
  ghost predicate Spared(s: Server, t: Id, user: Id) {
    if t in s.txns then ActsFor(s, t, user) else t in s.outcomes && s.outcomes[t] != ReuseDetected
  }

  lemma CommitIsNoReuse(s: Server, step: Step)
    requires step.Commit? && Next(s, step) != s && step.t in s.txns && !OnReuse(s.txns[step.t])
    ensures step.t in Next(s, step).outcomes && Next(s, step).outcomes[step.t] != ReuseDetected
  {
    CommitEffect(s, step);
    hide Next;
  }

  lemma StepSpares(s: Server, user: Id, step: Step, t: Id)
    requires Orderly(s, user) && Spared(s, t, user)
    ensures Spared(Next(s, step), t, user)
  {
    hide Next, Invariant, Live, OnReuse;
    NextKeeps(s, step);
    if Next(s, step) != s {
      match step
      case Lock(_, _, _, _) => LockEffect(s, step);
      case Snapshot(_) => SweepEffect(s, step);
      case Sweep(_, _) => SweepEffect(s, step);
      case Commit(_, _) =>
        CommitEffect(s, step);
        if step.t == t { CommitIsNoReuse(s, step); }
      case Present(_, _) => EntryEffect(s, step);
      case Abort(_) => EntryEffect(s, step);
      case Guess(_) => GuessEffect(s, step);
      case _ => RowsEffect(s, step);
    }
  }

  /** Once begun, no refresh of a well-behaved user is ever answered by reuse detection. */
  lemma {:induction false} NoReuseAnswer(s: Server, user: Id, steps: seq<Step>, t: Id)
    requires Orderly(s, user) && AllWellBehaved(s, user, steps) && Spared(s, t, user)
    ensures Orderly(RunSteps(s, steps), user) && Spared(RunSteps(s, steps), t, user)
  {
    SessionsNeverReuse(s, user, steps);
    LastOfRun(s, steps);
    if steps != [] {
      hide Orderly, WellBehaved, Next, RunSteps, Spared;
      var n := |steps| - 1;
      forall i | 0 <= i < n
        ensures steps[..n][..i] == steps[..i] && steps[..n][i] == steps[i]
      {
      }
      NoReuseAnswer(s, user, steps[..n], t);
      StepSpares(RunSteps(s, steps[..n]), user, steps[n], t);
    }
  }
}
