/** Client and server together: the single-flight client never trips reuse detection. */
module Composition {
  import opened Wrappers
  import opened Session

  /** A live token of this user and login. */
  ghost predicate Own(tokens: map<Id, T.Token>, user: Id, family: Id, k: Id) {
    T.Live(tokens, k) && InFamily(tokens, user, family, k)
  }

  /** What a refresh call says about the cookie, the server's transaction and its answer. */
  ghost predicate CallOk(s: T.Server, cookie: Id, call: Call, user: Id, family: Id) {
    match call
    case Sent(k) => k == cookie && Own(s.tokens, user, family, cookie)
    case AtServer(t) =>
      if t in s.txns then s.txns[t].presented == cookie && Own(s.tokens, user, family, cookie)
      else t in s.outcomes && AnswerOk(s.tokens, cookie, s.outcomes[t], user, family)
    case Landed(_) => Own(s.tokens, user, family, cookie)
  }

  ghost predicate AnswerOk(tokens: map<Id, T.Token>, cookie: Id, outcome: T.Outcome, user: Id, family: Id) {
    match outcome
    case Issued(n) => Own(tokens, user, family, n)
    case Refused => Own(tokens, user, family, cookie)
    case ReuseDetected => false
  }

  ghost predicate BrowserCall(b: Browser, t: Id) {
    b.promise.Some? && b.promise.value in b.calls && b.calls[b.promise.value] == AtServer(t)
  }

  /** The transactions on the tokens of the browser's login are exactly its call in flight, and nobody
      logs that login out. */
  ghost predicate Linked(s: T.Server, b: Browser, user: Id, family: Id) {
    && (forall t :: t in s.txns ==> (InFamily(s.tokens, user, family, s.txns[t].presented) <==> BrowserCall(b, t)))
    && (forall t :: t in s.txns ==>
          (InFamily(s.tokens, user, family, s.txns[t].presented) <==> t in b.delivered))
    && (forall t :: t in b.delivered ==> t in s.txns || (t in s.outcomes && s.outcomes[t] != T.ReuseDetected))
    && (forall l :: l in s.logouts ==> !InFamily(s.tokens, user, family, s.logouts[l].token))
  }

  ghost predicate CookieOk(s: T.Server, b: Browser, user: Id, family: Id) {
    if b.promise == None then Own(s.tokens, user, family, b.cookie)
    else b.promise.value in b.calls && CallOk(s, b.cookie, b.calls[b.promise.value], user, family)
  }

  ghost predicate WorldOk(w: World, user: Id, family: Id) {
    && ClientOk(w.browser)
    && U.Orderly(w.server, user)
    && Linked(w.server, w.browser, user, family)
    && CookieOk(w.server, w.browser, user, family)
  }

  /** Starting point: the browser is idle, its cookie is live, and nothing in flight uses a token of its
      login. The user's other sessions are in order; everyone else's may be anywhere. */
  ghost predicate Fresh(w: World, user: Id, family: Id) {
    && U.Orderly(w.server, user)
    && Linked(w.server, w.browser, user, family)
    && Own(w.server.tokens, user, family, w.browser.cookie)
    && w.browser.promise == None && w.browser.calls == map[] && w.browser.requests == map[]
  }

  /** A login on any server on which the user's sessions are in order gives such a starting point. */
  lemma LoginIsFresh(s: T.Server, user: Id, expiresAt: T.Time)
    requires U.Orderly(s, user)
    ensures Fresh(World(T.Next(s, T.Login(user, expiresAt)), Browser(s.next, true, None, map[], 0, map[], {})),
                  user, s.next)
  {
    hide T.Next, U.Orderly, U.WellBehaved, T.Invariant;
    LoginMayStart(s, user, expiresAt);
    U.StepKeepsOrder(s, user, T.Login(user, expiresAt));
    T.LoginOutcome(s, user, expiresAt);
    InUseAreOld(s, user);
  }

  lemma LoginMayStart(s: T.Server, user: Id, expiresAt: T.Time)
    ensures U.WellBehaved(s, user, T.Login(user, expiresAt))
  {
  }

  /** What is in use on the server belongs to earlier logins. */
  lemma InUseAreOld(s: T.Server, user: Id)
    requires U.Orderly(s, user)
    ensures forall t :: t in s.txns ==>
              var k := s.txns[t].presented; k in s.tokens && k != s.next && s.tokens[k].family != s.next
    ensures forall l :: l in s.logouts ==>
              var k := s.logouts[l].token; k in s.tokens && k != s.next && s.tokens[k].family != s.next
  {
  }

  /** A first login is one. */
  lemma FirstLoginIsFresh(user: Id, expiresAt: T.Time)
    ensures Fresh(World(T.Next(T.EMPTY_SERVER, T.Login(user, expiresAt)),
                        Browser(0, true, None, map[], 0, map[], {})), user, 0)
  {
    hide Fresh, U.Orderly;
    U.EmptyServerIsOrderly(user);
    LoginIsFresh(T.EMPTY_SERVER, user, expiresAt);
  }

  // ---- Browser events ----

  /** The shared promise was left alone, set with a call just sent, or cleared after a landed call. */
  ghost predicate CallMoved(b: Browser, d: Browser) {
    && d.cookie == b.cookie && d.delivered == b.delivered
    && (|| (d.promise == b.promise && d.calls == b.calls)
        || (b.promise == None && d.promise.Some? && d.promise.value in d.calls
            && d.calls[d.promise.value] == Sent(b.cookie))
        || (b.promise.Some? && b.promise.value in b.calls && d.promise == b.promise && d.promise.value in d.calls
            && b.calls[b.promise.value].Sent? && d.calls[b.promise.value] == Landed(false))
        || (b.promise.Some? && b.promise.value in b.calls && b.calls[b.promise.value].Landed? && d.promise == None))
  }

  lemma BrowserMoves(w: World, user: Id, family: Id, e: Event)
    requires ClientOk(w.browser) && !e.Serve? && !e.Deliver? && !e.Land?
    ensures Next(w, user, family, e).server == w.server && CallMoved(w.browser, Next(w, user, family, e).browser)
  {
  }

  lemma BrowserStep(w: World, user: Id, family: Id, e: Event)
    requires WorldOk(w, user, family) && !e.Serve? && !e.Deliver? && !e.Land?
    ensures WorldOk(Next(w, user, family, e), user, family)
  {
    hide Next, ClientOk, U.Orderly, Own;
    ClientStep(w, user, family, e);
    BrowserMoves(w, user, family, e);
  }

  /** A call landed: the cookie is live whatever the answer was. */
  lemma LandMoves(w: World, user: Id, family: Id, e: Event)
    requires e.Land? && OneCall(w.browser) && CookieOk(w.server, w.browser, user, family)
    requires forall t :: t in w.server.txns ==> t !in w.server.outcomes
    ensures var b, d := w.browser, Next(w, user, family, e).browser;
            && Next(w, user, family, e).server == w.server && d.delivered == b.delivered && d.promise == b.promise
            && (d == b || (b.promise.Some? && b.promise.value in b.calls && b.calls[b.promise.value].AtServer?
                           && b.calls[b.promise.value].t !in w.server.txns
                           && d.promise.value in d.calls && d.calls[d.promise.value].Landed?
                           && Own(w.server.tokens, user, family, d.cookie)))
  {
    hide Own;
  }

  lemma LandStep(w: World, user: Id, family: Id, e: Event)
    requires WorldOk(w, user, family) && e.Land?
    ensures WorldOk(Next(w, user, family, e), user, family)
  {
    ClientStep(w, user, family, e);
    hide Next, ClientOk, T.Invariant, Own;
    LandMoves(w, user, family, e);
  }

  /** The cookie is as good as any session's token: live, and in nobody else's use. */
  lemma CookieIsIdle(w: World, user: Id, family: Id, c: nat)
    requires WorldOk(w, user, family) && c in w.browser.calls && w.browser.calls[c].Sent?
    ensures w.browser.promise == Some(c) && w.browser.calls.Keys == {c} && w.browser.calls[c].token == w.browser.cookie
    ensures Own(w.server.tokens, user, family, w.browser.cookie)
    ensures forall t :: U.WellBehaved(w.server, user, T.Present(t, w.browser.cookie))
  {
    hide U.Orderly;
  }

  lemma DeliverStep(w: World, user: Id, family: Id, e: Event)
    requires WorldOk(w, user, family) && e.Deliver?
    ensures WorldOk(Next(w, user, family, e), user, family)
  {
    hide U.Orderly, U.WellBehaved, ClientOk, T.Next, Own;
    var b, s := w.browser, w.server;
    ClientStep(w, user, family, e);
    if e.c in b.calls && b.calls[e.c].Sent? && e.t !in s.txns && e.t !in s.outcomes {
      var step := T.Present(e.t, b.cookie);
      CookieIsIdle(w, user, family, e.c);
      U.StepKeepsOrder(s, user, step);
      T.EntryOutcome(s, e.t, b.cookie);
      OwnIsInFamily(s.tokens, user, family, b.cookie);
    }
  }

  lemma OwnIsInFamily(tokens: map<Id, T.Token>, user: Id, family: Id, k: Id)
    requires Own(tokens, user, family, k)
    ensures InFamily(tokens, user, family, k)
  {
  }

  // ---- Server events ----

  /** No foreign step, and no step of a foreign transaction, touches the live token of the login. */
  lemma OwnSurvives(w: World, user: Id, family: Id, step: T.Step, k: Id)
    requires U.Orderly(w.server, user) && Linked(w.server, w.browser, user, family)
    requires Own(w.server.tokens, user, family, k)
    requires !(step.Commit? && step.t in w.server.txns && BrowserCall(w.browser, step.t))
    ensures Own(T.Next(w.server, step).tokens, user, family, k)
  {
    U.LiveSurvives(w.server, user, step, k);
    hide T.Next, U.Orderly;
  }

  /** Token rows changed, no transaction did. */
  lemma RowsChanged(w: World, d: T.Server, user: Id, family: Id)
    requires WorldOk(w, user, family) && U.Orderly(d, user) && T.Advances(w.server.tokens, d.tokens)
    requires d.txns == w.server.txns && d.outcomes == w.server.outcomes
    requires forall t :: t in d.txns ==> d.txns[t].presented in w.server.tokens
    requires forall k :: Own(w.server.tokens, user, family, k) ==> Own(d.tokens, user, family, k)
    requires forall l :: l in d.logouts ==> !InFamily(d.tokens, user, family, d.logouts[l].token)
    ensures WorldOk(w.(server := d), user, family)
  {
    hide U.Orderly, ClientOk, Own;
  }

  /** One transaction began or moved on; the rows did not change. */
  lemma TxnMoved(w: World, d: T.Server, t: Id, r: T.Refresh, user: Id, family: Id)
    requires WorldOk(w, user, family) && U.Orderly(d, user)
    requires d.tokens == w.server.tokens && U.Moved(w.server, d, t, r) && t !in w.server.outcomes
    requires if t in w.server.txns then r.presented == w.server.txns[t].presented
             else !InFamily(w.server.tokens, user, family, r.presented)
    ensures WorldOk(w.(server := d), user, family)
  {
    hide U.Orderly, ClientOk, Own, InFamily;
  }

  /** One transaction ended. If it was the browser's, it was refused or issued a live token. */
  lemma TxnEnded(w: World, d: T.Server, t: Id, outcome: T.Outcome, user: Id, family: Id)
    requires WorldOk(w, user, family) && U.Orderly(d, user) && T.Advances(w.server.tokens, d.tokens)
    requires t in w.server.txns && U.Ended(w.server, d, t, outcome)
    requires forall u :: u in w.server.txns ==> w.server.txns[u].presented in w.server.tokens
    requires forall l :: l in w.server.logouts ==> w.server.logouts[l].token in w.server.tokens
    requires BrowserCall(w.browser, t) ==> AnswerOk(d.tokens, w.browser.cookie, outcome, user, family)
    requires !BrowserCall(w.browser, t) ==>
               forall k :: Own(w.server.tokens, user, family, k) ==> Own(d.tokens, user, family, k)
    ensures WorldOk(w.(server := d), user, family)
  {
    hide U.Orderly, ClientOk, Own;
  }

  lemma ServeRows(w: World, user: Id, family: Id, step: T.Step)
    requires WorldOk(w, user, family) && Foreign(w.server, user, family, step)
    requires step.Login? || step.LogoutRead? || step.LogoutReload? || step.LogoutWrite?
    ensures WorldOk(Next(w, user, family, Serve(step)), user, family)
  {
    hide T.Next, T.Invariant, Own, ClientOk, CookieOk, U.WellBehaved;
    var s := w.server;
    var d := T.Next(s, step);
    U.StepKeepsOrder(s, user, step);
    T.NextKeeps(s, step);
    U.RowsEffect(s, step);
    forall k | Own(s.tokens, user, family, k)
      ensures Own(d.tokens, user, family, k)
    {
      OwnSurvives(w, user, family, step, k);
    }
    RowsChanged(w, d, user, family);
  }

  lemma ServeGuess(w: World, user: Id, family: Id, step: T.Step)
    requires WorldOk(w, user, family) && Foreign(w.server, user, family, step) && step.Guess?
    ensures WorldOk(Next(w, user, family, Serve(step)), user, family)
  {
    hide T.Next, U.Orderly, Own, ClientOk, InFamily;
    U.StepKeepsOrder(w.server, user, step);
    U.GuessEffect(w.server, step);
  }

  lemma ServeLock(w: World, user: Id, family: Id, step: T.Step)
    requires WorldOk(w, user, family) && Foreign(w.server, user, family, step) && step.Lock?
    ensures WorldOk(Next(w, user, family, Serve(step)), user, family)
  {
    hide T.Next, T.Invariant, ClientOk;
    var s, t := w.server, step.t;
    var d := T.Next(s, step);
    U.StepKeepsOrder(s, user, step);
    if d != s {
      U.LockEffect(s, step);
      if t in d.txns {
        TxnMoved(w, d, t, d.txns[t], user, family);
      } else {
        TxnEnded(w, d, t, T.Refused, user, family);
      }
    }
  }

  lemma ServeSweep(w: World, user: Id, family: Id, step: T.Step)
    requires WorldOk(w, user, family) && Foreign(w.server, user, family, step) && (step.Snapshot? || step.Sweep?)
    ensures WorldOk(Next(w, user, family, Serve(step)), user, family)
  {
    hide T.Next, T.Invariant, ClientOk, CookieOk;
    U.StepKeepsOrder(w.server, user, step);
    if T.Next(w.server, step) != w.server {
      U.SweepEffect(w.server, step);
      TxnMoved(w, T.Next(w.server, step), step.t, T.Next(w.server, step).txns[step.t], user, family);
    }
  }

  /** A commit of the browser's refresh issues a live token of the same login. */
  lemma BrowserCommit(w: World, user: Id, family: Id, step: T.Step)
    requires WorldOk(w, user, family) && step.Commit? && T.Next(w.server, step) != w.server
    requires BrowserCall(w.browser, step.t)
    ensures var d := T.Next(w.server, step);
            step.t in d.outcomes && AnswerOk(d.tokens, w.browser.cookie, d.outcomes[step.t], user, family)
  {
    hide T.Next, T.Invariant, ClientOk;
    U.CommitEffect(w.server, step);
    assert U.ActsFor(w.server, step.t, user);
  }

  lemma ServeCommit(w: World, user: Id, family: Id, step: T.Step)
    requires WorldOk(w, user, family) && Foreign(w.server, user, family, step) && step.Commit?
    ensures WorldOk(Next(w, user, family, Serve(step)), user, family)
  {
    hide T.Next, T.Invariant, ClientOk, Own, AnswerOk;
    var s, t := w.server, step.t;
    var d := T.Next(s, step);
    U.StepKeepsOrder(s, user, step);
    T.NextKeeps(s, step);
    if d != s {
      U.CommitEffect(s, step);
      if BrowserCall(w.browser, t) {
        BrowserCommit(w, user, family, step);
      } else {
        forall k | Own(s.tokens, user, family, k)
          ensures Own(d.tokens, user, family, k)
        {
          OwnSurvives(w, user, family, step, k);
        }
      }
      TxnEnded(w, d, t, d.outcomes[t], user, family);
    }
  }

  lemma ServeEntry(w: World, user: Id, family: Id, step: T.Step)
    requires WorldOk(w, user, family) && Foreign(w.server, user, family, step) && (step.Present? || step.Abort?)
    ensures WorldOk(Next(w, user, family, Serve(step)), user, family)
  {
    hide T.Next, T.Invariant, ClientOk, Own;
    var d := T.Next(w.server, step);
    U.StepKeepsOrder(w.server, user, step);
    if d != w.server {
      U.EntryEffect(w.server, step);
      if step.Present? {
        TxnMoved(w, d, step.t, T.Looking(step.token), user, family);
      } else {
        TxnEnded(w, d, step.t, T.Refused, user, family);
      }
    }
  }

  lemma NextKeepsWorld(w: World, user: Id, family: Id, e: Event)
    requires WorldOk(w, user, family)
    ensures WorldOk(Next(w, user, family, e), user, family)
  {
    hide WorldOk, Foreign;
    match e
    case Deliver(_, _) => DeliverStep(w, user, family, e);
    case Land(_, _) => LandStep(w, user, family, e);
    case Serve(step) =>
      if Foreign(w.server, user, family, step) {
        match step
        case Lock(_, _, _, _) => ServeLock(w, user, family, step);
        case Snapshot(_) => ServeSweep(w, user, family, step);
        case Sweep(_, _) => ServeSweep(w, user, family, step);
        case Commit(_, _) => ServeCommit(w, user, family, step);
        case Present(_, _) => ServeEntry(w, user, family, step);
        case Abort(_) => ServeEntry(w, user, family, step);
        case Guess(_) => ServeGuess(w, user, family, step);
        case _ => ServeRows(w, user, family, step);
      }
    case _ => BrowserStep(w, user, family, e);
  }

  lemma {:induction false} EventsKeepWorld(w: World, user: Id, family: Id, events: seq<Event>)
    requires Fresh(w, user, family)
    ensures WorldOk(RunEvents(w, user, family, events), user, family)
  {
    if events != [] {
      hide WorldOk, Next, Fresh;
      EventsKeepWorld(w, user, family, events[..|events| - 1]);
      NextKeepsWorld(RunEvents(w, user, family, events[..|events| - 1]), user, family, events[|events| - 1]);
    }
  }

  /** The composition theorem: whatever requests the browser issues, however replies, server steps, the
      user's other sessions and everyone else's traffic interleave, each refresh the browser has at the
      server presents the one live token of its login, no refresh it ever sent is answered by reuse
      detection, and no refresh of the user's other sessions is on reuse either. */
  lemma ReuseDetectionNeverFires(w: World, user: Id, family: Id, events: seq<Event>)
    requires Fresh(w, user, family)
    ensures var v := RunEvents(w, user, family, events);
            && (forall t :: t in v.browser.delivered && t in v.server.outcomes ==>
                  v.server.outcomes[t] != T.ReuseDetected)
            && (forall t :: t in v.server.txns && U.ActsFor(v.server, t, user) ==> !U.OnReuse(v.server.txns[t]))
            && (forall t :: t in v.server.txns && t in v.browser.delivered ==>
                  var k := v.server.txns[t].presented;
                  && Own(v.server.tokens, user, family, k)
                  && (forall j :: T.Live(v.server.tokens, j) && v.server.tokens[j].family == family ==> j == k))
  {
    EventsKeepWorld(w, user, family, events);
  }

  /** The client's bounds: at most one refresh in flight, and per request at most two fetches and one
      awaited refresh, none of them for a request that opted out. */
  lemma ClientBounds(w: World, user: Id, family: Id, events: seq<Event>)
    requires Fresh(w, user, family)
    ensures var b := RunEvents(w, user, family, events).browser;
            && |b.calls| <= 1
            && (forall r :: r in b.requests ==>
                  && b.requests[r].fetches <= 2 && b.requests[r].awaits <= 1
                  && (b.requests[r].phase == Disabled ==> b.requests[r].fetches == 1 && b.requests[r].awaits == 0)
                  && (b.requests[r].pc.Awaiting? ==> b.promise == Some(b.requests[r].pc.call)))
  {
    EventsKeepWorld(w, user, family, events);
    hide U.Orderly, RunEvents;
    var b := RunEvents(w, user, family, events).browser;
    assert |b.calls| == |b.calls.Keys|;
    forall r | r in b.requests ensures RequestOk(b, b.requests[r]) {}
  }
}
