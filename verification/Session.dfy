/** The browser's request client, with one refresh shared by all waiting requests, composed with the
    token server. Its login's tokens are the browser's alone; the user's other sessions keep to their
    own tokens, one use at a time; everyone else's server traffic interleaves freely. */
module Session {
  import opened Wrappers
  import T = Tokens
  import U = UserSessions

  type Id = nat

  datatype Phase = Eligible | Retry | Disabled

  /** Where a request is suspended. Settled covers a returned response and a thrown error alike. */
  datatype Pc = Fetching | Awaiting(call: nat) | Resuming(ok: bool) | Settled

  /** `fetches` and `awaits` count what the request has done; a restored session only awaits. */
  datatype Request = Request(phase: Phase, pc: Pc, fetches: nat, awaits: nat)

  /** A refresh call: on its way with the cookie it was sent with, with the server, or answered. */
  datatype Call = Sent(token: Id) | AtServer(t: Id) | Landed(ok: bool)

  datatype Browser = Browser(cookie: Id, access: bool, promise: Option<nat>, calls: map<nat, Call>, nextCall: nat,
                             requests: map<Id, Request>, delivered: set<Id>)

  datatype World = World(server: T.Server, browser: Browser)

  datatype Event =
    | Issue(r: Id, skipAuthRefresh: bool)
    | Restore(r: Id)
    | Reply(r: Id, unauthorized: bool)
    | Deliver(c: nat, t: Id)
    | Lose(c: nat)
    | Land(c: nat, parsed: bool)
    | SettleCall(c: nat)
    | Resume(r: Id)
    | Serve(step: T.Step)

  /** `performRefresh`: joins the refresh in flight, or starts one with the current cookie. */
  function JoinRefresh(b: Browser): Browser {
    if b.promise.Some? then b
    else b.(promise := Some(b.nextCall), calls := b.calls[b.nextCall := Sent(b.cookie)], nextCall := b.nextCall + 1)
  }

  function Await(b: Browser, r: Id, q: Request): Browser {
    var joined := JoinRefresh(b);
    joined.(requests := joined.requests[r := q.(pc := Awaiting(joined.promise.value), awaits := q.awaits + 1)])
  }

  /** `performRequest` when the response to a fetch arrives. */
  function OnReply(b: Browser, r: Id, unauthorized: bool): Browser
    requires r in b.requests
  {
    var q := b.requests[r];
    if unauthorized && q.phase == Eligible then Await(b, r, q)
    else b.(requests := b.requests[r := q.(pc := Settled)],
            access := if unauthorized && q.phase == Retry then false else b.access)
  }

  /** `performRequest` when the awaited refresh has settled: retry once, or give up the session. */
  function OnResume(b: Browser, r: Id, ok: bool): Browser
    requires r in b.requests
  {
    var q := b.requests[r];
    if !ok then b.(requests := b.requests[r := q.(pc := Settled)], access := false)
    else if q.fetches == 0 then b.(requests := b.requests[r := q.(pc := Settled)])
    else b.(requests := b.requests[r := q.(phase := Retry, pc := Fetching, fetches := q.fetches + 1)])
  }

  /** The refresh response reaches the browser: the cookie jar first, then the access token. */
  function OnLand(b: Browser, c: nat, outcome: T.Outcome, parsed: bool): Browser {
    match outcome
    case Issued(n) => b.(cookie := n, access := b.access || parsed, calls := b.calls[c := Landed(parsed)])
    case Refused => b.(calls := b.calls[c := Landed(false)])
    case ReuseDetected => b.(calls := b.calls[c := Landed(false)])
  }

  /** `finally`: the shared promise is cleared and everyone awaiting it is woken. */
  function OnSettle(b: Browser, c: nat, ok: bool): Browser {
    b.(promise := None, calls := b.calls - {c},
       requests := map r | r in b.requests ::
         if b.requests[r].pc == Awaiting(c) then b.requests[r].(pc := Resuming(ok)) else b.requests[r])
  }

  /** A token of this user and login. */
  predicate InFamily(tokens: map<Id, T.Token>, user: Id, family: Id, k: Id) {
    k in tokens && tokens[k].user == user && tokens[k].family == family
  }

  /** Server steps that are not the browser's: it alone presents the tokens of its login, and does not
      log out. The user may log in anywhere else, and use what that gives as `WellBehaved` says. */
  predicate Foreign(s: T.Server, user: Id, family: Id, step: T.Step) {
    && U.WellBehaved(s, user, step)
    && (step.Present? || step.LogoutRead? ==> !InFamily(s.tokens, user, family, step.token))
  }

  function Next(w: World, user: Id, family: Id, e: Event): World {
    var b := w.browser;
    match e
    case Issue(r, skip) =>
      if r in b.requests then w
      else w.(browser := b.(requests := b.requests[r := Request(if skip then Disabled else Eligible, Fetching, 1, 0)]))
    case Restore(r) =>
      if r in b.requests then w
      else w.(browser := Await(b, r, Request(Eligible, Fetching, 0, 0)))
    case Reply(r, unauthorized) =>
      if r !in b.requests || b.requests[r].pc != Fetching then w
      else w.(browser := OnReply(b, r, unauthorized))
    case Deliver(c, t) =>
      if c !in b.calls || !b.calls[c].Sent? || t in w.server.txns || t in w.server.outcomes then w
      else World(T.Next(w.server, T.Present(t, b.calls[c].token)),
                 b.(calls := b.calls[c := AtServer(t)], delivered := b.delivered + {t}))
    case Lose(c) =>
      if c !in b.calls || !b.calls[c].Sent? then w
      else w.(browser := b.(calls := b.calls[c := Landed(false)]))
    case Land(c, parsed) =>
      if c !in b.calls || !b.calls[c].AtServer? || b.calls[c].t !in w.server.outcomes then w
      else w.(browser := OnLand(b, c, w.server.outcomes[b.calls[c].t], parsed))
    case SettleCall(c) =>
      if c !in b.calls || !b.calls[c].Landed? then w
      else w.(browser := OnSettle(b, c, b.calls[c].ok))
    case Resume(r) =>
      if r !in b.requests || !b.requests[r].pc.Resuming? then w
      else w.(browser := OnResume(b, r, b.requests[r].pc.ok))
    case Serve(step) =>
      if !Foreign(w.server, user, family, step) then w else w.(server := T.Next(w.server, step))
  }

  function RunEvents(w: World, user: Id, family: Id, events: seq<Event>): World {
    if events == [] then w
    else Next(RunEvents(w, user, family, events[..|events| - 1]), user, family, events[|events| - 1])
  }

  // ---- What the events do, in the client's own terms ----

  ghost predicate OnlyRequest(b: Browser, d: Browser, r: Id) {
    && d.requests.Keys == b.requests.Keys + {r}
    && forall q :: q in b.requests && q != r ==> d.requests[q] == b.requests[q]
  }

  /** A request that may refresh and is told 401 awaits the one refresh in flight, which it starts if
      there is none. A 401 after the retry ends the session; any other reply settles the request and
      leaves the session alone, also a 401 of a request that opted out. */
  lemma ReplyOutcome(w: World, user: Id, family: Id, r: Id, unauthorized: bool)
    requires r in w.browser.requests && w.browser.requests[r].pc == Fetching
    ensures var b, d, q := w.browser, Next(w, user, family, Reply(r, unauthorized)).browser, w.browser.requests[r];
            && Next(w, user, family, Reply(r, unauthorized)).server == w.server
            && OnlyRequest(b, d, r) && d.cookie == b.cookie && d.delivered == b.delivered
            && (if unauthorized && q.phase == Eligible then
                  && d.access == b.access
                  && d.promise == Some(if b.promise == None then b.nextCall else b.promise.value)
                  && d.calls == (if b.promise == None then b.calls[b.nextCall := Sent(b.cookie)] else b.calls)
                  && d.requests[r] == Request(Eligible, Awaiting(d.promise.value), q.fetches, q.awaits + 1)
                else
                  && d.requests[r] == Request(q.phase, Settled, q.fetches, q.awaits)
                  && d.promise == b.promise && d.calls == b.calls
                  && (if unauthorized && q.phase == Retry then !d.access else d.access == b.access))
  {
  }

  /** After a refresh that succeeded a request that was told 401 is sent once more, and a session restore
      is done; after one that failed the request fails and the session ends. */
  lemma ResumeOutcome(w: World, user: Id, family: Id, r: Id)
    requires r in w.browser.requests && w.browser.requests[r].pc.Resuming?
    ensures var b, d, q := w.browser, Next(w, user, family, Resume(r)).browser, w.browser.requests[r];
            && OnlyRequest(b, d, r)
            && d.cookie == b.cookie && d.promise == b.promise && d.calls == b.calls && d.delivered == b.delivered
            && (if !q.pc.ok then d.requests[r] == Request(q.phase, Settled, q.fetches, q.awaits) && !d.access
                else
                  && d.access == b.access
                  && d.requests[r] == if q.fetches == 0 then Request(q.phase, Settled, 0, q.awaits)
                                      else Request(Retry, Fetching, q.fetches + 1, q.awaits))
  {
  }

  /** A refresh succeeds for the client exactly if the server issued a token and the response held an
      access token; the cookie follows the server's answer in any case. */
  lemma LandOutcome(w: World, user: Id, family: Id, c: nat, parsed: bool)
    requires c in w.browser.calls && w.browser.calls[c].AtServer? && w.browser.calls[c].t in w.server.outcomes
    ensures var b, d := w.browser, Next(w, user, family, Land(c, parsed)).browser;
            var o := w.server.outcomes[b.calls[c].t];
            && d.calls == b.calls[c := Landed(o.Issued? && parsed)]
            && d.cookie == (if o.Issued? then o.token else b.cookie)
            && d.access == (b.access || (o.Issued? && parsed))
            && d.promise == b.promise && d.requests == b.requests
  {
  }

  /** A refresh call that is lost on its way counts as failed; one that is delivered presents the cookie
      it was sent with, under a new transaction. */
  lemma TransportOutcome(w: World, user: Id, family: Id, c: nat, t: Id)
    requires c in w.browser.calls && w.browser.calls[c].Sent?
    ensures var d := Next(w, user, family, Lose(c));
            d == World(w.server, w.browser.(calls := w.browser.calls[c := Landed(false)]))
    ensures t !in w.server.txns && t !in w.server.outcomes ==>
              var d := Next(w, user, family, Deliver(c, t));
              && d.server == w.server.(txns := w.server.txns[t := T.Looking(w.browser.calls[c].token)])
              && d.browser == w.browser.(calls := w.browser.calls[c := AtServer(t)],
                                         delivered := w.browser.delivered + {t})
  {
  }

  /** When the refresh settles, the promise is free again and exactly those who awaited it go on, all
      with its result. */
  lemma SettleOutcome(w: World, user: Id, family: Id, c: nat)
    requires c in w.browser.calls && w.browser.calls[c].Landed?
    ensures var b, d := w.browser, Next(w, user, family, SettleCall(c)).browser;
            && d.promise == None && d.calls == b.calls - {c} && d.access == b.access && d.cookie == b.cookie
            && d.requests.Keys == b.requests.Keys
            && forall r :: r in b.requests ==>
                 d.requests[r] == if b.requests[r].pc == Awaiting(c) then b.requests[r].(pc := Resuming(b.calls[c].ok))
                                  else b.requests[r]
  {
  }

  /** A request begins with a fetch, and may refresh unless it opted out; a restore begins by awaiting. */
  lemma StartOutcome(w: World, user: Id, family: Id, r: Id, skip: bool)
    requires r !in w.browser.requests
    ensures var d := Next(w, user, family, Issue(r, skip)).browser;
            d == w.browser.(requests := w.browser.requests[r :=
                   Request(if skip then Disabled else Eligible, Fetching, 1, 0)])
    ensures var b, d := w.browser, Next(w, user, family, Restore(r)).browser;
            && OnlyRequest(b, d, r) && d.access == b.access && d.cookie == b.cookie
            && d.promise == Some(if b.promise == None then b.nextCall else b.promise.value)
            && d.calls == (if b.promise == None then b.calls[b.nextCall := Sent(b.cookie)] else b.calls)
            && d.requests[r] == Request(Eligible, Awaiting(d.promise.value), 0, 1)
  {
  }

  /** The session ends exactly when a request fails after a failed refresh or is told 401 after its
      retry, and comes back exactly with a refresh that succeeded. */
  lemma SessionEndsIff(w: World, user: Id, family: Id, e: Event)
    ensures var b, d := w.browser, Next(w, user, family, e).browser;
            && (b.access && !d.access <==>
                  && b.access
                  && (|| (e.Resume? && e.r in b.requests && b.requests[e.r].pc == Resuming(false))
                      || (e.Reply? && e.unauthorized && e.r in b.requests && b.requests[e.r].pc == Fetching
                          && b.requests[e.r].phase == Retry)))
            && (!b.access && d.access <==>
                  && !b.access && e.Land? && e.parsed && e.c in b.calls && b.calls[e.c].AtServer?
                  && b.calls[e.c].t in w.server.outcomes && w.server.outcomes[b.calls[e.c].t].Issued?)
  {
    hide T.Next, Foreign;
  }

  // ---- The client's own bounds ----

  /** What each suspension point says about the request so far. */
  predicate RequestOk(b: Browser, q: Request) {
    && (q.phase == Disabled ==> q.pc in {Fetching, Settled} && q.fetches == 1 && q.awaits == 0)
    && (q.phase == Eligible ==> q.fetches <= 1)
    && (q.phase == Retry ==> q.fetches == 2 && q.awaits == 1 && q.pc in {Fetching, Settled})
    && (q.phase == Eligible && q.pc == Fetching ==> q.fetches == 1 && q.awaits == 0)
    && (q.pc.Awaiting? ==> q.phase == Eligible && q.awaits == 1 && b.promise == Some(q.pc.call))
    && (q.pc.Resuming? ==> q.phase == Eligible && q.awaits == 1)
    && q.awaits <= 1
  }

  /** One shared promise and, exactly while it is set, one refresh call in flight. */
  predicate OneCall(b: Browser) {
    && b.calls.Keys == (if b.promise.Some? then {b.promise.value} else {})
    && (b.promise.Some? ==> b.promise.value < b.nextCall)
  }

  ghost predicate ClientOk(b: Browser) {
    OneCall(b) && forall r :: r in b.requests ==> RequestOk(b, b.requests[r])
  }

  lemma AwaitKeeps(b: Browser, r: Id, q: Request)
    requires ClientOk(b) && q.phase == Eligible && q.pc == Fetching && q.fetches <= 1 && q.awaits == 0
    ensures ClientOk(Await(b, r, q))
  {
  }

  lemma ReplyKeeps(b: Browser, r: Id, unauthorized: bool)
    requires ClientOk(b) && r in b.requests && b.requests[r].pc == Fetching
    ensures ClientOk(OnReply(b, r, unauthorized))
  {
  }

  lemma ResumeKeeps(b: Browser, r: Id, ok: bool)
    requires ClientOk(b) && r in b.requests && b.requests[r].pc.Resuming?
    ensures ClientOk(OnResume(b, r, ok))
  {
  }

  lemma SettleKeeps(b: Browser, c: nat)
    requires ClientOk(b) && c in b.calls
    ensures forall ok :: ClientOk(OnSettle(b, c, ok))
  {
  }

  lemma ClientStep(w: World, user: Id, family: Id, e: Event)
    requires ClientOk(w.browser)
    ensures ClientOk(Next(w, user, family, e).browser)
  {
    var b := w.browser;
    hide OnReply, OnResume, OnSettle, Await, T.Next;
    match e
    case Restore(r) =>
      if r !in b.requests {
        AwaitKeeps(b, r, Request(Eligible, Fetching, 0, 0));
      }
    case Reply(r, unauthorized) =>
      if r in b.requests && b.requests[r].pc == Fetching { ReplyKeeps(b, r, unauthorized); }
    case Resume(r) =>
      if r in b.requests && b.requests[r].pc.Resuming? { ResumeKeeps(b, r, b.requests[r].pc.ok); }
    case SettleCall(c) =>
      if c in b.calls { SettleKeeps(b, c); }
    case _ =>
  }

  /** How far a request still is from settling: the phase first, then the suspension point. */
  function Rank(q: Request): nat {
    match q.pc
    case Fetching => if q.phase == Eligible then 4 else 1
    case Awaiting(_) => 3
    case Resuming(_) => 2
    case Settled => 0
  }

  /** Retrying terminates: every event leaves each request alone or moves it strictly closer to
      settling, and a request that opted out of refreshing never starts or joins one. */
  lemma RequestsOnlyAdvance(w: World, user: Id, family: Id, e: Event, r: Id)
    requires ClientOk(w.browser) && r in w.browser.requests
    ensures var q, d := w.browser.requests[r], Next(w, user, family, e).browser;
            && r in d.requests
            && (d.requests[r] == q || Rank(d.requests[r]) < Rank(q))
            && (q.phase == Disabled ==> d.requests[r].phase == Disabled)
            && (q.phase == Disabled && (e == Reply(r, true) || e == Reply(r, false) || e == Resume(r)) ==>
                  d.calls == w.browser.calls && d.promise == w.browser.promise)
  {
    hide T.Next, Foreign;
    assert RequestOk(w.browser, w.browser.requests[r]);
  }
}
