/** The browser's API client: its module variables, changed step by step between awaits. */
module ApiClients {
  import opened Wrappers
  import opened Session

  class ApiClient {
    var cookie: Id
    var accessToken: bool
    var refreshPromise: Option<nat>
    var calls: map<nat, Call>
    var nextCall: nat
    var requests: map<Id, Request>
    ghost var delivered: set<Id>

    constructor (cookie: Id)
      ensures View() == Browser(cookie, true, None, map[], 0, map[], {}) && ClientOk(View())
    {
      this.cookie, accessToken, refreshPromise := cookie, true, None;
      calls, nextCall, requests, delivered := map[], 0, map[], {};
    }

    ghost function View(): Browser
      reads this
    {
      Browser(cookie, accessToken, refreshPromise, calls, nextCall, requests, delivered)
    }

    /** At most one refresh is in flight: whoever comes while one is joins it. */
    method PerformRefresh() returns (promise: nat)
      requires ClientOk(View())
      modifies this
      ensures View() == JoinRefresh(old(View())) && refreshPromise == Some(promise)
      ensures |calls| == 1
      ensures old(refreshPromise).Some? ==> promise == old(refreshPromise).value && calls == old(calls)
    {
      if refreshPromise == None {
        refreshPromise := Some(nextCall);
        calls := calls[nextCall := Sent(cookie)];
        nextCall := nextCall + 1;
      }
      promise := refreshPromise.value;
      assert calls.Keys == {promise} && |calls| == |calls.Keys|;
    }

    /** `request`: the first fetch of a new request. */
    method Start(r: Id, skipAuthRefresh: bool)
      requires ClientOk(View()) && r !in requests
      modifies this
      ensures ClientOk(View())
      ensures View() == old(View()).(requests := old(requests)[r :=
                Request(if skipAuthRefresh then Disabled else Eligible, Fetching, 1, 0)])
    {
      requests := requests[r := Request(if skipAuthRefresh then Disabled else Eligible, Fetching, 1, 0)];
    }

    method AwaitRefresh(r: Id, q: Request)
      requires ClientOk(View())
      modifies this
      ensures View() == Await(old(View()), r, q)
    {
      hide ClientOk;
      var promise := PerformRefresh();
      requests := requests[r := q.(pc := Awaiting(promise), awaits := q.awaits + 1)];
    }

    /** `performRequest` up to its next await, when the response to a fetch arrives. */
    method ResponseArrived(r: Id, unauthorized: bool)
      requires ClientOk(View()) && r in requests && requests[r].pc == Fetching
      modifies this
      ensures ClientOk(View()) && View() == OnReply(old(View()), r, unauthorized)
    {
      var q := requests[r];
      if unauthorized && q.phase == Eligible {
        AwaitKeeps(View(), r, q);
        AwaitRefresh(r, q);
      } else {
        if unauthorized && q.phase == Retry {
          accessToken := false;
        }
        requests := requests[r := q.(pc := Settled)];
      }
    }

    /** The rest of `performRequest` after its refresh: a retry, or the end of the session. */
    method RefreshAwaited(r: Id)
      requires ClientOk(View()) && r in requests && requests[r].pc.Resuming?
      modifies this
      ensures ClientOk(View()) && View() == OnResume(old(View()), r, old(requests)[r].pc.ok)
      ensures Rank(requests[r]) < Rank(old(requests)[r])
    {
      var q := requests[r];
      if !q.pc.ok {
        requests := requests[r := q.(pc := Settled)];
        accessToken := false;
      } else if q.fetches == 0 {
        requests := requests[r := q.(pc := Settled)];
      } else {
        requests := requests[r := q.(phase := Retry, pc := Fetching, fetches := q.fetches + 1)];
      }
    }

    /** `refreshAccessToken` when its response arrives; `parsed` tells whether it held an access token. */
    method RefreshAnswered(c: nat, outcome: T.Outcome, parsed: bool)
      requires ClientOk(View()) && c in calls && calls[c].AtServer?
      modifies this
      ensures ClientOk(View()) && View() == OnLand(old(View()), c, outcome, parsed)
    {
      match outcome
      case Issued(n) =>
        cookie := n;
        accessToken := accessToken || parsed;
        calls := calls[c := Landed(parsed)];
      case Refused =>
        calls := calls[c := Landed(false)];
      case ReuseDetected =>
        calls := calls[c := Landed(false)];
    }

    /** The `finally` of `performRefresh`, and everyone who awaits the promise waking up. */
    method RefreshSettled(c: nat)
      requires ClientOk(View()) && c in calls && calls[c].Landed?
      modifies this
      ensures ClientOk(View()) && View() == OnSettle(old(View()), c, old(calls)[c].ok)
      ensures refreshPromise == None && calls == map[]
      ensures forall r :: r in requests ==> !requests[r].pc.Awaiting?
    {
      var ok := calls[c].ok;
      refreshPromise := None;
      calls := calls - {c};
      requests := map r | r in requests ::
        if requests[r].pc == Awaiting(c) then requests[r].(pc := Resuming(ok)) else requests[r];
    }
  }
}
