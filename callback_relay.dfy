/** scripts/oauth-callback-server.ts: the development relay that receives the
    provider's redirect, keeps the latest callback for polling and bounces the
    browser to the app's deep link. Express, CORS, static files and the health
    route are left out; `encode` is `encodeURIComponent`. */
module CallbackRelay {
  import opened Wrappers
  import opened Text
  import GubuyClient

  /** The latest callback: `{code, state}` or `{error, state}`. */
  datatype StoredCallback = StoredCallback(code: Option<string>, state: Option<string>, error: Option<string>)

  /** What `/callback` answers. */
  datatype Reply = Redirect(location: string) | BadRequest(message: string)

  /** What `/callback-data` answers. */
  datatype PollReply = Waiting | Latest(callback: StoredCallback)

  const RELAY_SCHEME := "portalusuariosmobile://callback"
  const INVALID_PARAMETERS := "Invalid callback parameters"

  /** The decision of `/callback` for the query values `code`, `state` and
      `error`: the reply, and the callback to keep (`None` keeps the old one). */
  datatype Decision = Decision(reply: Reply, keep: Option<StoredCallback>)

  function RelayDecision(code: Option<string>, state: Option<string>, error: Option<string>,
                         encode: string -> string): (d: Decision)
    ensures Truthy(error) ==>
      d == Decision(Redirect(RELAY_SCHEME + "?error=" + encode(error.value) + "&state=" + encode(OrEmpty(state))),
                    Some(StoredCallback(None, state, error)))
    ensures !Truthy(error) && Truthy(code) && Truthy(state) ==>
      d == Decision(Redirect(RELAY_SCHEME + "?code=" + encode(code.value) + "&state=" + encode(state.value)),
                    Some(StoredCallback(code, state, None)))
    ensures d.keep.None? <==> !Truthy(error) && !(Truthy(code) && Truthy(state))
    ensures d.keep.None? ==> d.reply == BadRequest(INVALID_PARAMETERS)
  {
    if Truthy(error) then
      Decision(Redirect(RELAY_SCHEME + "?error=" + encode(error.value) + "&state=" + encode(Or(state, Some("")).value)),
               Some(StoredCallback(None, state, error)))
    else if Truthy(code) && Truthy(state) then
      Decision(Redirect(RELAY_SCHEME + "?code=" + encode(code.value) + "&state=" + encode(state.value)),
               Some(StoredCallback(code, state, None)))
    else Decision(BadRequest(INVALID_PARAMETERS), None)
  }

  /** Every redirect the relay sends goes to the relay scheme's callback with a query. */
  lemma RedirectsUseRelayScheme(code: Option<string>, state: Option<string>, error: Option<string>,
                                encode: string -> string)
    ensures var reply := RelayDecision(code, state, error, encode).reply;
      reply.Redirect? ==> StartsWith(reply.location, RELAY_SCHEME + "?")
  {
    var reply := RelayDecision(code, state, error, encode).reply;
    if reply.Redirect? {
      var rest := if Truthy(error) then "error=" + encode(error.value) + "&state=" + encode(OrEmpty(state))
                  else "code=" + encode(code.value) + "&state=" + encode(state.value);
      assert reply.location == (RELAY_SCHEME + "?") + rest;
    }
  }

  /** The relay's deep links never pass the app's deep-link filter, whose prefix
      is 'portalusuariosmobileg12://'. */
  lemma RelayRedirectsNotAccepted(code: Option<string>, state: Option<string>, error: Option<string>,
                                  encode: string -> string)
    ensures var reply := RelayDecision(code, state, error, encode).reply;
      reply.Redirect? ==> !GubuyClient.AcceptsDeepLink(reply.location)
  {
    var reply := RelayDecision(code, state, error, encode).reply;
    if reply.Redirect? {
      RedirectsUseRelayScheme(code, state, error, encode);
      assert reply.location[20] == ':';
      assert GubuyClient.APP_SCHEME_PREFIX[20] == 'g';
    }
  }

  /** The relay's single slot. */
  class Relay {
    var latest: Option<StoredCallback>

    constructor()
      ensures latest == None
    {
      latest := None;
    }

    /** GET /callback. */
    method Callback(code: Option<string>, state: Option<string>, error: Option<string>, encode: string -> string)
      returns (reply: Reply)
      modifies this
      ensures reply == RelayDecision(code, state, error, encode).reply
      ensures latest == (var keep := RelayDecision(code, state, error, encode).keep;
                         if keep.Some? then keep else old(latest))
    {
      var decision := RelayDecision(code, state, error, encode);
      if decision.keep.Some? {
        latest := decision.keep;
      }
      reply := decision.reply;
    }

    /** GET /callback-data: the latest callback, or waiting; reading changes nothing. */
    method CallbackData() returns (r: PollReply)
      ensures r == if latest.Some? then Latest(latest.value) else Waiting
    {
      r := if latest.Some? then Latest(latest.value) else Waiting;
    }

    /** POST /clear-callback. */
    method ClearCallback()
      modifies this
      ensures latest == None
    {
      latest := None;
    }
  }

  /** Only the most recent valid callback is retained: a second callback
      replaces the first, an invalid one in between changes nothing, and
      clearing returns the relay to waiting. */
  method LatestOnlyScenario(relay: Relay, first: string, second: string, state: string, encode: string -> string)
    returns (afterBoth: PollReply, afterClear: PollReply)
    requires first != "" && second != "" && state != ""
    modifies relay
    ensures afterBoth == Latest(StoredCallback(Some(second), Some(state), None))
    ensures afterClear == Waiting
  {
    var reply := relay.Callback(Some(first), Some(state), None, encode);
    reply := relay.Callback(Some(second), Some(state), None, encode);
    reply := relay.Callback(None, Some(state), None, encode);
    afterBoth := relay.CallbackData();
    relay.ClearCallback();
    afterClear := relay.CallbackData();
  }
}
