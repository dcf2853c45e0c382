/**
 * The process-wide OAuth token holder of the application (`AuthService`).
 *
 * Each `connect*` call builds an authorization request, opens a popup on
 * it and registers a `message` listener on the window that is never
 * removed. A listener drops messages from foreign origins and otherwise
 * settles its flow on the message's `type` tag alone: there is no
 * correlation id, no timeout and no popup-closed detection, so every
 * listener ever registered keeps reacting to every later message.
 *
 * The window's listener list is the field `listeners`; one `Listener`
 * record per registration remembers which connect call registered it (and
 * so which token field that call writes) and whether its promise settled.
 */
module Auth {
  import opened Wrappers
  import Strings

  // ---------------------------------------------------------------------
  // Providers, tags and the authorization requests
  // ---------------------------------------------------------------------

  datatype Provider = GoogleAnalytics | GoogleAds | SearchConsole | Shopify {
    /** The three providers authorized through the shared Google flow. */
    predicate IsGoogle() {
      !Shopify?
    }
  }

  const GoogleSuccessTag := "GOOGLE_AUTH_SUCCESS"
  const GoogleErrorTag := "GOOGLE_AUTH_ERROR"
  const ShopifySuccessTag := "SHOPIFY_AUTH_SUCCESS"
  const ShopifyErrorTag := "SHOPIFY_AUTH_ERROR"

  /** The error messages the two kinds of listener reject with. */
  const GoogleFailure := "Authentication failed"
  const ShopifyFailure := "Shopify authentication failed"

  const GoogleAuthEndpoint := "https://accounts.google.com/o/oauth2/v2/auth"
  const AnalyticsScope := "https://www.googleapis.com/auth/analytics.readonly"
  const AdsScope := "https://www.googleapis.com/auth/adwords"
  const SearchConsoleScope := "https://www.googleapis.com/auth/webmasters"
  const ShopifyScope := "read_products,read_orders"

  /**
   * What the page reads from its environment: `window.location.origin` and
   * the two client ids injected at build time (uninterpreted strings here).
   */
  datatype Env = Env(pageOrigin: string, googleClientId: string, shopifyClientId: string)

  /**
   * An authorization URL: its base and its query parameters in order.
   * Percent-encoding of the parameters is not modelled.
   */
  datatype AuthRequest = AuthRequest(base: string, params: seq<(string, string)>)

  /** The parameter names of a query, in order. */
  function Keys(params: seq<(string, string)>): (r: seq<string>)
    ensures |r| == |params|
    ensures forall i :: 0 <= i < |params| ==> r[i] == params[i].0
  {
    seq(|params|, i requires 0 <= i < |params| => params[i].0)
  }

  /**
   * `searchParams.get(key)`: the value of a parameter named `key` (the
   * first one; the queries built here never repeat a name).
   */
  function Lookup(params: seq<(string, string)>, key: string): (r: Option<string>)
    ensures r.None? <==> key !in Keys(params)
    ensures r.Some? ==> (key, r.value) in params
    decreases |params|
  {
    if |params| == 0 then None
    else if params[0].0 == key then Some(params[0].1)
    else
      var r := Lookup(params[1..], key);
      assert Keys(params) == [params[0].0] + Keys(params[1..]);
      r
  }

  /**
   * The Google implicit-grant request (section 4.2.1 of RFC 6749) that
   * `authenticateWithGoogle` opens: four parameters appended in order, and
   * no `state` parameter.
   */
  function GoogleRequest(env: Env, scope: seq<string>): (r: AuthRequest)
    ensures r.base == GoogleAuthEndpoint
    ensures Keys(r.params) == ["client_id", "redirect_uri", "response_type", "scope"]
    ensures Lookup(r.params, "state") == None
  {
    AuthRequest(GoogleAuthEndpoint,
      [ ("client_id", env.googleClientId),
        ("redirect_uri", env.pageOrigin + "/auth/callback"),
        ("response_type", "token"),
        ("scope", Strings.Join(scope, " ")) ])
  }

  /** The values of the four parameters of the Google request. */
  lemma GoogleRequestValues(env: Env, scope: seq<string>)
    ensures var ps := GoogleRequest(env, scope).params;
      && Lookup(ps, "client_id") == Some(env.googleClientId)
      && Lookup(ps, "redirect_uri") == Some(env.pageOrigin + "/auth/callback")
      && Lookup(ps, "response_type") == Some("token")
      && Lookup(ps, "scope") == Some(Strings.Join(scope, " "))
  {
    var ps := GoogleRequest(env, scope).params;
    var tail2, tail3 := ps[2..], ps[3..];
    assert ps[1..][1..] == tail2 && tail2[1..] == tail3;
    assert Lookup(tail2, "response_type") == Some("token");
    assert Lookup(tail3, "scope") == Some(Strings.Join(scope, " "));
    assert Lookup(tail2, "scope") == Lookup(tail3, "scope");
    assert Lookup(ps[1..], "scope") == Lookup(tail2, "scope");
  }

  /** The Shopify authorization URL of `connectShopify(shop)`. */
  function ShopifyRequest(env: Env, shop: string): (r: AuthRequest)
    ensures r.base == "https://" + shop + "/admin/oauth/authorize"
    ensures Keys(r.params) == ["client_id", "scope", "redirect_uri"]
    ensures Lookup(r.params, "state") == None
  {
    AuthRequest("https://" + shop + "/admin/oauth/authorize",
      [ ("client_id", env.shopifyClientId),
        ("scope", ShopifyScope),
        ("redirect_uri", env.pageOrigin + "/auth/shopify/callback") ])
  }

  /** The values of the three parameters of the Shopify request. */
  lemma ShopifyRequestValues(env: Env, shop: string)
    ensures var ps := ShopifyRequest(env, shop).params;
      && Lookup(ps, "client_id") == Some(env.shopifyClientId)
      && Lookup(ps, "scope") == Some(ShopifyScope)
      && Lookup(ps, "redirect_uri") == Some(env.pageOrigin + "/auth/shopify/callback")
  {
    var ps := ShopifyRequest(env, shop).params;
    var tail2 := ps[2..];
    assert ps[1..][1..] == tail2;
    assert Lookup(tail2, "redirect_uri") == Some(env.pageOrigin + "/auth/shopify/callback");
    assert Lookup(ps[1..], "redirect_uri") == Lookup(tail2, "redirect_uri");
  }

  /** The scope list each Google connect method passes to `authenticateWithGoogle`. */
  function GoogleScopes(p: Provider): (scopes: seq<string>)
    requires p.IsGoogle()
    ensures |scopes| == 1
  {
    match p
    case GoogleAnalytics => [AnalyticsScope]
    case GoogleAds => [AdsScope]
    case SearchConsole => [SearchConsoleScope]
  }

  /** The three Google connect methods ask for three different scopes. */
  lemma GoogleScopesDistinct(p: Provider, q: Provider)
    requires p.IsGoogle() && q.IsGoogle() && p != q
    ensures GoogleScopes(p)[0] != GoogleScopes(q)[0]
  {
    var a, b := GoogleScopes(p)[0], GoogleScopes(q)[0];
    assert a[32] != b[32] || a[33] != b[33];
  }

  /** Each Google connect method requests exactly its own fixed scope. */
  lemma GoogleScopeParameter(env: Env, p: Provider)
    requires p.IsGoogle()
    ensures Lookup(GoogleRequest(env, GoogleScopes(p)).params, "scope") ==
      Some(match p
           case GoogleAnalytics => AnalyticsScope
           case GoogleAds => AdsScope
           case SearchConsole => SearchConsoleScope)
  {
    GoogleRequestValues(env, GoogleScopes(p));
    assert |GoogleScopes(p)| == 1;
  }

  // ---------------------------------------------------------------------
  // Messages, flows and tokens
  // ---------------------------------------------------------------------

  /**
   * A `message` event: its origin, `data.type`, and the two payload fields
   * the listeners read, `data.access_token` and `data.token`.
   */
  datatype Message = Message(origin: string, kind: string, accessToken: Option<string>, token: Option<string>)

  /** The state of the promise a connect call returned. */
  datatype Status = Pending | Fulfilled(value: Option<string>) | Rejected(reason: string)

  /** One registered `message` listener and the promise it settles. */
  datatype Listener = Listener(provider: Provider, status: Status)

  /** The record `getTokens` returns; `None` is `null` (or `undefined`). */
  datatype Tokens = Tokens(
    googleAnalytics: Option<string>,
    googleAds: Option<string>,
    searchConsole: Option<string>,
    shopify: Option<string>)

  const NoTokens := Tokens(None, None, None, None)

  function TokenOf(t: Tokens, p: Provider): Option<string> {
    match p
    case GoogleAnalytics => t.googleAnalytics
    case GoogleAds => t.googleAds
    case SearchConsole => t.searchConsole
    case Shopify => t.shopify
  }

  /** `t` with the field of provider `p` replaced by `v`. */
  function WithToken(t: Tokens, p: Provider, v: Option<string>): (r: Tokens)
    ensures TokenOf(r, p) == v
    ensures forall q :: q != p ==> TokenOf(r, q) == TokenOf(t, q)
  {
    match p
    case GoogleAnalytics => t.(googleAnalytics := v)
    case GoogleAds => t.(googleAds := v)
    case SearchConsole => t.(searchConsole := v)
    case Shopify => t.(shopify := v)
  }

  /** A promise settles once: later `resolve`/`reject` calls are ignored. */
  function Settle(s: Status, outcome: Status): (r: Status)
    ensures s.Pending? ==> r == outcome
    ensures !s.Pending? ==> r == s
  {
    if s.Pending? then outcome else s
  }

  /** The `type` tags the listener of provider `p` reacts to: the Google pair or the Shopify pair. */
  function SuccessTagOf(p: Provider): string {
    if p.IsGoogle() then GoogleSuccessTag else ShopifySuccessTag
  }

  function ErrorTagOf(p: Provider): string {
    if p.IsGoogle() then GoogleErrorTag else ShopifyErrorTag
  }

  /** The reason the listener of provider `p` rejects with. */
  function FailureOf(p: Provider): string {
    if p.IsGoogle() then GoogleFailure else ShopifyFailure
  }

  /**
   * What one listener does to its own promise when message `m` arrives:
   * the status changes only from pending, and only on a same-origin
   * message carrying a tag of the listener's own pair; a success fulfils
   * it (Google with `access_token`, Shopify with nothing) and an error
   * rejects it with the provider's failure text.
   */
  function Respond(l: Listener, m: Message, pageOrigin: string): (r: Listener)
    ensures r.provider == l.provider
    ensures r.status != l.status ==>
      && l.status.Pending?
      && m.origin == pageOrigin
      && (m.kind == SuccessTagOf(l.provider) || m.kind == ErrorTagOf(l.provider))
    ensures l.status.Pending? && m.origin == pageOrigin && m.kind == SuccessTagOf(l.provider) ==>
      r.status == Fulfilled(if l.provider.IsGoogle() then m.accessToken else None)
    ensures l.status.Pending? && m.origin == pageOrigin && m.kind == ErrorTagOf(l.provider) ==>
      r.status == Rejected(FailureOf(l.provider))
  {
    if m.origin != pageOrigin then l
    else if l.provider.IsGoogle() then
      if m.kind == GoogleSuccessTag then l.(status := Settle(l.status, Fulfilled(m.accessToken)))
      else if m.kind == GoogleErrorTag then l.(status := Settle(l.status, Rejected(GoogleFailure)))
      else l
    else
      if m.kind == ShopifySuccessTag then l.(status := Settle(l.status, Fulfilled(None)))
      else if m.kind == ShopifyErrorTag then l.(status := Settle(l.status, Rejected(ShopifyFailure)))
      else l
  }

  /**
   * The token field, if any, written when one listener handles `m`: a Google
   * connect stores the resolved `access_token` in its own field once its
   * promise fulfils; the Shopify listener itself stores `token` on every
   * success message, settled or not.
   */
  function TokenWrite(l: Listener, m: Message, pageOrigin: string): Option<(Provider, Option<string>)> {
    if m.origin != pageOrigin then None
    else if l.provider.IsGoogle() then
      if m.kind == GoogleSuccessTag && l.status.Pending? then Some((l.provider, m.accessToken)) else None
    else
      if m.kind == ShopifySuccessTag then Some((Shopify, m.token)) else None
  }

  function ApplyWrite(t: Tokens, w: Option<(Provider, Option<string>)>): Tokens {
    match w
    case None => t
    case Some((p, v)) => WithToken(t, p, v)
  }

  /** One window `message` event run through listeners `ls`, in registration order. */
  function Dispatch(ls: seq<Listener>, t: Tokens, m: Message, pageOrigin: string): (r: (seq<Listener>, Tokens))
    ensures |r.0| == |ls|
    decreases |ls|
  {
    if ls == [] then ([], t)
    else
      var front := Dispatch(ls[..|ls| - 1], t, m, pageOrigin);
      var last := ls[|ls| - 1];
      (front.0 + [Respond(last, m, pageOrigin)], ApplyWrite(front.1, TokenWrite(last, m, pageOrigin)))
  }

  /** Delivering to one more listener extends the fold by that listener's step. */
  lemma DispatchStep(ls: seq<Listener>, i: nat, t: Tokens, m: Message, pageOrigin: string)
    requires i < |ls|
    ensures var front := Dispatch(ls[..i], t, m, pageOrigin);
      Dispatch(ls[..i + 1], t, m, pageOrigin) ==
        (front.0 + [Respond(ls[i], m, pageOrigin)], ApplyWrite(front.1, TokenWrite(ls[i], m, pageOrigin)))
  {
    assert ls[..i + 1][..i] == ls[..i];
  }

  /**
   * Where the tokens can come from: a Google field holding a value is
   * explained by a flow of that provider fulfilled with exactly that
   * value, and a Shopify token by some Shopify listener (settled or not,
   * since the Shopify listener writes on every success).
   */
  predicate TokensExplained(ls: seq<Listener>, t: Tokens) {
    && (forall p: Provider :: p.IsGoogle() && TokenOf(t, p).Some? ==>
          exists i :: 0 <= i < |ls| && ls[i] == Listener(p, Fulfilled(TokenOf(t, p))))
    && (t.shopify.Some? ==> exists i :: 0 <= i < |ls| && ls[i].provider == Shopify)
  }

  /** No token, nothing to explain. */
  lemma NoTokensExplained(ls: seq<Listener>)
    ensures TokensExplained(ls, NoTokens)
  {
  }

  /** Registering one more listener keeps every token explained. */
  lemma RegisterKeepsExplained(ls: seq<Listener>, t: Tokens, l: Listener)
    requires TokensExplained(ls, t)
    ensures TokensExplained(ls + [l], t)
  {
    forall p: Provider | p.IsGoogle() && TokenOf(t, p).Some?
      ensures exists i :: 0 <= i < |ls + [l]| && (ls + [l])[i] == Listener(p, Fulfilled(TokenOf(t, p)))
    {
      var i :| 0 <= i < |ls| && ls[i] == Listener(p, Fulfilled(TokenOf(t, p)));
      assert (ls + [l])[i] == ls[i];
    }
    if t.shopify.Some? {
      var i :| 0 <= i < |ls| && ls[i].provider == Shopify;
      assert (ls + [l])[i] == ls[i];
    }
  }

  /**
   * Delivering a message keeps every token explained: a rewritten Google
   * field is explained by the flow the same message fulfils, an untouched
   * one by its old flow, which stays settled.
   */
  lemma DispatchKeepsExplained(ls: seq<Listener>, t: Tokens, m: Message, pageOrigin: string)
    requires TokensExplained(ls, t)
    ensures TokensExplained(Dispatch(ls, t, m, pageOrigin).0, Dispatch(ls, t, m, pageOrigin).1)
  {
    var r := Dispatch(ls, t, m, pageOrigin);
    DispatchListeners(ls, t, m, pageOrigin);
    forall p: Provider | p.IsGoogle() && TokenOf(r.1, p).Some?
      ensures exists i :: 0 <= i < |r.0| && r.0[i] == Listener(p, Fulfilled(TokenOf(r.1, p)))
    {
      DispatchTokens(ls, t, m, pageOrigin, p);
      if Rewrites(ls, m, pageOrigin, p) {
        var i :| 0 <= i < |ls| && ls[i] == Listener(p, Pending);
        assert r.0[i] == Listener(p, Fulfilled(m.accessToken));
      } else {
        var i :| 0 <= i < |ls| && ls[i] == Listener(p, Fulfilled(TokenOf(t, p)));
        assert r.0[i] == ls[i];
      }
    }
    DispatchTokens(ls, t, m, pageOrigin, Shopify);
    if r.1.shopify.Some? {
      var i :| 0 <= i < |ls| && ls[i].provider == Shopify;
      assert r.0[i].provider == Shopify;
    }
  }

  /**
   * The Shopify token does not wait for a successful connect: a Shopify
   * flow already rejected by an error still stores the token of a later
   * success, through its listener that was never removed.
   */
  lemma StaleShopifyListenerStoresToken(pageOrigin: string, token: string)
    ensures var rejected := Listener(Shopify, Rejected(ShopifyFailure));
      Dispatch([rejected], NoTokens, Message(pageOrigin, ShopifySuccessTag, None, Some(token)), pageOrigin)
        == ([rejected], NoTokens.(shopify := Some(token)))
  {
    var rejected := Listener(Shopify, Rejected(ShopifyFailure));
    var m := Message(pageOrigin, ShopifySuccessTag, None, Some(token));
    var r := Dispatch([rejected], NoTokens, m, pageOrigin);
    ShopifySuccessRewritesToken([rejected], NoTokens, m, pageOrigin, 0);
    SettledStaysSettled([rejected], NoTokens, m, pageOrigin, 0);
    assert r.0 == [r.0[0]];
  }

  // ---------------------------------------------------------------------
  // The service object
  // ---------------------------------------------------------------------

  class AuthService {
    var shopifyAccessToken: Option<string>
    var googleAnalyticsToken: Option<string>
    var googleAdsToken: Option<string>
    var searchConsoleToken: Option<string>
    /** The window's `message` listeners registered by this service, oldest first. */
    var listeners: seq<Listener>

    constructor ()
      ensures GetTokens() == NoTokens
      ensures listeners == []
      ensures TokensExplained(listeners, GetTokens())
    {
      shopifyAccessToken := None;
      googleAnalyticsToken := None;
      googleAdsToken := None;
      searchConsoleToken := None;
      listeners := [];
    }

    /** `getTokens()`: the four token fields as they are now. */
    function GetTokens(): (t: Tokens)
      reads this
      ensures TokenOf(t, GoogleAnalytics) == googleAnalyticsToken
      ensures TokenOf(t, GoogleAds) == googleAdsToken
      ensures TokenOf(t, SearchConsole) == searchConsoleToken
      ensures TokenOf(t, Shopify) == shopifyAccessToken
    {
      Tokens(googleAnalyticsToken, googleAdsToken, searchConsoleToken, shopifyAccessToken)
    }

    /**
     * `authenticateWithGoogle(scope)`: builds the request, opens the popup on
     * it and registers one more listener, pending, on behalf of the connect
     * call for `target`. The returned index identifies that listener.
     */
    method AuthenticateWithGoogle(env: Env, scope: seq<string>, target: Provider)
      returns (request: AuthRequest, flow: nat)
      requires target.IsGoogle()
      modifies this
      ensures request == GoogleRequest(env, scope)
      ensures listeners == old(listeners) + [Listener(target, Pending)]
      ensures flow == |old(listeners)| && listeners[flow] == Listener(target, Pending)
      ensures GetTokens() == old(GetTokens())
      ensures TokensExplained(old(listeners), old(GetTokens())) ==> TokensExplained(listeners, GetTokens())
    {
      request := GoogleRequest(env, scope);
      flow := |listeners|;
      if TokensExplained(listeners, GetTokens()) {
        RegisterKeepsExplained(listeners, GetTokens(), Listener(target, Pending));
      }
      listeners := listeners + [Listener(target, Pending)];
    }

    method ConnectGoogleAnalytics(env: Env) returns (request: AuthRequest, flow: nat)
      modifies this
      ensures request == GoogleRequest(env, [AnalyticsScope])
      ensures listeners == old(listeners) + [Listener(GoogleAnalytics, Pending)]
      ensures flow == |old(listeners)|
      ensures GetTokens() == old(GetTokens())
      ensures TokensExplained(old(listeners), old(GetTokens())) ==> TokensExplained(listeners, GetTokens())
    {
      request, flow := AuthenticateWithGoogle(env, [AnalyticsScope], GoogleAnalytics);
    }

    method ConnectGoogleAds(env: Env) returns (request: AuthRequest, flow: nat)
      modifies this
      ensures request == GoogleRequest(env, [AdsScope])
      ensures listeners == old(listeners) + [Listener(GoogleAds, Pending)]
      ensures flow == |old(listeners)|
      ensures GetTokens() == old(GetTokens())
      ensures TokensExplained(old(listeners), old(GetTokens())) ==> TokensExplained(listeners, GetTokens())
    {
      request, flow := AuthenticateWithGoogle(env, [AdsScope], GoogleAds);
    }

    method ConnectSearchConsole(env: Env) returns (request: AuthRequest, flow: nat)
      modifies this
      ensures request == GoogleRequest(env, [SearchConsoleScope])
      ensures listeners == old(listeners) + [Listener(SearchConsole, Pending)]
      ensures flow == |old(listeners)|
      ensures GetTokens() == old(GetTokens())
      ensures TokensExplained(old(listeners), old(GetTokens())) ==> TokensExplained(listeners, GetTokens())
    {
      request, flow := AuthenticateWithGoogle(env, [SearchConsoleScope], SearchConsole);
    }

    /** `connectShopify(shop)`: the same pattern with the Shopify URL and tags. */
    method ConnectShopify(env: Env, shop: string) returns (request: AuthRequest, flow: nat)
      modifies this
      ensures request == ShopifyRequest(env, shop)
      ensures listeners == old(listeners) + [Listener(Shopify, Pending)]
      ensures flow == |old(listeners)|
      ensures GetTokens() == old(GetTokens())
      ensures TokensExplained(old(listeners), old(GetTokens())) ==> TokensExplained(listeners, GetTokens())
    {
      request := ShopifyRequest(env, shop);
      flow := |listeners|;
      if TokensExplained(listeners, GetTokens()) {
        RegisterKeepsExplained(listeners, GetTokens(), Listener(Shopify, Pending));
      }
      listeners := listeners + [Listener(Shopify, Pending)];
    }

    /** Stores `v` in the token field of provider `p`. */
    method SetToken(p: Provider, v: Option<string>)
      modifies this
      ensures GetTokens() == WithToken(old(GetTokens()), p, v)
      ensures listeners == old(listeners)
    {
      match p
      case GoogleAnalytics => googleAnalyticsToken := v;
      case GoogleAds => googleAdsToken := v;
      case SearchConsole => searchConsoleToken := v;
      case Shopify => shopifyAccessToken := v;
    }

    /** The browser delivering message `m` to every registered listener in turn. */
    method Deliver(pageOrigin: string, m: Message)
      modifies this
      ensures (listeners, GetTokens()) == Dispatch(old(listeners), old(GetTokens()), m, pageOrigin)
      ensures TokensExplained(old(listeners), old(GetTokens())) ==> TokensExplained(listeners, GetTokens())
    {
      ghost var ls0, t0 := listeners, GetTokens();
      var i := 0;
      while i < |listeners|
        invariant |listeners| == |ls0|
        invariant 0 <= i <= |listeners|
        invariant forall k :: i <= k < |listeners| ==> listeners[k] == ls0[k]
        invariant listeners[..i] == Dispatch(ls0[..i], t0, m, pageOrigin).0
        invariant GetTokens() == Dispatch(ls0[..i], t0, m, pageOrigin).1
      {
        var l := listeners[i];
        assert l == ls0[i];
        DispatchStep(ls0, i, t0, m, pageOrigin);
        var w := TokenWrite(l, m, pageOrigin);
        listeners := listeners[i := Respond(l, m, pageOrigin)];
        if w.Some? {
          SetToken(w.value.0, w.value.1);
        }
        assert listeners[..i + 1] == listeners[..i] + [Respond(l, m, pageOrigin)];
        i := i + 1;
      }
      assert ls0[..i] == ls0;
      assert listeners[..i] == listeners;
      if TokensExplained(ls0, t0) {
        DispatchKeepsExplained(ls0, t0, m, pageOrigin);
      }
    }
  }

  /** Holder of the static `AuthService.instance` field. */
  class AuthServiceHolder {
    var instance: AuthService?

    constructor ()
      ensures instance == null
    {
      instance := null;
    }

    /** `getInstance()`: creates the service on first use, then always returns it. */
    method GetInstance() returns (s: AuthService)
      modifies this
      ensures old(instance) != null ==> s == old(instance)
      ensures old(instance) == null ==> fresh(s) && s.GetTokens() == NoTokens && s.listeners == []
      ensures instance == s
    {
      if instance == null {
        instance := new AuthService();
      }
      s := instance;
    }
  }

  // ---------------------------------------------------------------------
  // What one delivered message does
  // ---------------------------------------------------------------------

  /** Each listener reacts on its own: the fold leaves listener `i` as `Respond` makes it. */
  lemma {:induction false} DispatchListeners(ls: seq<Listener>, t: Tokens, m: Message, pageOrigin: string)
    ensures forall i :: 0 <= i < |ls| ==> Dispatch(ls, t, m, pageOrigin).0[i] == Respond(ls[i], m, pageOrigin)
  {
    if ls != [] {
      var front := ls[..|ls| - 1];
      DispatchListeners(front, t, m, pageOrigin);
      forall i | 0 <= i < |ls| ensures Dispatch(ls, t, m, pageOrigin).0[i] == Respond(ls[i], m, pageOrigin) {
        if i < |ls| - 1 {
          assert front[i] == ls[i];
        }
      }
    }
  }

  /**
   * The condition under which message `m` rewrites the field of `p`: a
   * same-origin Google success with some pending flow of `p`, or a
   * same-origin Shopify success with any Shopify listener, settled or not.
   */
  predicate Rewrites(ls: seq<Listener>, m: Message, pageOrigin: string, p: Provider) {
    && m.origin == pageOrigin
    && if p.IsGoogle() then
         m.kind == GoogleSuccessTag && exists i :: 0 <= i < |ls| && ls[i] == Listener(p, Pending)
       else
         m.kind == ShopifySuccessTag && exists i :: 0 <= i < |ls| && ls[i].provider == Shopify
  }

  /** The payload field a rewrite of `p`'s token stores. */
  function Payload(m: Message, p: Provider): Option<string> {
    if p.IsGoogle() then m.accessToken else m.token
  }

  lemma TokenWriteTarget(l: Listener, m: Message, pageOrigin: string, p: Provider)
    ensures (TokenWrite(l, m, pageOrigin).Some? && TokenWrite(l, m, pageOrigin).value.0 == p) <==>
      (m.origin == pageOrigin && l.provider == p &&
       if p.IsGoogle() then m.kind == GoogleSuccessTag && l.status.Pending? else m.kind == ShopifySuccessTag)
    ensures TokenWrite(l, m, pageOrigin).Some? ==>
      TokenWrite(l, m, pageOrigin).value.1 == Payload(m, TokenWrite(l, m, pageOrigin).value.0)
  {
  }

  /** After one message, each token field either holds that message's payload or is unchanged. */
  lemma {:induction false} DispatchTokens(ls: seq<Listener>, t: Tokens, m: Message, pageOrigin: string, p: Provider)
    ensures TokenOf(Dispatch(ls, t, m, pageOrigin).1, p) ==
      if Rewrites(ls, m, pageOrigin, p) then Payload(m, p) else TokenOf(t, p)
  {
    if ls != [] {
      var front := ls[..|ls| - 1];
      var last := ls[|ls| - 1];
      DispatchTokens(front, t, m, pageOrigin, p);
      TokenWriteTarget(last, m, pageOrigin, p);
      var w := TokenWrite(last, m, pageOrigin);
      if w.Some? && w.value.0 != p {
        assert TokenOf(ApplyWrite(Dispatch(front, t, m, pageOrigin).1, w), p) == TokenOf(Dispatch(front, t, m, pageOrigin).1, p);
      }
      if Rewrites(ls, m, pageOrigin, p) && !Rewrites(front, m, pageOrigin, p) {
        var i :| 0 <= i < |ls| && (if p.IsGoogle() then ls[i] == Listener(p, Pending) else ls[i].provider == Shopify);
        assert i == |ls| - 1;
      }
      if Rewrites(front, m, pageOrigin, p) {
        var i :| 0 <= i < |front| && (if p.IsGoogle() then front[i] == Listener(p, Pending) else front[i].provider == Shopify);
        assert ls[i] == front[i];
      }
    }
  }

  /** Two token records agree when every provider's field agrees. */
  lemma TokensEqual(a: Tokens, b: Tokens)
    requires forall p :: TokenOf(a, p) == TokenOf(b, p)
    ensures a == b
  {
    assert TokenOf(a, GoogleAnalytics) == TokenOf(b, GoogleAnalytics);
    assert TokenOf(a, GoogleAds) == TokenOf(b, GoogleAds);
    assert TokenOf(a, SearchConsole) == TokenOf(b, SearchConsole);
    assert TokenOf(a, Shopify) == TokenOf(b, Shopify);
  }

  /** A message from any other origin changes no listener and no token. */
  lemma ForeignOriginIgnored(ls: seq<Listener>, t: Tokens, m: Message, pageOrigin: string)
    requires m.origin != pageOrigin
    ensures Dispatch(ls, t, m, pageOrigin) == (ls, t)
  {
    DispatchListeners(ls, t, m, pageOrigin);
    var r := Dispatch(ls, t, m, pageOrigin);
    forall p ensures TokenOf(r.1, p) == TokenOf(t, p) {
      DispatchTokens(ls, t, m, pageOrigin, p);
    }
    TokensEqual(r.1, t);
    assert r.0 == ls;
  }

  /** A message whose `type` is none of the four tags changes nothing either. */
  lemma UntaggedIgnored(ls: seq<Listener>, t: Tokens, m: Message, pageOrigin: string)
    requires m.kind !in {GoogleSuccessTag, GoogleErrorTag, ShopifySuccessTag, ShopifyErrorTag}
    ensures Dispatch(ls, t, m, pageOrigin) == (ls, t)
  {
    DispatchListeners(ls, t, m, pageOrigin);
    var r := Dispatch(ls, t, m, pageOrigin);
    forall p ensures TokenOf(r.1, p) == TokenOf(t, p) {
      DispatchTokens(ls, t, m, pageOrigin, p);
    }
    TokensEqual(r.1, t);
    assert r.0 == ls;
  }

  /** A settled flow stays as it is, whatever message arrives: promises settle at most once. */
  lemma SettledStaysSettled(ls: seq<Listener>, t: Tokens, m: Message, pageOrigin: string, i: nat)
    requires i < |ls| && !ls[i].status.Pending?
    ensures Dispatch(ls, t, m, pageOrigin).0[i] == ls[i]
  {
    DispatchListeners(ls, t, m, pageOrigin);
  }

  /**
   * All Google flows share one tag pair: one same-origin success settles
   * every pending Google flow, whatever provider it was for, with the same
   * `access_token`, and each such provider's field receives it, while the
   * Shopify flows and token are untouched.
   */
  lemma GoogleSuccessSettlesAllGoogleFlows(ls: seq<Listener>, t: Tokens, m: Message, pageOrigin: string)
    requires m.origin == pageOrigin && m.kind == GoogleSuccessTag
    ensures forall i :: 0 <= i < |ls| && ls[i].provider.IsGoogle() && ls[i].status.Pending? ==>
      Dispatch(ls, t, m, pageOrigin).0[i] == Listener(ls[i].provider, Fulfilled(m.accessToken))
    ensures forall i :: 0 <= i < |ls| && !ls[i].provider.IsGoogle() ==> Dispatch(ls, t, m, pageOrigin).0[i] == ls[i]
    ensures forall i :: 0 <= i < |ls| && ls[i].provider.IsGoogle() && ls[i].status.Pending? ==>
      TokenOf(Dispatch(ls, t, m, pageOrigin).1, ls[i].provider) == m.accessToken
    ensures Dispatch(ls, t, m, pageOrigin).1.shopify == t.shopify
  {
    DispatchListeners(ls, t, m, pageOrigin);
    forall i | 0 <= i < |ls| && ls[i].provider.IsGoogle() && ls[i].status.Pending?
      ensures TokenOf(Dispatch(ls, t, m, pageOrigin).1, ls[i].provider) == m.accessToken
    {
      DispatchTokens(ls, t, m, pageOrigin, ls[i].provider);
      assert ls[i] == Listener(ls[i].provider, Pending);
    }
    DispatchTokens(ls, t, m, pageOrigin, Shopify);
  }

  /**
   * A same-origin Google error rejects every pending Google flow with
   * "Authentication failed" and writes no token field at all.
   */
  lemma GoogleErrorWritesNothing(ls: seq<Listener>, t: Tokens, m: Message, pageOrigin: string)
    requires m.origin == pageOrigin && m.kind == GoogleErrorTag
    ensures Dispatch(ls, t, m, pageOrigin).1 == t
    ensures forall i :: 0 <= i < |ls| && ls[i].provider.IsGoogle() && ls[i].status.Pending? ==>
      Dispatch(ls, t, m, pageOrigin).0[i] == Listener(ls[i].provider, Rejected(GoogleFailure))
  {
    DispatchListeners(ls, t, m, pageOrigin);
    var r := Dispatch(ls, t, m, pageOrigin);
    DispatchTokens(ls, t, m, pageOrigin, GoogleAnalytics);
    DispatchTokens(ls, t, m, pageOrigin, GoogleAds);
    DispatchTokens(ls, t, m, pageOrigin, SearchConsole);
    DispatchTokens(ls, t, m, pageOrigin, Shopify);
  }

  /**
   * The Shopify pair settles the Shopify flows: a same-origin success
   * fulfils every pending Shopify flow with no value, and an error rejects
   * it with "Shopify authentication failed" and writes no token.
   */
  lemma ShopifyTagsSettleShopifyFlows(ls: seq<Listener>, t: Tokens, m: Message, pageOrigin: string)
    requires m.origin == pageOrigin
    ensures m.kind == ShopifySuccessTag ==>
      forall i :: 0 <= i < |ls| && ls[i].provider == Shopify && ls[i].status.Pending? ==>
        Dispatch(ls, t, m, pageOrigin).0[i] == Listener(Shopify, Fulfilled(None))
    ensures m.kind == ShopifyErrorTag ==>
      forall i :: 0 <= i < |ls| && ls[i].provider == Shopify && ls[i].status.Pending? ==>
        Dispatch(ls, t, m, pageOrigin).0[i] == Listener(Shopify, Rejected(ShopifyFailure))
    ensures m.kind == ShopifyErrorTag ==> Dispatch(ls, t, m, pageOrigin).1 == t
  {
    DispatchListeners(ls, t, m, pageOrigin);
    if m.kind == ShopifyErrorTag {
      DispatchTokens(ls, t, m, pageOrigin, GoogleAnalytics);
      DispatchTokens(ls, t, m, pageOrigin, GoogleAds);
      DispatchTokens(ls, t, m, pageOrigin, SearchConsole);
      DispatchTokens(ls, t, m, pageOrigin, Shopify);
    }
  }

  /**
   * A listener ignores the other provider's tag pair: Shopify tags leave
   * every Google listener as it was, and Google tags every Shopify listener.
   */
  lemma OtherPairIgnored(ls: seq<Listener>, t: Tokens, m: Message, pageOrigin: string, i: nat, q: Provider)
    requires i < |ls| && q.IsGoogle() != ls[i].provider.IsGoogle()
    requires m.kind == SuccessTagOf(q) || m.kind == ErrorTagOf(q)
    ensures Dispatch(ls, t, m, pageOrigin).0[i] == ls[i]
  {
    DispatchListeners(ls, t, m, pageOrigin);
  }

  /**
   * Shopify listeners are never removed and write the token themselves: a
   * same-origin Shopify success overwrites `shopifyAccessToken` with its
   * `token` as soon as any Shopify listener exists, even one whose promise
   * settled long ago, and leaves the Google fields alone.
   */
  lemma ShopifySuccessRewritesToken(ls: seq<Listener>, t: Tokens, m: Message, pageOrigin: string, i: nat)
    requires m.origin == pageOrigin && m.kind == ShopifySuccessTag
    requires i < |ls| && ls[i].provider == Shopify
    ensures Dispatch(ls, t, m, pageOrigin).1 == t.(shopify := m.token)
  {
    var r := Dispatch(ls, t, m, pageOrigin);
    DispatchTokens(ls, t, m, pageOrigin, GoogleAnalytics);
    DispatchTokens(ls, t, m, pageOrigin, GoogleAds);
    DispatchTokens(ls, t, m, pageOrigin, SearchConsole);
    DispatchTokens(ls, t, m, pageOrigin, Shopify);
  }

  /**
   * Cross-wiring: with Analytics and Ads both connecting, one success
   * message meant for either popup completes both with the same token.
   */
  lemma CrossWiredGoogleFlows(env: Env, token: string)
    ensures Dispatch([Listener(GoogleAnalytics, Pending), Listener(GoogleAds, Pending)], NoTokens,
                     Message(env.pageOrigin, GoogleSuccessTag, Some(token), None), env.pageOrigin)
         == ([Listener(GoogleAnalytics, Fulfilled(Some(token))), Listener(GoogleAds, Fulfilled(Some(token)))],
             Tokens(Some(token), Some(token), None, None))
  {
    var o := env.pageOrigin;
    var a, b := Listener(GoogleAnalytics, Pending), Listener(GoogleAds, Pending);
    var m := Message(o, GoogleSuccessTag, Some(token), None);
    assert [a, b][..1] == [a] && [a][..0] == [];
    assert Dispatch([a][..0], NoTokens, m, o) == ([], NoTokens);
    assert Respond(a, m, o) == Listener(GoogleAnalytics, Fulfilled(Some(token)));
    assert TokenWrite(a, m, o) == Some((GoogleAnalytics, Some(token)));
    var first := Dispatch([a], NoTokens, m, o);
    assert [a] != [];
    assert |[a]| - 1 == 0;
    assert first.0 == Dispatch([a][..0], NoTokens, m, o).0 + [Respond(a, m, o)];
    assert first.0 == [Respond(a, m, o)];
    assert first.1 == ApplyWrite(NoTokens, TokenWrite(a, m, o));
    assert first == ([Listener(GoogleAnalytics, Fulfilled(Some(token)))], Tokens(Some(token), None, None, None));
    var both := Dispatch([a, b], NoTokens, m, o);
    assert both.0 == first.0 + [Respond(b, m, o)];
    assert both.0 == [Listener(GoogleAnalytics, Fulfilled(Some(token))), Listener(GoogleAds, Fulfilled(Some(token)))];
    assert TokenWrite(b, m, o) == Some((GoogleAds, Some(token)));
    assert both.1 == ApplyWrite(first.1, TokenWrite(b, m, o));
  }
}
