/** The choice of the upstream API key, written out identically in the proxy,
    the chat route and the admin playground: a configured environment key
    wins (logged as provider 1), otherwise the first enabled provider key in
    query order, otherwise the request cannot be served. */
module Upstream {
  import opened Common
  import opened Records
  import opened Json

  /** The body of an upstream answer as `resp.json()` sees it: a JSON value,
      or the text of the exception raised on a body that does not parse. */
  datatype Body = JsonBody(json: Json) | NotJson(parseError: string)

  /** An outgoing HTTP call: an answer with its status code, or the text of
      the exception `requests` raised (timeout, refused connection, ...). */
  datatype UpstreamResult = Answered(status: int, body: Body) | Raised(message: string)

  /** The key sent upstream and the provider id its usage is logged under. */
  datatype UpstreamPick = UpstreamPick(apiKey: string, providerId: int)

  /** `k` is the first enabled provider. */
  predicate FirstEnabledAt(providers: seq<ProviderKey>, k: int) {
    && 0 <= k < |providers|
    && providers[k].enabled
    && forall j :: 0 <= j < k ==> !providers[j].enabled
  }

  /** `ProviderKey.query.filter_by(enabled=True).first()`. */
  function FirstEnabled(providers: seq<ProviderKey>): (r: Option<nat>)
    ensures r.Some? ==> FirstEnabledAt(providers, r.value)
    ensures r.None? <==> forall j :: 0 <= j < |providers| ==> !providers[j].enabled
  {
    if |providers| == 0 then None
    else if providers[0].enabled then Some(0)
    else
      match FirstEnabled(providers[1..])
      case None => None
      case Some(k) => Some(k + 1)
  }

  /** The upstream key choice; `envKey` is `UPSTREAM_API_KEY` (`""` when unset).
      `None` is the route's 500 "no provider configured" answer. */
  function ChooseUpstream(envKey: string, providers: seq<ProviderKey>): (r: Option<UpstreamPick>)
    ensures envKey != "" ==> r == Some(UpstreamPick(envKey, 1))
    ensures envKey == "" ==> (r.None? <==> forall j :: 0 <= j < |providers| ==> !providers[j].enabled)
    ensures envKey == "" && r.Some? ==>
      exists k :: FirstEnabledAt(providers, k) && r.value == UpstreamPick(providers[k].apiKey, providers[k].id)
  {
    if envKey != "" then Some(UpstreamPick(envKey, 1))
    else
      match FirstEnabled(providers)
      case None => None
      case Some(k) => Some(UpstreamPick(providers[k].apiKey, providers[k].id))
  }

  /** Disabling or enabling providers after the first enabled one never
      changes the pick, and neither does any provider list when an
      environment key is set. */
  lemma PickIgnoresLaterProviders(envKey: string, providers: seq<ProviderKey>, extra: seq<ProviderKey>)
    requires envKey != "" || exists k :: 0 <= k < |providers| && providers[k].enabled
    ensures ChooseUpstream(envKey, providers + extra) == ChooseUpstream(envKey, providers)
  {
    if envKey == "" {
      var k :| 0 <= k < |providers| && providers[k].enabled;
      var f := FirstEnabled(providers);
      assert f.Some?;
      assert FirstEnabledAt(providers + extra, f.value);
      FirstEnabledUnique(providers + extra, f.value, FirstEnabled(providers + extra).value);
    }
  }

  lemma FirstEnabledUnique(providers: seq<ProviderKey>, a: int, b: int)
    requires FirstEnabledAt(providers, a) && FirstEnabledAt(providers, b)
    ensures a == b
  {
  }
}
