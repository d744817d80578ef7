/** The beacon URLs for the library, out of the beacon module's answer. */
module BeaconUrls {
  import opened Json
  import opened Csv
  import opened ProxyConfig

  /** Throws is what reading a field as the wrong type does in the JSON library. */
  datatype Refusal = Malformed | Reported(error: string) | ThroughProxy | NoProvider | BadProvider(problem: Problem) | Throws

  /** A boolean with a default for when it is absent; present with another type, it throws. */
  function FlagOr(o: Fields, key: Key, default: bool): Result<bool, Refusal> {
    if key !in o then Ok(default) else if o[key].JBool? then Ok(o[key].b) else Err(Throws)
  }

  function ReportedError(o: Fields): Refusal {
    if ErrorKey !in o then Malformed else if o[ErrorKey].JString? then Reported(o[ErrorKey].s) else Throws
  }

  /** A provider that counts: enabled, with an address. Anything that is not an object does not. */
  function EndpointOf(p: Json): Result<seq<string>, Refusal> {
    if !p.JObject? then Ok([])
    else
      var enabled :- FlagOr(p.fields, Enabled, false);
      if enabled && Endpoint in p.fields && p.fields[Endpoint].JString? then Ok([p.fields[Endpoint].s]) else Ok([])
  }

  function EndpointsOf(providers: seq<Json>): Result<seq<string>, Refusal> {
    if providers == [] then Ok([])
    else
      var first :- EndpointOf(providers[0]);
      var rest :- EndpointsOf(providers[1..]);
      Ok(first + rest)
  }

  /** What iterating over a JSON value visits: an array's elements, an object's values in the order
      of its keys, nothing for null, and any other value itself. */
  ghost predicate Iterates(providers: Json, items: seq<Json>) {
    match providers
    case JArray(elements) => items == elements
    case JObject(fields) =>
      exists keys: seq<Key> ::
        |keys| == |items| == |fields|
        && (forall key :: key in fields <==> key in keys)
        && (forall i :: 0 <= i < |keys| ==> keys[i] in fields && items[i] == fields[keys[i]])
    case JNull => items == []
    case _ => items == [providers]
  }

  /** The config the answer carries, or why there is none. */
  function ConfigOf(answer: Json): Result<Fields, Refusal> {
    if !answer.JObject? then Err(Malformed)
    else
      var o := answer.fields;
      var ok :- FlagOr(o, OkKey, false);
      if !ok || ConfigKey !in o || !o[ConfigKey].JObject? then Err(ReportedError(o)) else Ok(o[ConfigKey].fields)
  }

  function NeedsProxy(c: Fields): Result<bool, Refusal> {
    var required :- FlagOr(c, ProxyRequired, false);
    Ok(required || (ProxyKey in c && c[ProxyKey].JString? && c[ProxyKey].s != ""))
  }

  function ProvidersOf(c: Fields): Json {
    if Providers in c then c[Providers] else JArray([])
  }

  /** The list for the library, or the refusal, given the providers as they are visited. */
  function UrlsFrom(answer: Json, items: seq<Json>): Result<seq<string>, Refusal> {
    var c :- ConfigOf(answer);
    var proxied :- NeedsProxy(c);
    if proxied then Err(ThroughProxy)
    else
      var urls :- EndpointsOf(items);
      if urls == [] then Err(NoProvider)
      else match ValidateUrls(urls, Providers, true)
        case Ok(_) => Ok(urls)
        case Err(problem) => Err(BadProvider(problem))
  }

  /** Whatever the module answers, a list that comes back is non-empty, made of URLs the library can
      use, and survives the library's comma-separated form unchanged. */
  lemma ReturnedUrlsSurviveCsv(answer: Json, items: seq<Json>)
    requires UrlsFrom(answer, items).Ok?
    ensures var urls := UrlsFrom(answer, items).value;
            urls != [] && UrlsOk(urls) && Split(Join(urls)) == urls
  {
    var urls := UrlsFrom(answer, items).value;
    assert AllEntries(urls);
    SplitUndoesJoin(urls);
  }

  ghost predicate IsEnabledEndpoint(p: Json, url: string) {
    p.JObject? && Enabled in p.fields && p.fields[Enabled] == JBool(true)
    && Endpoint in p.fields && p.fields[Endpoint] == JString(url)
  }

  /** One provider contributes its address when it is enabled and has one, and nothing otherwise. */
  lemma OneProvider(p: Json)
    requires EndpointOf(p).Ok?
    ensures EndpointOf(p).value == [] <==> forall url :: !IsEnabledEndpoint(p, url)
    ensures forall url :: EndpointOf(p).value == [url] <==> IsEnabledEndpoint(p, url)
    ensures |EndpointOf(p).value| <= 1
  {
    if EndpointOf(p).value != [] {
      assert IsEnabledEndpoint(p, EndpointOf(p).value[0]);
    }
  }

  /** Lists of providers contribute one after the other, up to the first that throws: so the result is
      the addresses of the enabled providers, all of them, in the order they stand in. */
  lemma {:induction false} ProvidersInOrder(a: seq<Json>, b: seq<Json>)
    ensures EndpointsOf(a).Err? ==> EndpointsOf(a + b) == EndpointsOf(a)
    ensures EndpointsOf(a).Ok? && EndpointsOf(b).Ok? ==> EndpointsOf(a + b) == Ok(EndpointsOf(a).value + EndpointsOf(b).value)
    ensures EndpointsOf(a).Ok? && EndpointsOf(b).Err? ==> EndpointsOf(a + b) == EndpointsOf(b)
  {
    if a == [] {
      assert a + b == b;
      if EndpointsOf(b).Ok? {
        assert [] + EndpointsOf(b).value == EndpointsOf(b).value;
      }
    } else {
      assert (a + b)[0] == a[0] && (a + b)[1..] == a[1..] + b;
      ProvidersInOrder(a[1..], b);
      if EndpointsOf(a).Ok? && EndpointsOf(b).Ok? {
        var first, rest, more := EndpointOf(a[0]).value, EndpointsOf(a[1..]).value, EndpointsOf(b).value;
        assert (first + rest) + more == first + (rest + more);
      }
    }
  }

  // ---------------------------------------------------------------------------
  // The loop
  // ---------------------------------------------------------------------------

  lemma NextProvider(items: seq<Json>, i: nat)
    requires i < |items| && EndpointsOf(items[..i]).Ok? && EndpointOf(items[i]).Ok?
    ensures EndpointsOf(items[..i + 1]) == Ok(EndpointsOf(items[..i]).value + EndpointOf(items[i]).value)
  {
    assert items[..i + 1] == items[..i] + [items[i]];
    SingleProvider(items[i]);
    ProvidersInOrder(items[..i], [items[i]]);
  }

  lemma ThrowingProvider(items: seq<Json>, i: nat)
    requires i < |items| && EndpointsOf(items[..i]).Ok? && EndpointOf(items[i]).Err?
    ensures EndpointsOf(items) == Err(EndpointOf(items[i]).error)
  {
    assert items == items[..i] + items[i..] && items[i..][0] == items[i];
    ProvidersInOrder(items[..i], items[i..]);
  }

  lemma SingleProvider(p: Json)
    ensures EndpointsOf([p]) == EndpointOf(p)
  {
    assert [p][1..] == [] && EndpointsOf([]) == Ok([]);
    if EndpointOf(p).Ok? {
      assert EndpointOf(p).value + [] == EndpointOf(p).value;
    }
  }

  method CollectEndpoints(items: seq<Json>) returns (r: Result<seq<string>, Refusal>)
    ensures r == EndpointsOf(items)
  {
    var urls := [];
    for i := 0 to |items|
      invariant EndpointsOf(items[..i]) == Ok(urls)
    {
      if EndpointOf(items[i]).Ok? {
        NextProvider(items, i);
      } else {
        ThrowingProvider(items, i);
      }
      assert urls + [] == urls;
      var p := items[i];
      if p.JObject? {
        var enabled :- FlagOr(p.fields, Enabled, false);
        if enabled && Endpoint in p.fields && p.fields[Endpoint].JString? {
          urls := urls + [p.fields[Endpoint].s];
        }
      }
    }
    assert items[..|items|] == items;
    return Ok(urls);
  }

  method BeaconUrlsFromModule(answer: Json, items: seq<Json>) returns (r: Result<seq<string>, Refusal>)
    requires ConfigOf(answer).Ok? ==> Iterates(ProvidersOf(ConfigOf(answer).value), items)
    ensures r == UrlsFrom(answer, items)
    ensures r.Ok? ==> r.value != [] && UrlsOk(r.value) && Split(Join(r.value)) == r.value
  {
    var c :- ConfigOf(answer);
    var proxied :- NeedsProxy(c);
    if proxied {
      return Err(ThroughProxy);
    }
    var urls :- CollectEndpoints(items);
    if urls == [] {
      return Err(NoProvider);
    }
    var checked := CheckUrls(urls, Providers, true);
    if checked.Err? {
      return Err(BadProvider(checked.error));
    }
    ReturnedUrlsSurviveCsv(answer, items);
    return Ok(urls);
  }
}
