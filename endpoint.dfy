/** CreatePuppeteer's construction of the browserless.io WebSocket endpoint. The
    Dictionary<string, string> of connection parameters is a sequence of (key, value)
    entries with distinct keys in enumeration order; a null value is None. The
    connection itself (Puppeteer.ConnectAsync) is not modelled. */
module Browserless {
  import opened Base
  import opened Text

  const EndpointPrefix: string := "wss://chrome-eu-uk.browserless.io?"
  const TokenKey: string := "token"
  const EmptyApiKeyMessage: string := "Apikey cannot be empty"

  type Entry = (string, Option<string>)

  /** What a Dictionary guarantees: no key twice. */
  predicate UniqueKeys(ps: seq<Entry>)
  {
    forall i, j :: 0 <= i < j < |ps| ==> ps[i].0 != ps[j].0
  }

  predicate HasKey(ps: seq<Entry>, key: string)
  {
    exists i :: 0 <= i < |ps| && ps[i].0 == key
  }

  /** `dict[key] = value`: an existing entry is overwritten in place, otherwise the
      entry is added at the end. */
  function Set(ps: seq<Entry>, key: string, value: Option<string>): (r: seq<Entry>)
    requires UniqueKeys(ps)
    ensures UniqueKeys(r)
    ensures HasKey(ps, key) ==> |r| == |ps|
    ensures !HasKey(ps, key) ==> |r| == |ps| + 1 && r[|ps|] == (key, value)
    ensures forall i :: 0 <= i < |ps| ==> r[i] == if ps[i].0 == key then (key, value) else ps[i]
  {
    if ps == [] then [(key, value)]
    else if ps[0].0 == key then [(key, value)] + ps[1..]
    else [ps[0]] + Set(ps[1..], key, value)
  }

  /** One entry of the query string: `key=value`, or the bare key for a null value. */
  function Render(e: Entry): string
  {
    if e.1.Some? then e.0 + "=" + e.1.value else e.0
  }

  function RenderAll(ps: seq<Entry>): (r: seq<string>)
    ensures |r| == |ps| && forall i :: 0 <= i < |ps| ==> r[i] == Render(ps[i])
  {
    if ps == [] then [] else [Render(ps[0])] + RenderAll(ps[1..])
  }

  /** PuppeteerSharp's ConnectOptions as CreatePuppeteer fills them. */
  datatype ConnectOptions = ConnectOptions(ignoreHttpsErrors: bool, browserWsEndpoint: string)

  /** The parameters CreatePuppeteer connects with: the caller's (none for null) with
      token set to the key. */
  function ConnectionParams(apiKey: string, ps: Option<seq<Entry>>): seq<Entry>
    requires ps.Some? ==> UniqueKeys(ps.value)
  {
    Set(if ps.Some? then ps.value else [], TokenKey, Some(apiKey))
  }

  /** CreatePuppeteer(apiKey, connStringParams) up to the call of ConnectAsync. */
  function CreatePuppeteer(apiKey: Option<string>, ps: Option<seq<Entry>>): (r: Result<ConnectOptions, Exception>)
    requires ps.Some? ==> UniqueKeys(ps.value)
    ensures r.Err? <==> apiKey.None? || apiKey.value == ""
    ensures r.Err? ==> r.error == Exception(SystemException, EmptyApiKeyMessage, None)
    ensures r.Ok? ==> r.value.ignoreHttpsErrors
    ensures r.Ok? ==> EndpointPrefix <= r.value.browserWsEndpoint
  {
    if apiKey.None? || apiKey.value == "" then
      Err(Exception(SystemException, EmptyApiKeyMessage, None))
    else
      var query := Join("&", RenderAll(ConnectionParams(apiKey.value, ps)));
      Ok(ConnectOptions(true, EndpointPrefix + query))
  }

  /** The connection parameters hold token = the key exactly once, whatever token the
      caller passed, and every other caller entry unchanged and in its place. */
  lemma TokenOverridesCaller(apiKey: string, ps: seq<Entry>)
    requires UniqueKeys(ps)
    ensures var c := ConnectionParams(apiKey, Some(ps));
      && (exists i :: 0 <= i < |c| && c[i] == (TokenKey, Some(apiKey)))
      && (forall i :: 0 <= i < |c| && c[i].0 == TokenKey ==> c[i].1 == Some(apiKey))
      && (forall i :: 0 <= i < |ps| && ps[i].0 != TokenKey ==> c[i] == ps[i])
  {
    var c := ConnectionParams(apiKey, Some(ps));
    if HasKey(ps, TokenKey) {
      var i :| 0 <= i < |ps| && ps[i].0 == TokenKey;
      assert c[i] == (TokenKey, Some(apiKey));
    } else {
      assert c[|ps|] == (TokenKey, Some(apiKey));
    }
  }

  /** A null parameter map connects exactly like an empty one, with the token alone. */
  lemma NullParamsAreEmpty(apiKey: string)
    requires apiKey != ""
    ensures CreatePuppeteer(Some(apiKey), None) == CreatePuppeteer(Some(apiKey), Some([]))
    ensures CreatePuppeteer(Some(apiKey), None) == Ok(ConnectOptions(true, EndpointPrefix + "token=" + apiKey))
  {
    var c := ConnectionParams(apiKey, None);
    assert c == [(TokenKey, Some(apiKey))];
    assert TokenKey + "=" + apiKey == "token=" + apiKey;
    assert RenderAll(c) == ["token=" + apiKey];
    assert Join("&", RenderAll(c)) == "token=" + apiKey;
    assert EndpointPrefix + ("token=" + apiKey) == EndpointPrefix + "token=" + apiKey;
  }

  /** Neither the key nor the value of the entry contains '&'. */
  predicate AmpFree(e: Entry)
  {
    '&' !in e.0 && (e.1.Some? ==> '&' !in e.1.value)
  }

  lemma RenderedPiecesAmpFree(c: seq<Entry>)
    requires forall i :: 0 <= i < |c| ==> AmpFree(c[i])
    ensures forall i :: 0 <= i < |RenderAll(c)| ==> '&' !in RenderAll(c)[i]
  {
    forall i | 0 <= i < |c| ensures '&' !in RenderAll(c)[i] {
      assert RenderAll(c)[i] == Render(c[i]);
    }
  }

  /** The connection parameters carry no '&' when neither the key nor the caller's
      entries do. */
  lemma ConnectionParamsAmpFree(apiKey: string, ps: Option<seq<Entry>>)
    requires '&' !in apiKey
    requires ps.Some? ==> UniqueKeys(ps.value)
    requires ps.Some? ==> forall i :: 0 <= i < |ps.value| ==> AmpFree(ps.value[i])
    ensures var c := ConnectionParams(apiKey, ps); forall i :: 0 <= i < |c| ==> AmpFree(c[i])
  {
    var base := if ps.Some? then ps.value else [];
    var c := ConnectionParams(apiKey, ps);
    assert AmpFree((TokenKey, Some(apiKey)));
    forall i | 0 <= i < |c| ensures AmpFree(c[i]) {
      if i < |base| && base[i].0 != TokenKey {
        assert c[i] == base[i];
      }
    }
  }

  /** When neither the key nor any parameter contains '&', the query string after the
      '?' splits back into the rendered entries, one per parameter, token included. */
  lemma QuerySplitsIntoEntries(apiKey: string, ps: Option<seq<Entry>>)
    requires apiKey != "" && '&' !in apiKey
    requires ps.Some? ==> UniqueKeys(ps.value)
    requires ps.Some? ==> forall i :: 0 <= i < |ps.value| ==> AmpFree(ps.value[i])
    ensures var c := ConnectionParams(apiKey, ps);
      var url := CreatePuppeteer(Some(apiKey), ps).value.browserWsEndpoint;
      && Split(url[|EndpointPrefix|..], '&') == RenderAll(c)
      && "token=" + apiKey in Split(url[|EndpointPrefix|..], '&')
  {
    var c := ConnectionParams(apiKey, ps);
    var parts := RenderAll(c);
    ConnectionParamsAmpFree(apiKey, ps);
    RenderedPiecesAmpFree(c);
    TokenRendered(apiKey, ps);
    var url := EndpointPrefix + Join("&", parts);
    assert url[|EndpointPrefix|..] == Join("&", parts);
    SplitJoin(parts, '&');
  }

  /** The rendered parameters include `token=` followed by the key. */
  lemma TokenRendered(apiKey: string, ps: Option<seq<Entry>>)
    requires ps.Some? ==> UniqueKeys(ps.value)
    ensures "token=" + apiKey in RenderAll(ConnectionParams(apiKey, ps))
  {
    var c := ConnectionParams(apiKey, ps);
    TokenOverridesCaller(apiKey, if ps.Some? then ps.value else []);
    var k :| 0 <= k < |c| && c[k] == (TokenKey, Some(apiKey));
    assert TokenKey + "=" + apiKey == "token=" + apiKey;
    assert RenderAll(c)[k] == "token=" + apiKey;
  }
}
