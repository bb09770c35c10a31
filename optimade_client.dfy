/**
 * The OPTIMADE client: the request URLs it builds for the federated
 * structure search (a fixed table of provider endpoints reached through a
 * CORS proxy, the API version prefix, pagination and the chemical-formula
 * filter of the OPTIMADE filter language), and the provider list it
 * returns. The HTTP call itself is left to the caller: a request is
 * modelled by the URL it fetches.
 */
module Optimade {
  import opened Wrappers
  import opened Text

  /** One entry of an OPTIMADE providers response (`data[i]`). */
  datatype Provider = Provider(id: string, name: string, baseUrl: Option<string>, homepage: Option<string>)

  /** An OPTIMADE providers response: `meta.api_version` and `data`. */
  datatype ProvidersResponse = ProvidersResponse(apiVersion: Option<string>, data: seq<Provider>)

  /** The structure endpoints the client knows, by provider id, in the
      order `Object.keys` lists them. */
  const StructureUrls: seq<(string, string)> := [
    ("cod", "https://www.crystallography.net/cod/optimade"),
    ("omdb", "http://optimade.openmaterialsdb.se/"),
    ("tcod", "https://www.crystallography.net/tcod/optimade"),
    ("oqmd", "http://oqmd.org/optimade"),
    ("odbx", "https://optimade.odbx.science")
  ]

  /** The endpoint of a provider id, if the table has one. */
  function StructureUrl(id: string): Option<string> {
    FindUrl(StructureUrls, id)
  }

  /** `table[id]` on the key order of `table`: the endpoint of the first
      entry with that id. */
  function FindUrl(table: seq<(string, string)>, id: string): (r: Option<string>)
    ensures r.Some? <==> exists i :: 0 <= i < |table| && table[i].0 == id
    ensures r.Some? ==> exists i :: 0 <= i < |table| && table[i] == (id, r.value)
                                    && forall j :: 0 <= j < i ==> table[j].0 != id
  {
    if |table| == 0 then None
    else if table[0].0 == id then Some(table[0].1)
    else
      var r := FindUrl(table[1..], id);
      assert forall i :: 1 <= i < |table| ==> table[1..][i - 1] == table[i];
      if r.Some? then
        var k :| 0 <= k < |table[1..]| && table[1..][k] == (id, r.value)
                 && forall j :: 0 <= j < k ==> table[1..][j].0 != id;
        assert table[k + 1] == (id, r.value);
        assert forall j :: 0 <= j < k + 1 ==> table[j].0 != id by {
          forall j | 0 <= j < k + 1 ensures table[j].0 != id {
            if j > 0 { assert table[j] == table[1..][j - 1]; }
          }
        }
        r
      else r
  }

  // -----------------------------------------------------------------------
  // URL helpers

  function TrimTrailingSlash(url: string): string {
    if |url| > 0 && url[|url| - 1] == '/' then url[..|url| - 1] else url
  }

  function TrimLeadingSlash(tail: string): string {
    if |tail| > 0 && tail[0] == '/' then tail[1..] else tail
  }

  /** `appendUrl(url, tail)`: `url` with at most one trailing `/` removed,
      then one `/`, then `tail` with at most one leading `/` removed. */
  function AppendUrl(url: string, tail: string): (r: string)
    ensures var k := |TrimTrailingSlash(url)|;
      && k < |r| && r[k] == '/'
      && url == (if |url| > 0 && url[|url| - 1] == '/' then r[..k] + "/" else r[..k])
      && tail == (if |tail| > 0 && tail[0] == '/' then "/" + r[k + 1..] else r[k + 1..])
  {
    var u := TrimTrailingSlash(url);
    var t := TrimLeadingSlash(tail);
    assert (u + "/" + t)[..|u|] == u && (u + "/" + t)[|u| + 1..] == t;
    u + "/" + t
  }

  /** One slash on either side of the junction makes no difference. */
  lemma AppendUrlSlashes(url: string, tail: string)
    requires |url| > 0 ==> url[|url| - 1] != '/'
    requires |tail| > 0 ==> tail[0] != '/'
    ensures AppendUrl(url, tail) == url + "/" + tail
    ensures AppendUrl(url + "/", tail) == url + "/" + tail
    ensures AppendUrl(url, "/" + tail) == url + "/" + tail
    ensures AppendUrl(url + "/", "/" + tail) == url + "/" + tail
  {
    assert (url + "/")[..|url|] == url;
    assert ("/" + tail)[1..] == tail;
  }

  /** Only one slash is removed on each side: doubled slashes survive. */
  lemma AppendUrlKeepsDoubledSlash()
    ensures AppendUrl("a//", "//b") == "a///b"
  {
    assert TrimTrailingSlash("a//") == "a/";
    assert TrimLeadingSlash("//b") == "/b";
  }

  /** `s` begins with `prefix`. */
  predicate StartsWith(s: string, prefix: string) {
    |prefix| <= |s| && s[..|prefix|] == prefix
  }

  /** `url.replace(/^https?:\/\//, '')`: the `https://` or `http://` at the
      start of a URL removed once; any other URL unchanged. */
  function StripScheme(url: string): (r: string)
    ensures StartsWith(url, "https://") ==> r == url[8..]
    ensures StartsWith(url, "http://") ==> r == url[7..]
    ensures !StartsWith(url, "http://") && !StartsWith(url, "https://") ==> r == url
  {
    if |url| >= 8 && url[..8] == "https://" then
      assert url[4] == url[..8][4] == 's';
      url[8..]
    else if |url| >= 7 && url[..7] == "http://" then url[7..]
    else url
  }

  const CorsProxy := "https://cors.optimade.org/"

  /** `addCorsProxy(url, proxy)`: the URL without its scheme, under the proxy. */
  function AddCorsProxy(url: string, proxy: string := CorsProxy): (r: string)
    ensures StartsWith(url, "https://") ==> r == AppendUrl(proxy, url[8..])
    ensures StartsWith(url, "http://") ==> r == AppendUrl(proxy, url[7..])
    ensures !StartsWith(url, "http://") && !StartsWith(url, "https://") ==> r == AppendUrl(proxy, url)
  {
    AppendUrl(proxy, StripScheme(url))
  }

  /** Either scheme is removed once, and nothing else. */
  lemma StripSchemes(host: string)
    ensures StripScheme("https://" + host) == host
    ensures StripScheme("http://" + host) == host
  {
    var secure, plain := "https://" + host, "http://" + host;
    assert secure[..8] == "https://" && secure[8..] == host;
    assert plain[..7] == "http://" && plain[7..] == host;
  }

  /** A host reached over `https` or over `http` goes through the proxy
      alike: the scheme makes no difference to the proxied URL. */
  lemma ProxyIgnoresScheme(host: string, proxy: string)
    ensures AddCorsProxy("https://" + host, proxy) == AddCorsProxy("http://" + host, proxy)
            == AppendUrl(proxy, host)
  {
    StripSchemes(host);
  }

  /** A URL of either scheme lands, without it, right after the proxy's own
      slash. */
  lemma ProxiedHost(host: string)
    requires |host| > 0 && host[0] != '/'
    ensures AddCorsProxy("https://" + host) == "https://cors.optimade.org/" + host
    ensures AddCorsProxy("http://" + host) == "https://cors.optimade.org/" + host
  {
    ProxyIgnoresScheme(host, CorsProxy);
    var proxy := "https://cors.optimade.org";
    assert CorsProxy == proxy + "/";
    AppendUrlSlashes(proxy, host);
  }

  /** The proxied endpoint of the Crystallography Open Database. */
  lemma CodThroughProxy()
    ensures AddCorsProxy("https://www.crystallography.net/cod/optimade")
            == "https://cors.optimade.org/www.crystallography.net/cod/optimade"
  {
    var host := "www.crystallography.net/cod/optimade";
    ProxiedHost(host);
    CodSchemeText();
    CodProxyText();
  }

  /** The base of a provider served over `https`: its host right after the
      proxy, then the version prefix, one slash at each junction. */
  lemma ProxiedBase(providerId: string, host: string, version: string)
    requires StructureUrl(providerId) == Some("https://" + host)
    requires |host| > 0 && host[0] != '/' && host[|host| - 1] != '/'
    requires |version| > 0 && version[0] != '/'
    ensures ProviderBase("/" + version, providerId) == "https://cors.optimade.org/" + host + "/" + version
  {
    ProxiedHost(host);
    var proxied := "https://cors.optimade.org/" + host;
    assert proxied[|proxied| - 1] == host[|host| - 1];
    AppendUrlSlashes(proxied, version);
  }

  /** The Crystallography Open Database is the first listed endpoint. */
  lemma CodEndpoint()
    ensures StructureUrl("cod") == Some("https://www.crystallography.net/cod/optimade")
  {}

  /** `getApiVersionPath(providers)`: empty without a (non-empty)
      `meta.api_version`, otherwise `/v` and the version's first character. */
  function GetApiVersionPath(providers: ProvidersResponse): (r: string)
    ensures r == "" <==> !Truthy(providers.apiVersion)
    ensures r != "" ==> |r| == 3 && r[..2] == "/v" && r[2] == providers.apiVersion.value[0]
  {
    if !Truthy(providers.apiVersion) then "" else "/v" + [providers.apiVersion.value[0]]
  }

  /** Only the first character of the version counts: every 1.x version
      gives `/v1`, and so would a version `10.0`. */
  lemma VersionPathMajorOnly(a: ProvidersResponse, b: ProvidersResponse)
    requires Truthy(a.apiVersion) && Truthy(b.apiVersion)
    requires a.apiVersion.value[0] == b.apiVersion.value[0]
    ensures GetApiVersionPath(a) == GetApiVersionPath(b)
  {
    var ra, rb := GetApiVersionPath(a), GetApiVersionPath(b);
    assert ra == ra[..2] + [ra[2]] && rb == rb[..2] + [rb[2]];
  }

  // -----------------------------------------------------------------------
  // providers

  /** The provider map `providersResponse2Map` builds: each id keyed to its
      provider, a later provider with the same id replacing an earlier one. */
  function ProvidersMap(data: seq<Provider>): map<string, Provider> {
    if |data| == 0 then map[]
    else ProvidersMap(data[..|data| - 1])[data[|data| - 1].id := data[|data| - 1]]
  }

  /** No provider after position `i` has the id of `data[i]`. */
  predicate LastOfItsId(data: seq<Provider>, i: int)
    requires 0 <= i < |data|
  {
    forall j :: i < j < |data| ==> data[j].id != data[i].id
  }

  /** The map's keys are exactly the ids of the providers. */
  lemma {:induction false} ProvidersMapKeys(data: seq<Provider>)
    ensures forall id :: id in ProvidersMap(data) <==> exists i :: 0 <= i < |data| && data[i].id == id
  {
    if |data| > 0 {
      var n := |data| - 1;
      var init := data[..n];
      ProvidersMapKeys(init);
      forall id | id in ProvidersMap(data)
        ensures exists i :: 0 <= i < |data| && data[i].id == id
      {
        if id != data[n].id {
          assert id in ProvidersMap(init);
          var i :| 0 <= i < n && init[i].id == id;
          assert data[i].id == id;
        }
      }
      forall id | exists i :: 0 <= i < |data| && data[i].id == id
        ensures id in ProvidersMap(data)
      {
        var i :| 0 <= i < |data| && data[i].id == id;
        if i < n { assert init[i].id == id; }
      }
    }
  }

  /** Each id holds the last provider that has it. */
  lemma {:induction false} ProvidersMapLastWins(data: seq<Provider>, i: int)
    requires 0 <= i < |data| && LastOfItsId(data, i)
    ensures data[i].id in ProvidersMap(data) && ProvidersMap(data)[data[i].id] == data[i]
  {
    var n := |data| - 1;
    if i < n {
      var init := data[..n];
      assert init[i] == data[i];
      assert LastOfItsId(init, i);
      ProvidersMapLastWins(init, i);
    }
  }

  /** `providersResponse2Map(providers)`: the fold that assigns each
      provider under its id into an accumulator. */
  method ProvidersResponse2Map(providers: ProvidersResponse) returns (m: map<string, Provider>)
    ensures m == ProvidersMap(providers.data)
  {
    var data := providers.data;
    m := map[];
    for i := 0 to |data|
      invariant m == ProvidersMap(data[..i])
    {
      assert data[..i + 1][..i] == data[..i];
      m := m[data[i].id := data[i]];
    }
    assert data[..|data|] == data;
  }

  /** The provider list a client lists for the known endpoints: one entry
      per endpoint key, in key order, `None` for a key no provider has. */
  function ListedProviders(providers: ProvidersResponse): (r: seq<Option<Provider>>)
    ensures |r| == |StructureUrls|
    ensures forall i :: 0 <= i < |r| ==>
              (r[i].Some? <==> StructureUrls[i].0 in ProvidersMap(providers.data))
    ensures forall i :: 0 <= i < |r| && r[i].Some? ==>
              r[i].value == ProvidersMap(providers.data)[StructureUrls[i].0]
  {
    var m := ProvidersMap(providers.data);
    seq(|StructureUrls|, i requires 0 <= i < |StructureUrls| =>
      if StructureUrls[i].0 in m then Some(m[StructureUrls[i].0]) else None)
  }

  // -----------------------------------------------------------------------
  // the formula filter

  /** A character of `[\sa-zA-Z0-9]`. */
  predicate IsFormulaChar(c: char) {
    IsJsWhitespace(c) || IsAsciiLetter(c) || IsDecimalDigit(c)
  }

  /** `formulaPattern.test(f)`: `f` matches `^[\sa-zA-Z0-9]+$`. */
  predicate FormulaAllowed(f: string) {
    |f| > 0 && forall i :: 0 <= i < |f| ==> IsFormulaChar(f[i])
  }

  const ExactFilterPrefix := "&filter=chemical_formula_descriptive%20=%20%22"
  const ContainsFilterPrefix := "&filter=chemical_formula_descriptive%20CONTAINS%20%22"
  const FilterSuffix := "%22"

  /** The `filter=` clause `getStructures` adds: none for a missing, empty
      or disallowed formula; otherwise the exact or the CONTAINS comparison
      with the formula between the encoded quotes, unchanged. */
  function FilterClause(formula: Option<string>, exact: bool): (clause: string)
    ensures clause != "" <==> Truthy(formula) && FormulaAllowed(formula.value)
    ensures clause != "" && exact ==> clause == ExactFilterPrefix + formula.value + FilterSuffix
    ensures clause != "" && !exact ==> clause == ContainsFilterPrefix + formula.value + FilterSuffix
  {
    if !Truthy(formula) then ""
    else if !FormulaAllowed(formula.value) then ""
    else if exact then ExactFilterPrefix + formula.value + FilterSuffix
    else ContainsFilterPrefix + formula.value + FilterSuffix
  }

  /** `NaCl` is accepted; a formula with `<script>` in it is not. */
  lemma FormulaExamples()
    ensures FormulaAllowed("NaCl")
    ensures !FormulaAllowed("<script>")
    ensures FilterClause(Some("NaCl"), false) == ContainsFilterPrefix + "NaCl" + FilterSuffix
    ensures FilterClause(Some("<script>"), true) == ""
  {
    assert !IsFormulaChar("<script>"[0]);
  }

  // -----------------------------------------------------------------------
  // requests

  /** What `getStructures` does: nothing without a provider id, otherwise
      one fetch of the URL. */
  datatype StructuresCall = NoProvider | Fetch(url: string)

  const ListFields := "last_modified,dimension_types,nsites,chemical_formula_descriptive"
  const ListSort := "attributes.chemical_formula_descriptive"
  const ViewFields := "dimension_types,lattice_vectors,cartesian_site_positions,species,species_at_sites"

  /** A known provider's endpoint under the proxy and the version prefix. */
  function ProviderBase(versionPath: string, providerId: string): string
    requires StructureUrl(providerId).Some?
  {
    AppendUrl(AddCorsProxy(StructureUrl(providerId).value), versionPath)
  }

  /** The list request of `getStructures`. */
  function StructuresRequest(versionPath: string, providerId: Option<string>, formula: Option<string>,
                             exact: bool, page: int, pageLimit: int): (r: StructuresCall)
    requires Truthy(providerId) ==> StructureUrl(providerId.value).Some?
    ensures r.NoProvider? <==> !Truthy(providerId)
  {
    if !Truthy(providerId) then NoProvider
    else
      Fetch(AppendUrl(ProviderBase(versionPath, providerId.value), "/structures")
            + "?page_number=" + IntToString(page) + "&page_limit=" + IntToString(pageLimit)
            + FilterClause(formula, exact)
            + "&sort=" + ListSort + "&response_fields=" + ListFields)
  }

  /** A formula that fails the pattern yields exactly the request made
      without any formula: it never reaches the URL. */
  lemma DisallowedFormulaIgnored(versionPath: string, providerId: Option<string>, formula: string,
                                 exact: bool, page: int, pageLimit: int)
    requires Truthy(providerId) ==> StructureUrl(providerId.value).Some?
    requires !FormulaAllowed(formula)
    ensures StructuresRequest(versionPath, providerId, Some(formula), exact, page, pageLimit)
         == StructuresRequest(versionPath, providerId, None, exact, page, pageLimit)
  {
  }

  // The request without a formula, spelled out for any provider and page.
  lemma UnfilteredRequest(versionPath: string, providerId: string, page: int, pageLimit: int)
    requires providerId != "" && StructureUrl(providerId).Some?
    ensures StructuresRequest(versionPath, Some(providerId), None, false, page, pageLimit)
         == Fetch(AppendUrl(ProviderBase(versionPath, providerId), "/structures")
                  + "?page_number=" + IntToString(page) + "&page_limit=" + IntToString(pageLimit)
                  + "&sort=" + ListSort + "&response_fields=" + ListFields)
  {
    NoFilterClause(AppendUrl(ProviderBase(versionPath, providerId), "/structures"), page, pageLimit);
  }

  // Without a formula the filter clause vanishes from the query.
  lemma NoFilterClause(base: string, page: int, pageLimit: int)
    ensures base + "?page_number=" + IntToString(page) + "&page_limit=" + IntToString(pageLimit)
                 + FilterClause(None, false) + "&sort=" + ListSort + "&response_fields=" + ListFields
         == base + "?page_number=" + IntToString(page) + "&page_limit=" + IntToString(pageLimit)
                 + "&sort=" + ListSort + "&response_fields=" + ListFields
  {
    assert FilterClause(None, false) == "";
    var pre := base + "?page_number=" + IntToString(page) + "&page_limit=" + IntToString(pageLimit);
    assert pre + "" == pre;
  }

  /** The single-structure request of `getStructureView`: none when either
      id is empty. */
  function StructureViewRequest(versionPath: string, providerId: string, structureId: string): (r: Option<string>)
    requires providerId != "" && structureId != "" ==> StructureUrl(providerId).Some?
    ensures r.None? <==> providerId == "" || structureId == ""
  {
    if providerId == "" || structureId == "" then None
    else Some(AppendUrl(ProviderBase(versionPath, providerId), "/structures/" + structureId)
              + "?response_fields=" + ViewFields)
  }

  // -----------------------------------------------------------------------
  // the request URLs for every known provider

  /** The host part of an endpoint as it appears under the proxy: the URL
      without its scheme and without one trailing slash. */
  function EndpointHost(url: string): string {
    TrimTrailingSlash(StripScheme(url))
  }

  /** An `http` or `https` endpoint whose host is non-empty, does not start
      with a slash and ends in at most one. */
  predicate PlainEndpoint(url: string) {
    && (StartsWith(url, "http://") || StartsWith(url, "https://"))
    && var h := EndpointHost(url);
       |h| > 0 && h[0] != '/' && h[|h| - 1] != '/'
  }

  /** A version prefix: empty, or a slash and a segment that neither starts
      nor ends with a slash. */
  predicate VersionSegment(v: string) {
    v == "" || (|v| >= 2 && v[0] == '/' && v[1] != '/' && v[|v| - 1] != '/')
  }

  /** Every version prefix `getApiVersionPath` derives is one, unless the
      version itself starts with a slash. */
  lemma VersionPathSegment(providers: ProvidersResponse)
    requires Truthy(providers.apiVersion) ==> providers.apiVersion.value[0] != '/'
    ensures VersionSegment(GetApiVersionPath(providers))
  {
  }

  /** `scheme + host` is a plain endpoint whose proxied host is `host`
      without one trailing slash. */
  lemma PlainEndpointOf(scheme: string, host: string)
    requires scheme == "http://" || scheme == "https://"
    requires |host| > 0 && host[0] != '/'
    requires var h := TrimTrailingSlash(host); |h| > 0 && h[|h| - 1] != '/'
    ensures PlainEndpoint(scheme + host)
    ensures EndpointHost(scheme + host) == TrimTrailingSlash(host)
  {
    StripSchemes(host);
    assert (scheme + host)[..|scheme|] == scheme;
    var h := TrimTrailingSlash(host);
    assert h[0] == host[0];
  }

  /** Each endpoint of the table is plain; `omdb`'s trailing slash is the
      only one dropped. */
  lemma KnownEndpointsPlain()
    ensures forall i :: 0 <= i < |StructureUrls| ==> PlainEndpoint(StructureUrls[i].1)
  {
    forall i | 0 <= i < |StructureUrls|
      ensures PlainEndpoint(StructureUrls[i].1)
    {
      if i == 0 { CodPlain(); }
      else if i == 1 { OmdbPlain(); }
      else if i == 2 { TcodPlain(); }
      else if i == 3 { OqmdPlain(); }
      else { OdbxPlain(); }
    }
  }

  lemma CodPlain()
    ensures PlainEndpoint(StructureUrls[0].1)
  {
    CodSchemeText();
    PlainEndpointOf("https://", "www.crystallography.net/cod/optimade");
  }

  lemma OmdbPlain()
    ensures PlainEndpoint(StructureUrls[1].1)
    ensures EndpointHost(StructureUrls[1].1) == "optimade.openmaterialsdb.se"
  {
    OmdbSchemeText();
    PlainEndpointOf("http://", "optimade.openmaterialsdb.se/");
  }

  lemma TcodPlain()
    ensures PlainEndpoint(StructureUrls[2].1)
  {
    TcodSchemeText();
    PlainEndpointOf("https://", "www.crystallography.net/tcod/optimade");
  }

  lemma OqmdPlain()
    ensures PlainEndpoint(StructureUrls[3].1)
  {
    OqmdSchemeText();
    PlainEndpointOf("http://", "oqmd.org/optimade");
  }

  lemma OdbxPlain()
    ensures PlainEndpoint(StructureUrls[4].1)
  {
    OdbxSchemeText();
    PlainEndpointOf("https://", "optimade.odbx.science");
  }

  lemma OmdbSchemeText()
    ensures "http://" + "optimade.openmaterialsdb.se/" == "http://optimade.openmaterialsdb.se/"
    ensures TrimTrailingSlash("optimade.openmaterialsdb.se/") == "optimade.openmaterialsdb.se"
  {}

  lemma TcodSchemeText()
    ensures "https://" + "www.crystallography.net/tcod/optimade" == "https://www.crystallography.net/tcod/optimade"
  {}

  lemma OqmdSchemeText()
    ensures "http://" + "oqmd.org/optimade" == "http://oqmd.org/optimade"
  {}

  lemma OdbxSchemeText()
    ensures "https://" + "optimade.odbx.science" == "https://optimade.odbx.science"
  {}

  /** A plain endpoint under the proxy, any version prefix and a path `/t`:
      proxy, host, version and path joined with single slashes. */
  lemma ProxiedPath(url: string, versionPath: string, t: string)
    requires PlainEndpoint(url) && VersionSegment(versionPath)
    requires |t| > 0 && t[0] != '/'
    ensures AppendUrl(AppendUrl(AddCorsProxy(url), versionPath), "/" + t)
         == CorsProxy + EndpointHost(url) + versionPath + "/" + t
  {
    var b := CorsProxy + EndpointHost(url);
    ProxiedEndpoint(url);
    VersionAndPath(b, versionPath, t);
  }

  // The proxied endpoint is the proxy and the host, perhaps with the
  // endpoint's trailing slash.
  lemma ProxiedEndpoint(url: string)
    requires PlainEndpoint(url)
    ensures var b := CorsProxy + EndpointHost(url);
            b[|b| - 1] != '/' && (AddCorsProxy(url) == b || AddCorsProxy(url) == b + "/")
  {
    var s := StripScheme(url);
    var h := EndpointHost(url);
    assert s[0] == h[0];
    CorsProxyEnds();
    UnderSlashedBase(CorsProxy, s);
    var b := CorsProxy + h;
    assert b[|b| - 1] == h[|h| - 1];
    if s != h {
      assert s == h + "/";
      assert CorsProxy + s == b + "/";
    }
  }

  lemma CorsProxyEnds()
    ensures |CorsProxy| >= 2 && CorsProxy[|CorsProxy| - 1] == '/' && CorsProxy[|CorsProxy| - 2] != '/'
  {}

  // A base ending in exactly one slash, then a tail that starts with none.
  lemma UnderSlashedBase(base: string, tail: string)
    requires |base| >= 2 && base[|base| - 1] == '/' && base[|base| - 2] != '/'
    requires |tail| > 0 && tail[0] != '/'
    ensures AppendUrl(base, tail) == base + tail
  {
    var u := base[..|base| - 1];
    assert base == u + "/";
    AppendUrlSlashes(u, tail);
  }

  // A base without a trailing slash (or with one), then a version segment,
  // then a path.
  lemma VersionAndPath(b: string, versionPath: string, t: string)
    requires |b| > 0 && b[|b| - 1] != '/' && VersionSegment(versionPath)
    requires |t| > 0 && t[0] != '/'
    ensures AppendUrl(AppendUrl(b, versionPath), "/" + t) == b + versionPath + "/" + t
    ensures AppendUrl(AppendUrl(b + "/", versionPath), "/" + t) == b + versionPath + "/" + t
  {
    if versionPath == "" {
      NoVersion(b, t);
    } else {
      Version(b, versionPath, t);
    }
  }

  lemma NoVersion(b: string, t: string)
    requires |b| > 0 && b[|b| - 1] != '/'
    requires |t| > 0 && t[0] != '/'
    ensures AppendUrl(AppendUrl(b, ""), "/" + t) == b + "" + "/" + t
    ensures AppendUrl(AppendUrl(b + "/", ""), "/" + t) == b + "" + "/" + t
  {
    AppendUrlSlashes(b, "");
    assert b + "/" + "" == b + "/";
    AppendUrlSlashes(b, t);
    assert b + "" == b;
  }

  lemma Version(b: string, versionPath: string, t: string)
    requires |b| > 0 && b[|b| - 1] != '/'
    requires |versionPath| >= 2 && versionPath[0] == '/' && versionPath[1] != '/'
    requires versionPath[|versionPath| - 1] != '/'
    requires |t| > 0 && t[0] != '/'
    ensures AppendUrl(AppendUrl(b, versionPath), "/" + t) == b + versionPath + "/" + t
    ensures AppendUrl(AppendUrl(b + "/", versionPath), "/" + t) == b + versionPath + "/" + t
  {
    VersionBase(b, versionPath);
    var c := b + versionPath;
    assert c[|c| - 1] == versionPath[|versionPath| - 1];
    AppendUrlSlashes(c, t);
  }

  lemma VersionBase(b: string, versionPath: string)
    requires |b| > 0 && b[|b| - 1] != '/'
    requires |versionPath| >= 2 && versionPath[0] == '/' && versionPath[1] != '/'
    requires versionPath[|versionPath| - 1] != '/'
    ensures AppendUrl(b, versionPath) == b + versionPath
    ensures AppendUrl(b + "/", versionPath) == b + versionPath
  {
    var w := versionPath[1..];
    assert versionPath == "/" + w;
    AppendUrlSlashes(b, w);
    Assoc(b, "/", w);
  }

  /** Every known provider has a non-empty id and a plain endpoint. */
  lemma KnownEndpointPlain(providerId: string)
    requires StructureUrl(providerId).Some?
    ensures providerId != "" && PlainEndpoint(StructureUrl(providerId).value)
  {
    KnownEndpointsPlain();
    KnownIdsNonEmpty();
    FoundEntry(StructureUrls, providerId);
  }

  lemma KnownIdsNonEmpty()
    ensures forall i :: 0 <= i < |StructureUrls| ==> StructureUrls[i].0 != ""
  {}

  // What holds of every entry of a table holds of the entry found.
  lemma FoundEntry(table: seq<(string, string)>, id: string)
    requires FindUrl(table, id).Some?
    requires forall i :: 0 <= i < |table| ==> table[i].0 != "" && PlainEndpoint(table[i].1)
    ensures id != "" && PlainEndpoint(FindUrl(table, id).value)
  {
    var i :| 0 <= i < |table| && table[i] == (id, FindUrl(table, id).value)
             && forall j :: 0 <= j < i ==> table[j].0 != id;
    assert table[i].0 != "" && PlainEndpoint(table[i].1);
  }

  /** The list request for every known provider: the proxied host, the
      version, `/structures`, the page and its size, the filter clause if
      any, then the sort and the fields. */
  lemma StructuresUrl(versionPath: string, providerId: string, formula: Option<string>,
                      exact: bool, page: int, pageLimit: int)
    requires StructureUrl(providerId).Some?
    requires VersionSegment(versionPath)
    ensures StructuresRequest(versionPath, Some(providerId), formula, exact, page, pageLimit)
         == Fetch(CorsProxy + EndpointHost(StructureUrl(providerId).value) + versionPath + "/structures"
                  + "?page_number=" + IntToString(page) + "&page_limit=" + IntToString(pageLimit)
                  + FilterClause(formula, exact) + "&sort=" + ListSort + "&response_fields=" + ListFields)
  {
    KnownEndpointPlain(providerId);
    StructuresPathText();
    ProviderStructuresPath(versionPath, providerId, "structures", "/structures");
    ListRequestOf(versionPath, providerId, formula, exact, page, pageLimit,
                  AppendUrl(ProviderBase(versionPath, providerId), "/structures"));
  }

  // The list request is its path followed by the query.
  lemma ListRequestOf(versionPath: string, providerId: string, formula: Option<string>,
                      exact: bool, page: int, pageLimit: int, path: string)
    requires providerId != "" && StructureUrl(providerId).Some?
    requires path == AppendUrl(ProviderBase(versionPath, providerId), "/structures")
    ensures StructuresRequest(versionPath, Some(providerId), formula, exact, page, pageLimit)
         == Fetch(path + "?page_number=" + IntToString(page) + "&page_limit=" + IntToString(pageLimit)
                  + FilterClause(formula, exact) + "&sort=" + ListSort + "&response_fields=" + ListFields)
  {
  }

  /** The single-structure request for every known provider: the proxied
      host, the version, `/structures/` and the id, then the fields. */
  lemma StructureViewUrl(versionPath: string, providerId: string, structureId: string)
    requires StructureUrl(providerId).Some? && structureId != ""
    requires VersionSegment(versionPath)
    ensures StructureViewRequest(versionPath, providerId, structureId)
         == Some(CorsProxy + EndpointHost(StructureUrl(providerId).value) + versionPath + "/structures/"
                 + structureId + "?response_fields=" + ViewFields)
  {
    KnownEndpointPlain(providerId);
    ViewPath(structureId);
    ProviderStructuresPath(versionPath, providerId, "structures/" + structureId, "/structures/" + structureId);
    var head := CorsProxy + EndpointHost(StructureUrl(providerId).value) + versionPath;
    Assoc(head, "/structures/", structureId);
  }

  lemma StructuresPathText()
    ensures "/structures" == "/" + "structures"
  {}

  // A known provider's base followed by the path `slashT`, which is `/t`.
  lemma ProviderStructuresPath(versionPath: string, providerId: string, t: string, slashT: string)
    requires StructureUrl(providerId).Some? && PlainEndpoint(StructureUrl(providerId).value)
    requires VersionSegment(versionPath)
    requires |t| > 0 && t[0] != '/' && slashT == "/" + t
    ensures AppendUrl(ProviderBase(versionPath, providerId), slashT)
         == CorsProxy + EndpointHost(StructureUrl(providerId).value) + versionPath + slashT
  {
    var url := StructureUrl(providerId).value;
    assert ProviderBase(versionPath, providerId) == AppendUrl(AddCorsProxy(url), versionPath);
    ProxiedPath(url, versionPath, t);
    Assoc(CorsProxy + EndpointHost(url) + versionPath, "/", t);
  }

  lemma Assoc(a: string, b: string, c: string)
    ensures a + b + c == a + (b + c)
  {}

  // `/structures/` and an id is `/`, then `structures/` and the id.
  lemma ViewPath(structureId: string)
    ensures "/structures/" + structureId == "/" + ("structures/" + structureId)
  {
    assert "/structures/" == "/" + "structures/";
  }

  /** The Open Materials Database, served over `http` with a trailing
      slash, is asked for under the proxy with neither. */
  lemma OmdbListRequest(formula: Option<string>, exact: bool, page: int)
    ensures StructuresRequest("/v1", Some("omdb"), formula, exact, page, 10)
         == Fetch(CorsProxy + "optimade.openmaterialsdb.se" + "/v1" + "/structures"
                  + "?page_number=" + IntToString(page) + "&page_limit=" + IntToString(10)
                  + FilterClause(formula, exact) + "&sort=" + ListSort + "&response_fields=" + ListFields)
  {
    OmdbEndpoint();
    OmdbPlain();
    assert VersionSegment("/v1");
    StructuresUrl("/v1", "omdb", formula, exact, page, 10);
  }

  lemma OmdbEndpoint()
    ensures StructureUrl("omdb") == Some(StructureUrls[1].1)
  {
    assert StructureUrls[0].0 != "omdb";
  }

  /** A client for the OPTIMADE providers: the providers response it was
      given (the built-in one by default) and the version prefix derived
      from it. */
  class OptimadeClient {
    var providers: ProvidersResponse
    var versionPath: string

    constructor (given: Option<ProvidersResponse>)
      ensures providers == given.GetOr(DefaultProviders)
      ensures versionPath == GetApiVersionPath(providers)
    {
      var chosen := DefaultProviders;
      if given.Some? {
        chosen := given.value;
      }
      providers := chosen;
      versionPath := GetApiVersionPath(chosen);
    }

    /** `getStructureProviders()`. */
    method GetStructureProviders() returns (r: seq<Option<Provider>>)
      ensures r == ListedProviders(providers)
    {
      var m := ProvidersResponse2Map(providers);
      r := [];
      for i := 0 to |StructureUrls|
        invariant |r| == i
        invariant forall k :: 0 <= k < i ==> r[k] == ListedProviders(providers)[k]
      {
        var id := StructureUrls[i].0;
        r := r + [if id in m then Some(m[id]) else None];
      }
    }

    /** `getStructures(providerId, filterFormula, exactFilter, page, pageLimit)`. */
    method GetStructures(providerId: Option<string>, filterFormula: Option<string> := None,
                         exactFilter: bool := false, page: int := 1, pageLimit: int := 10)
      returns (r: StructuresCall)
      requires Truthy(providerId) ==> StructureUrl(providerId.value).Some?
      ensures r == StructuresRequest(versionPath, providerId, filterFormula, exactFilter, page, pageLimit)
    {
      if !Truthy(providerId) {
        return NoProvider;
      }
      var urlBase := AddCorsProxy(StructureUrl(providerId.value).value);
      var urlFull := AppendUrl(AppendUrl(urlBase, versionPath), "/structures");
      var filter := "";
      if !Truthy(filterFormula) {
      } else if !FormulaAllowed(filterFormula.value) {
        // the disallowed formula is only logged
      } else if exactFilter {
        filter := ExactFilterPrefix + filterFormula.value + FilterSuffix;
      } else {
        filter := ContainsFilterPrefix + filterFormula.value + FilterSuffix;
      }
      r := Fetch(urlFull + "?page_number=" + IntToString(page) + "&page_limit=" + IntToString(pageLimit)
                 + filter + "&sort=" + ListSort + "&response_fields=" + ListFields);
    }

    /** `getStructureView(providerId, structureId)`. */
    method GetStructureView(providerId: string, structureId: string) returns (r: Option<string>)
      requires providerId != "" && structureId != "" ==> StructureUrl(providerId).Some?
      ensures r == StructureViewRequest(versionPath, providerId, structureId)
    {
      if providerId == "" || structureId == "" {
        return None;
      }
      var urlBase := AddCorsProxy(StructureUrl(providerId).value);
      var urlFull := AppendUrl(AppendUrl(urlBase, versionPath), "/structures/" + structureId);
      r := Some(urlFull + "?response_fields=" + ViewFields);
    }
  }

  // -----------------------------------------------------------------------
  // the requests for the Crystallography Open Database

  // Literal string equalities, one per lemma: each is cheap for the solver
  // on its own and costly next to other facts.
  lemma CodSchemeText()
    ensures "https://" + "www.crystallography.net/cod/optimade" == "https://www.crystallography.net/cod/optimade"
  {}

  lemma CodProxyText()
    ensures "https://cors.optimade.org/" + "www.crystallography.net/cod/optimade"
            == "https://cors.optimade.org/www.crystallography.net/cod/optimade"
  {}

  lemma CodVersionText()
    ensures "https://cors.optimade.org/" + "www.crystallography.net/cod/optimade" + "/" + "v1"
            == "https://cors.optimade.org/www.crystallography.net/cod/optimade/v1"
  {}

  lemma CodStructuresText()
    ensures "https://cors.optimade.org/www.crystallography.net/cod/optimade/v1" + "/" + "structures"
            == "https://cors.optimade.org/www.crystallography.net/cod/optimade/v1/structures"
  {}

  lemma CodViewText()
    ensures "https://cors.optimade.org/www.crystallography.net/cod/optimade/v1" + "/" + "structures/myid"
            == "https://cors.optimade.org/www.crystallography.net/cod/optimade/v1/structures/myid"
  {}

  lemma ViewPathText()
    ensures "/structures/" + "myid" == "/" + "structures/myid"
  {}

  lemma PageText()
    ensures IntToString(1) == "1" && IntToString(10) == "10"
  {}

  /** The COD endpoint under the proxy and the `/v1` prefix. */
  lemma CodProviderBase()
    ensures ProviderBase("/v1", "cod") == "https://cors.optimade.org/www.crystallography.net/cod/optimade/v1"
  {
    CodEndpoint();
    CodSchemeText();
    ProxiedBase("cod", "www.crystallography.net/cod/optimade", "v1");
    CodVersionText();
  }

  /** The first page of COD structures with the default page size and no
      formula: the URL the client's tests expect. */
  lemma CodListRequest()
    ensures StructuresRequest("/v1", Some("cod"), None, false, 1, 10)
         == Fetch("https://cors.optimade.org/www.crystallography.net/cod/optimade/v1/structures"
                  + "?page_number=" + "1" + "&page_limit=" + "10"
                  + "&sort=" + "attributes.chemical_formula_descriptive"
                  + "&response_fields=" + "last_modified,dimension_types,nsites,chemical_formula_descriptive")
  {
    UnfilteredRequest("/v1", "cod", 1, 10);
    PageText();
    CodProviderBase();
    AppendUrlSlashes("https://cors.optimade.org/www.crystallography.net/cod/optimade/v1", "structures");
    CodStructuresText();
  }

  /** The COD structure `myid`: the URL the client's tests expect. */
  lemma CodViewRequest()
    ensures StructureViewRequest("/v1", "cod", "myid")
         == Some("https://cors.optimade.org/www.crystallography.net/cod/optimade/v1/structures/myid"
                 + "?response_fields=" + "dimension_types,lattice_vectors,cartesian_site_positions,species,species_at_sites")
  {
    var base := "https://cors.optimade.org/www.crystallography.net/cod/optimade/v1";
    CodProviderBase();
    ViewPathText();
    AppendUrlSlashes(base, "structures/myid");
    CodViewText();
    ViewRequestOf("/v1", "cod", "myid", base + "/" + "structures/myid");
  }

  // The structure request is its path followed by the fields.
  lemma ViewRequestOf(versionPath: string, providerId: string, structureId: string, path: string)
    requires providerId != "" && structureId != "" && StructureUrl(providerId).Some?
    requires path == AppendUrl(ProviderBase(versionPath, providerId), "/structures/" + structureId)
    ensures StructureViewRequest(versionPath, providerId, structureId) == Some(path + "?response_fields=" + ViewFields)
  {
  }

  /** The default client asks for `/v1` URLs, as the client's tests show
      for COD. */
  method DefaultClientCodRequests() returns (list: StructuresCall, view: Option<string>)
    ensures list == Fetch("https://cors.optimade.org/www.crystallography.net/cod/optimade/v1/structures"
                          + "?page_number=" + "1" + "&page_limit=" + "10"
                          + "&sort=" + "attributes.chemical_formula_descriptive"
                          + "&response_fields=" + "last_modified,dimension_types,nsites,chemical_formula_descriptive")
    ensures view == Some("https://cors.optimade.org/www.crystallography.net/cod/optimade/v1/structures/myid"
                         + "?response_fields=" + "dimension_types,lattice_vectors,cartesian_site_positions,species,species_at_sites")
  {
    var client := new OptimadeClient(None);
    DefaultVersionPath();
    assert StructureUrl("cod").Some?;
    list := client.GetStructures(Some("cod"));
    view := client.GetStructureView("cod", "myid");
    CodListRequest();
    CodViewRequest();
  }

  // -----------------------------------------------------------------------
  // the built-in providers response

  const DefaultProviders := ProvidersResponse(Some("1.0.0"), [
    Provider("aiida", "AiiDA", None, Some("http://www.aiida.net")),
    Provider("aflow", "AFLOW", Some("https://providers.optimade.org/index-metadbs/aflow"), Some("http://aflow.org")),
    Provider("cod", "Crystallography Open Database", Some("http://providers.optimade.org/index-metadbs/cod"), Some("https://www.crystallography.net/cod")),
    Provider("exmpl", "Example provider", Some("http://providers.optimade.org/index-metadbs/exmpl"), Some("https://example.com")),
    Provider("httk", "The High-Throughput Toolkit", None, None),
    Provider("matcloud", "MatCloud", Some("https://providers.optimade.org/index-metadbs/matcloud"), Some("http://matcloud.cnic.cn")),
    Provider("mcloud", "Materials Cloud", Some("https://www.materialscloud.org/optimade"), Some("https://www.materialscloud.org")),
    Provider("mp", "The Materials Project", Some("http://providers.optimade.org/index-metadbs/mp"), Some("https://www.materialsproject.org")),
    Provider("mpds", "Materials Platform for Data Science", Some("https://providers.optimade.org/index-metadbs/mpds"), Some("https://mpds.io")),
    Provider("nmd", "novel materials discovery (NOMAD)", Some("https://nomad-lab.eu/prod/rae/optimade/index"), Some("https://nomad-lab.eu")),
    Provider("odbx", "open database of xtals", Some("https://optimade-index.odbx.science"), Some("https://odbx.science")),
    Provider("omdb", "Open Materials Database", Some("https://optimade-index.openmaterialsdb.se"), Some("http://openmaterialsdb.se")),
    Provider("optimade", "OPTIMADE implementations and libraries", None, Some("https://www.optimade.org")),
    Provider("oqmd", "The Open Quantum Materials Database (OQMD)", Some("http://providers.optimade.org/index-metadbs/oqmd"), Some("http://oqmd.org")),
    Provider("jarvis", "Joint Automated Repository for Various Integrated Simulations (JARVIS)", None, Some("https://jarvis.nist.gov")),
    Provider("pcod", "Predicted Crystallography Open Database", None, None),
    Provider("tcod", "Theoretical Crystallography Open Database", Some("http://providers.optimade.org/index-metadbs/tcod"), Some("https://www.crystallography.net/tcod"))
  ])

  /** The built-in response is version 1.0.0, so requests go under `/v1`. */
  lemma DefaultVersionPath()
    ensures GetApiVersionPath(DefaultProviders) == "/v1"
  {
  }
}
