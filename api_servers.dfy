/**
 * The IGDB provider's API-server setting: the official server list fetched
 * under a timeout, its merge with the user's custom servers and the current
 * selection (deduplicated by url, first occurrence wins), the dropdown
 * options built from the merge, and the click handlers that add and remove
 * custom servers.
 */
module ApiServers {
  import opened Wrappers

  /** How long the fetch of the official list may take before it is abandoned. */
  const OfficialApiServerTimeoutMs: nat := 5000

  /**
   * A server entry `{name, url}`. The component compares entries by
   * reference (`===`, `!==`), so an entry is an object; two entries with
   * the same name and url are still two entries.
   */
  class ApiServer {
    const name: string
    const url: string

    constructor (name: string, url: string)
      ensures this.name == name && this.url == url
    {
      this.name := name;
      this.url := url;
    }
  }

  /** One entry of the dropdown: its `label` text and the server it selects (`data`). */
  datatype DropdownOption = DropdownOption(text: string, data: ApiServer)

  // ---------------------------------------------------------------------
  // Fetching the official list

  /** What `response.json()` makes of the body of the response. */
  datatype JsonBody =
    | JsonRecord(entries: seq<(string, string)>)  // name -> url pairs, in the order `Object.entries` lists them
    | NotJson

  /** How the network fetch of the official list settles, if it ever does. */
  datatype FetchBehaviour =
    | Resolves(atMs: nat, body: JsonBody)
    | Rejects(atMs: nat)
    | Hangs

  /** Why no official list was obtained. */
  datatype FetchError = TimedOut | NetworkError | ParseError

  /**
   * `Promise.race` of the fetch against a timer that rejects after
   * `timeoutMs`: a fetch that settles strictly before the timer decides the
   * race, otherwise the race rejects with a timeout.
   */
  function RaceAgainstTimeout(fetch: FetchBehaviour, timeoutMs: nat): (r: Result<JsonBody, FetchError>)
    ensures r.Success? <==> fetch.Resolves? && fetch.atMs < timeoutMs
    ensures r.Success? ==> r.value == fetch.body
    ensures r == Failure(NetworkError) <==> fetch.Rejects? && fetch.atMs < timeoutMs
    ensures r == Failure(TimedOut) <==> fetch.Hangs? || timeoutMs <= fetch.atMs
  {
    match fetch
    case Resolves(t, body) => if t < timeoutMs then Success(body) else Failure(TimedOut)
    case Rejects(t) => if t < timeoutMs then Failure(NetworkError) else Failure(TimedOut)
    case Hangs => Failure(TimedOut)
  }

  /** The name -> url entries of the official list, or why there are none. */
  function OfficialEntries(fetch: FetchBehaviour): (r: Result<seq<(string, string)>, FetchError>)
    ensures r.Success? <==>
              fetch.Resolves? && fetch.atMs < OfficialApiServerTimeoutMs && fetch.body.JsonRecord?
    ensures r.Success? ==> r.value == fetch.body.entries
    ensures r == Failure(ParseError) <==>
              fetch.Resolves? && fetch.atMs < OfficialApiServerTimeoutMs && fetch.body.NotJson?
  {
    match RaceAgainstTimeout(fetch, OfficialApiServerTimeoutMs)
    case Failure(e) => Failure(e)
    case Success(body) => if body.JsonRecord? then Success(body.entries) else Failure(ParseError)
  }

  /** `Object.entries(servers).map(([name, url]) => ({name, url}))`: one new entry per pair, in order. */
  method ParseApiServers(entries: seq<(string, string)>) returns (servers: seq<ApiServer>)
    ensures |servers| == |entries|
    ensures forall i :: 0 <= i < |entries| ==>
              servers[i].name == entries[i].0 && servers[i].url == entries[i].1
    ensures forall i :: 0 <= i < |servers| ==> fresh(servers[i])
  {
    servers := [];
    for i := 0 to |entries|
      invariant |servers| == i
      invariant forall k :: 0 <= k < i ==>
                  servers[k].name == entries[k].0 && servers[k].url == entries[k].1 && fresh(servers[k])
    {
      var server := new ApiServer(entries[i].0, entries[i].1);
      servers := servers + [server];
    }
  }

  /** The official list: fetched under the timeout and parsed, or the error that stopped it. */
  method GetOfficialApiServers(fetch: FetchBehaviour) returns (r: Result<seq<ApiServer>, FetchError>)
    ensures r.Success? <==> OfficialEntries(fetch).Success?
    ensures r.Failure? ==> r.error == OfficialEntries(fetch).error
    ensures r.Success? ==>
              var entries := OfficialEntries(fetch).value;
              && |r.value| == |entries|
              && (forall i :: 0 <= i < |entries| ==>
                    r.value[i].name == entries[i].0 && r.value[i].url == entries[i].1)
              && (forall i :: 0 <= i < |r.value| ==> fresh(r.value[i]))
  {
    var entries := OfficialEntries(fetch);
    if entries.Failure? {
      return Failure(entries.error);
    }
    var servers := ParseApiServers(entries.value);
    r := Success(servers);
  }

  // ---------------------------------------------------------------------
  // Merging official, custom and current servers

  /** `arr.findIndex((candidate) => candidate.url === url)`: the first position holding `url`, or -1. */
  function FindIndexByUrl(arr: seq<ApiServer>, url: string): (r: int)
    ensures -1 <= r < |arr|
    ensures r == -1 <==> forall j :: 0 <= j < |arr| ==> arr[j].url != url
    ensures 0 <= r ==> arr[r].url == url && forall j :: 0 <= j < r ==> arr[j].url != url
  {
    if |arr| == 0 then -1
    else if arr[0].url == url then 0
    else
      var k := FindIndexByUrl(arr[1..], url);
      if k == -1 then -1 else k + 1
  }

  /** The filter callback: position `idx` is the first one holding its url. */
  predicate IsFirstOfUrl(arr: seq<ApiServer>, idx: nat)
    requires idx < |arr|
  {
    FindIndexByUrl(arr, arr[idx].url) == idx
  }

  /** The entries among the first `n` positions of `arr` that the filter keeps, in order. */
  function FilterFirstOfUrl(arr: seq<ApiServer>, n: nat): seq<ApiServer>
    requires n <= |arr|
  {
    if n == 0 then []
    else FilterFirstOfUrl(arr, n - 1) + (if IsFirstOfUrl(arr, n - 1) then [arr[n - 1]] else [])
  }

  /** `arr.filter((v, idx, arr) => arr.findIndex((c) => c.url === v.url) === idx)`. */
  function DedupByUrl(arr: seq<ApiServer>): seq<ApiServer>
  {
    FilterFirstOfUrl(arr, |arr|)
  }

  /** The urls that occur in `s`. */
  ghost function UrlsOf(s: seq<ApiServer>): set<string>
  {
    set i | 0 <= i < |s| :: s[i].url
  }

  /** No two entries of `s` share a url. */
  ghost predicate NoDuplicateUrls(s: seq<ApiServer>)
  {
    forall i, j :: 0 <= i < j < |s| ==> s[i].url != s[j].url
  }

  /** `server ? [server] : []`. */
  function CurrentServerList(server: Option<ApiServer>): seq<ApiServer>
  {
    if server.Some? then [server.value] else []
  }

  /** `officialServers.concat(customServers).concat(currentServer)` deduplicated by url. */
  function MergeServers(official: seq<ApiServer>, custom: seq<ApiServer>, server: Option<ApiServer>): seq<ApiServer>
  {
    DedupByUrl(official + custom + CurrentServerList(server))
  }

  /** The filter keeps a position exactly when its url does not occur earlier. */
  lemma IsFirstOfUrlIff(arr: seq<ApiServer>, idx: nat)
    requires idx < |arr|
    ensures IsFirstOfUrl(arr, idx) <==> arr[idx].url !in UrlsOf(arr[..idx])
  {
    if arr[idx].url in UrlsOf(arr[..idx]) {
      var j :| 0 <= j < idx && arr[..idx][j].url == arr[idx].url;
      assert arr[j].url == arr[idx].url;
    }
  }

  /** What the filter keeps among the first `n` positions depends on those positions only. */
  lemma {:induction false} FilterFirstOfUrlPrefix(a: seq<ApiServer>, b: seq<ApiServer>, n: nat)
    requires n <= |a| && n <= |b| && a[..n] == b[..n]
    ensures FilterFirstOfUrl(a, n) == FilterFirstOfUrl(b, n)
  {
    if n > 0 {
      assert a[..n - 1] == a[..n][..n - 1] == b[..n][..n - 1] == b[..n - 1];
      assert a[n - 1] == a[..n][n - 1] == b[..n][n - 1] == b[n - 1];
      FilterFirstOfUrlPrefix(a, b, n - 1);
      IsFirstOfUrlIff(a, n - 1);
      IsFirstOfUrlIff(b, n - 1);
    }
  }

  /** Appending one entry adds exactly its url. */
  lemma UrlsOfSnoc(s: seq<ApiServer>, x: ApiServer)
    ensures UrlsOf(s + [x]) == UrlsOf(s) + {x.url}
  {
    var t := s + [x];
    forall u | u in UrlsOf(t) ensures u in UrlsOf(s) + {x.url} {
      var i :| 0 <= i < |t| && t[i].url == u;
      if i < |s| { assert s[i].url == u; }
    }
    forall u | u in UrlsOf(s) ensures u in UrlsOf(t) {
      var i :| 0 <= i < |s| && s[i].url == u;
      assert t[i].url == u;
    }
    assert t[|s|].url == x.url;
  }

  /** The filtered prefix holds exactly the urls of `arr[..n]`. */
  lemma {:induction false} FilterFirstOfUrlUrls(arr: seq<ApiServer>, n: nat)
    requires n <= |arr|
    ensures UrlsOf(FilterFirstOfUrl(arr, n)) == UrlsOf(arr[..n])
  {
    if n > 0 {
      FilterFirstOfUrlUrls(arr, n - 1);
      IsFirstOfUrlIff(arr, n - 1);
      assert arr[..n] == arr[..n - 1] + [arr[n - 1]];
      UrlsOfSnoc(arr[..n - 1], arr[n - 1]);
      if IsFirstOfUrl(arr, n - 1) {
        UrlsOfSnoc(FilterFirstOfUrl(arr, n - 1), arr[n - 1]);
      } else {
        assert FilterFirstOfUrl(arr, n) == FilterFirstOfUrl(arr, n - 1);
      }
    }
  }

  /**
   * Each entry of the filtered prefix is the entry at its url's first
   * position, that position lies below `n`, and the entries are ordered by it.
   */
  lemma {:induction false} FilterFirstOfUrlFirsts(arr: seq<ApiServer>, n: nat)
    requires n <= |arr|
    ensures forall k :: 0 <= k < |FilterFirstOfUrl(arr, n)| ==>
              0 <= FindIndexByUrl(arr, FilterFirstOfUrl(arr, n)[k].url) < n
    ensures forall k :: 0 <= k < |FilterFirstOfUrl(arr, n)| ==>
              FilterFirstOfUrl(arr, n)[k] == arr[FindIndexByUrl(arr, FilterFirstOfUrl(arr, n)[k].url)]
    ensures forall i, j :: 0 <= i < j < |FilterFirstOfUrl(arr, n)| ==>
              FindIndexByUrl(arr, FilterFirstOfUrl(arr, n)[i].url) < FindIndexByUrl(arr, FilterFirstOfUrl(arr, n)[j].url)
  {
    if n > 0 {
      FilterFirstOfUrlFirsts(arr, n - 1);
      var prev := FilterFirstOfUrl(arr, n - 1);
      var f := FilterFirstOfUrl(arr, n);
      if IsFirstOfUrl(arr, n - 1) {
        assert f == prev + [arr[n - 1]];
        assert f[|prev|] == arr[n - 1];
        assert FindIndexByUrl(arr, arr[n - 1].url) == n - 1;
        forall k | 0 <= k < |f|
          ensures 0 <= FindIndexByUrl(arr, f[k].url) < n && f[k] == arr[FindIndexByUrl(arr, f[k].url)]
        {
          if k < |prev| { assert f[k] == prev[k]; }
        }
        forall i, j | 0 <= i < j < |f|
          ensures FindIndexByUrl(arr, f[i].url) < FindIndexByUrl(arr, f[j].url)
        {
          assert f[i] == prev[i];
          if j < |prev| { assert f[j] == prev[j]; }
        }
      } else {
        assert f == prev;
      }
    }
  }

  /** Entries ordered by the first position of their urls never share a url. */
  lemma FirstsOrderedDistinct(arr: seq<ApiServer>, f: seq<ApiServer>)
    requires forall i, j :: 0 <= i < j < |f| ==> FindIndexByUrl(arr, f[i].url) < FindIndexByUrl(arr, f[j].url)
    ensures NoDuplicateUrls(f)
  {
  }

  /**
   * The deduplicated list: no two entries share a url, it holds every url of
   * the input, each entry is the input's first entry with that url, and the
   * entries keep the input's order.
   */
  lemma DedupByUrlShape(arr: seq<ApiServer>)
    ensures var d := DedupByUrl(arr);
      && NoDuplicateUrls(d)
      && UrlsOf(d) == UrlsOf(arr)
      && (forall k :: 0 <= k < |d| ==> 0 <= FindIndexByUrl(arr, d[k].url) && d[k] == arr[FindIndexByUrl(arr, d[k].url)])
      && (forall i, j :: 0 <= i < j < |d| ==> FindIndexByUrl(arr, d[i].url) < FindIndexByUrl(arr, d[j].url))
  {
    FilterFirstOfUrlUrls(arr, |arr|);
    FilterFirstOfUrlFirsts(arr, |arr|);
    FirstsOrderedDistinct(arr, DedupByUrl(arr));
    assert arr[..|arr|] == arr;
  }

  /** A list without repeated urls comes through deduplication unchanged. */
  lemma DedupByUrlOfDistinct(arr: seq<ApiServer>)
    requires NoDuplicateUrls(arr)
    ensures DedupByUrl(arr) == arr
  {
    DistinctPrefixKept(arr, |arr|);
    assert arr[..|arr|] == arr;
  }

  lemma {:induction false} DistinctPrefixKept(arr: seq<ApiServer>, n: nat)
    requires NoDuplicateUrls(arr) && n <= |arr|
    ensures FilterFirstOfUrl(arr, n) == arr[..n]
  {
    if n > 0 {
      DistinctPrefixKept(arr, n - 1);
      IsFirstOfUrlIff(arr, n - 1);
      assert arr[n - 1].url !in UrlsOf(arr[..n - 1]) by {
        forall j | 0 <= j < n - 1 ensures arr[j].url != arr[n - 1].url { }
        assert forall j :: 0 <= j < n - 1 ==> arr[..n - 1][j] == arr[j];
      }
      assert arr[..n] == arr[..n - 1] + [arr[n - 1]];
    }
  }

  /** Deduplicating twice is deduplicating once. */
  lemma DedupByUrlIdempotent(arr: seq<ApiServer>)
    ensures DedupByUrl(DedupByUrl(arr)) == DedupByUrl(arr)
  {
    DedupByUrlShape(arr);
    DedupByUrlOfDistinct(DedupByUrl(arr));
  }

  /** One more entry at the end is kept exactly when its url is new. */
  lemma DedupByUrlAppend(s: seq<ApiServer>, x: ApiServer)
    ensures DedupByUrl(s + [x]) == DedupByUrl(s) + (if x.url in UrlsOf(s) then [] else [x])
  {
    var arr := s + [x];
    assert arr[..|s|] == s == s[..|s|];
    FilterFirstOfUrlPrefix(arr, s, |s|);
    IsFirstOfUrlIff(arr, |s|);
  }

  /** Deduplicating `a + b` starts with the deduplicated `a`; the rest comes from `b`, with urls new to `a`. */
  lemma DedupByUrlConcatPrefix(a: seq<ApiServer>, b: seq<ApiServer>)
    ensures DedupByUrl(a) <= DedupByUrl(a + b)
    ensures forall k :: |DedupByUrl(a)| <= k < |DedupByUrl(a + b)| ==>
              DedupByUrl(a + b)[k] in b && DedupByUrl(a + b)[k].url !in UrlsOf(a)
  {
    var arr := a + b;
    assert arr[..|a|] == a == a[..|a|];
    FilterFirstOfUrlPrefix(arr, a, |a|);
    FilterFirstOfUrlGrows(arr, |a|, |arr|);
    var d := DedupByUrl(arr);
    DedupByUrlShape(arr);
    forall k | |DedupByUrl(a)| <= k < |d| ensures d[k] in b && d[k].url !in UrlsOf(a) {
      var p := FindIndexByUrl(arr, d[k].url);
      assert |a| <= p;
      assert d[k] == arr[p] == b[p - |a|];
    }
  }

  /** Filtering more positions extends the result; the extra entries have their first position in the new range. */
  lemma {:induction false} FilterFirstOfUrlGrows(arr: seq<ApiServer>, m: nat, n: nat)
    requires m <= n <= |arr|
    ensures FilterFirstOfUrl(arr, m) <= FilterFirstOfUrl(arr, n)
    ensures forall k :: |FilterFirstOfUrl(arr, m)| <= k < |FilterFirstOfUrl(arr, n)| ==>
              m <= FindIndexByUrl(arr, FilterFirstOfUrl(arr, n)[k].url)
  {
    if m < n {
      FilterFirstOfUrlGrows(arr, m, n - 1);
      var before := FilterFirstOfUrl(arr, n - 1);
      var after := FilterFirstOfUrl(arr, n);
      if IsFirstOfUrl(arr, n - 1) {
        assert after == before + [arr[n - 1]];
        forall k | |FilterFirstOfUrl(arr, m)| <= k < |after|
          ensures m <= FindIndexByUrl(arr, after[k].url)
        {
          if k < |before| { assert after[k] == before[k]; }
        }
      }
    }
  }

  /**
   * The merge: no two options share a url; each is the first entry with its
   * url in official ++ custom ++ current, in that order; every url of the
   * three sources is offered; the merge starts with the deduplicated
   * official list and then the further custom entries.
   */
  lemma MergeServersShape(official: seq<ApiServer>, custom: seq<ApiServer>, server: Option<ApiServer>)
    ensures var all := official + custom + CurrentServerList(server);
      var m := MergeServers(official, custom, server);
      && NoDuplicateUrls(m)
      && UrlsOf(m) == UrlsOf(official) + UrlsOf(custom) + UrlsOf(CurrentServerList(server))
      && (forall k :: 0 <= k < |m| ==> 0 <= FindIndexByUrl(all, m[k].url) && m[k] == all[FindIndexByUrl(all, m[k].url)])
      && (forall i, j :: 0 <= i < j < |m| ==> FindIndexByUrl(all, m[i].url) < FindIndexByUrl(all, m[j].url))
      && DedupByUrl(official) <= DedupByUrl(official + custom) <= m
  {
    var cur := CurrentServerList(server);
    var all := official + custom + cur;
    DedupByUrlShape(all);
    UrlsOfConcat(official, custom);
    UrlsOfConcat(official + custom, cur);
    DedupByUrlConcatPrefix(official, custom);
    DedupByUrlConcatPrefix(official + custom, cur);
  }

  lemma UrlsOfConcat(a: seq<ApiServer>, b: seq<ApiServer>)
    ensures UrlsOf(a + b) == UrlsOf(a) + UrlsOf(b)
  {
    var ab := a + b;
    forall u | u in UrlsOf(ab) ensures u in UrlsOf(a) + UrlsOf(b) {
      var i :| 0 <= i < |ab| && ab[i].url == u;
      if i < |a| { assert a[i].url == u; } else { assert b[i - |a|].url == u; }
    }
    forall u | u in UrlsOf(a) + UrlsOf(b) ensures u in UrlsOf(ab) {
      if u in UrlsOf(a) {
        var i :| 0 <= i < |a| && a[i].url == u;
        assert ab[i].url == u;
      } else {
        var i :| 0 <= i < |b| && b[i].url == u;
        assert ab[|a| + i].url == u;
      }
    }
  }

  /** No current server contributes nothing; a current server is added at the end only when its url is new. */
  lemma MergeServersCurrent(official: seq<ApiServer>, custom: seq<ApiServer>, server: Option<ApiServer>)
    ensures server.None? ==> MergeServers(official, custom, server) == DedupByUrl(official + custom)
    ensures server.Some? ==>
              MergeServers(official, custom, server) ==
              DedupByUrl(official + custom) + (if server.value.url in UrlsOf(official + custom) then [] else [server.value])
  {
    if server.Some? {
      DedupByUrlAppend(official + custom, server.value);
    } else {
      assert official + custom + [] == official + custom;
    }
  }

  /**
   * A worked example: official `[s1, s2]` with two different urls, custom
   * `[s3]` repeating the url of `s2`, and a selection `s4` with a url of its
   * own merge to `[s1, s2, s4]`.
   */
  lemma MergeServersExample(s1: ApiServer, s2: ApiServer, s3: ApiServer, s4: ApiServer)
    requires s1.url != s2.url && s3.url == s2.url && s4.url != s1.url && s4.url != s2.url
    ensures MergeServers([s1, s2], [s3], Some(s4)) == [s1, s2, s4]
  {
    DedupByUrlOfDistinct([s1, s2]);
    assert [s1, s2] + [s3] == [s1, s2, s3];
    DedupByUrlAppend([s1, s2], s3);
    assert s3.url in UrlsOf([s1, s2]) by { assert [s1, s2][1].url == s3.url; }
    assert UrlsOf([s1, s2, s3]) == {s1.url, s2.url};
    DedupByUrlAppend([s1, s2, s3], s4);
    assert [s1, s2] + [s3] + [s4] == [s1, s2, s3] + [s4];
  }

  // ---------------------------------------------------------------------
  // Dropdown options

  /** `label: \`${name} (${url})\`, data: server` for each server, in order. */
  function OptionsOf(servers: seq<ApiServer>): (options: seq<DropdownOption>)
    ensures |options| == |servers|
    ensures forall i :: 0 <= i < |servers| ==>
              options[i].text == servers[i].name + " (" + servers[i].url + ")" && options[i].data == servers[i]
  {
    if servers == [] then []
    else [DropdownOption(servers[0].name + " (" + servers[0].url + ")", servers[0])] + OptionsOf(servers[1..])
  }

  /** The server each option selects, in order. */
  function DataOf(options: seq<DropdownOption>): seq<ApiServer>
  {
    if options == [] then [] else [options[0].data] + DataOf(options[1..])
  }

  /** Reading the servers back out of the options gives the merged list itself. */
  lemma {:induction false} DataOfOptionsOf(servers: seq<ApiServer>)
    ensures DataOf(OptionsOf(servers)) == servers
  {
    if servers != [] {
      DataOfOptionsOf(servers[1..]);
      assert OptionsOf(servers)[1..] == OptionsOf(servers[1..]);
    }
  }

  // ---------------------------------------------------------------------
  // Removing a custom server

  /** `servers.filter((value) => value !== removed)`. */
  function WithoutServer(servers: seq<ApiServer>, removed: ApiServer): (r: seq<ApiServer>)
    ensures removed !in r
    ensures multiset(r) == multiset(servers)[removed := 0]
  {
    if servers == [] then []
    else
      assert servers == [servers[0]] + servers[1..];
      (if servers[0] == removed then [] else [servers[0]]) + WithoutServer(servers[1..], removed)
  }

  /** Removal works piecewise, so every other entry keeps its place in the order. */
  lemma {:induction false} WithoutServerConcat(a: seq<ApiServer>, b: seq<ApiServer>, removed: ApiServer)
    ensures WithoutServer(a + b, removed) == WithoutServer(a, removed) + WithoutServer(b, removed)
  {
    if a != [] {
      var ab := a + b;
      assert ab[0] == a[0];
      assert ab[1..] == a[1..] + b;
      WithoutServerConcat(a[1..], b, removed);
      assert WithoutServer(ab, removed) == (if a[0] == removed then [] else [a[0]]) + WithoutServer(ab[1..], removed);
      assert WithoutServer(a, removed) == (if a[0] == removed then [] else [a[0]]) + WithoutServer(a[1..], removed);
    } else {
      assert a + b == b;
    }
  }

  /** Removing an entry that is not in the list changes nothing. */
  lemma {:induction false} WithoutServerAbsent(servers: seq<ApiServer>, removed: ApiServer)
    requires removed !in servers
    ensures WithoutServer(servers, removed) == servers
  {
    if servers != [] {
      WithoutServerAbsent(servers[1..], removed);
    }
  }

  /** Removing the entry that was just appended gives back the list before the append. */
  lemma RemoveUndoesAppend(servers: seq<ApiServer>, added: ApiServer)
    requires added !in servers
    ensures WithoutServer(servers + [added], added) == servers
  {
    WithoutServerConcat(servers, [added], added);
    WithoutServerAbsent(servers, added);
    assert WithoutServer([added], added) == [];
  }

  // ---------------------------------------------------------------------
  // The component

  /**
   * The state the component works on: the `server` and `customServers`
   * props (the parent stores what the component hands to `onServerChange`
   * and `onCustomServersChange`) and the `serverOptions` state.
   */
  class ApiServerComponent {
    var server: Option<ApiServer>
    var customServers: seq<ApiServer>
    var serverOptions: seq<DropdownOption>

    constructor (server: Option<ApiServer>, customServers: seq<ApiServer>)
      ensures this.server == server && this.customServers == customServers && serverOptions == []
    {
      this.server := server;
      this.customServers := customServers;
      serverOptions := [];
    }

    /**
     * The effect run whenever `customServers` or `server` changes: a failed,
     * timed-out or unparsable fetch leaves the official list empty, and the
     * options always become the labelled merge.
     */
    method RefreshServerOptions(fetch: FetchBehaviour) returns (official: seq<ApiServer>)
      modifies this`serverOptions
      ensures OfficialEntries(fetch).Failure? ==> official == []
      ensures OfficialEntries(fetch).Success? ==>
                var entries := OfficialEntries(fetch).value;
                && |official| == |entries|
                && (forall i :: 0 <= i < |entries| ==> official[i].name == entries[i].0 && official[i].url == entries[i].1)
                && (forall i :: 0 <= i < |official| ==> fresh(official[i]))
      ensures serverOptions == OptionsOf(MergeServers(official, customServers, server))
      ensures OfficialEntries(fetch).Failure? ==>
                serverOptions == OptionsOf(DedupByUrl(customServers + CurrentServerList(server)))
    {
      official := [];
      var fetched := GetOfficialApiServers(fetch);
      if fetched.Success? {
        official := fetched.value;
      }
      var currentServer := CurrentServerList(server);
      assert official == [] ==> official + customServers == customServers;
      serverOptions := OptionsOf(DedupByUrl(official + customServers + currentServer));
    }

    /** The dropdown's `onChange`: the chosen option's server becomes the selection. */
    method SelectServerOption(option: DropdownOption)
      modifies this`server
      ensures server == Some(option.data)
    {
      server := Some(option.data);
    }

    /** The add button: a new `{name, url}` entry goes at the end, with no check and no dedup. */
    method AddCustomServer(name: string, url: string) returns (added: ApiServer)
      modifies this`customServers
      ensures fresh(added) && added.name == name && added.url == url
      ensures customServers == old(customServers) + [added]
    {
      added := new ApiServer(name, url);
      customServers := customServers + [added];
    }

    /** A remove button: drops that very entry, and clears the selection only if it is that entry. */
    method RemoveCustomServer(customServer: ApiServer)
      modifies this`server, this`customServers
      ensures server == (if old(server) == Some(customServer) then None else old(server))
      ensures customServers == WithoutServer(old(customServers), customServer)
    {
      if server == Some(customServer) {
        server := None;
      }
      customServers := WithoutServer(customServers, customServer);
    }
  }

  /** Adding a custom server and then removing it restores both props. */
  method AddThenRemoveCustomServer(component: ApiServerComponent, name: string, url: string)
    modifies component
    ensures component.customServers == old(component.customServers)
    ensures component.server == old(component.server)
  {
    var added := component.AddCustomServer(name, url);
    assert added !in old(component.customServers);
    component.RemoveCustomServer(added);
    RemoveUndoesAppend(old(component.customServers), added);
  }
}
