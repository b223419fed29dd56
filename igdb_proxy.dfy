/**
 * The IGDB proxy service: the credential headers and request url of every
 * upstream call, the extraction of Steam app ids from IGDB's external-game
 * records, and the `/search` endpoint that annotates each game found with its
 * Steam app ids. The upstream IGDB service is a function from the request
 * sent to the answer received.
 */
module IgdbProxy {
  import opened Wrappers

  // ---------------------------------------------------------------------
  // Loosely typed Python values

  /** A JSON-decoded Python value as far as the service looks at it. */
  datatype PyValue =
    | PyNone
    | PyBool(b: bool)
    | PyInt(i: int)
    | PyStr(s: string)
    | PyOther(text: string, truthy: bool)  // any other value, given by its `str()` and its truth value

  /** A decoded JSON object (`dict[str, Any]`). */
  type Record = map<string, PyValue>

  /** `record.get(key)`: the value under `key`, or `None` when the key is absent. */
  function Get(record: Record, key: string): PyValue
  {
    if key in record then record[key] else PyNone
  }

  /** Python truthiness: what `not value` negates. */
  predicate Truthy(v: PyValue)
  {
    match v
    case PyNone => false
    case PyBool(b) => b
    case PyInt(i) => i != 0
    case PyStr(s) => s != ""
    case PyOther(_, t) => t
  }

  function DigitChar(d: nat): char
    requires d < 10
  {
    "0123456789"[d]
  }

  /** The decimal digits of `n`, without leading zeros. */
  function NatToString(n: nat): string
  {
    if n < 10 then [DigitChar(n)] else NatToString(n / 10) + [DigitChar(n % 10)]
  }

  /** `str(i)` for an `int`. */
  function IntToString(i: int): string
  {
    if i < 0 then "-" + NatToString(-i) else NatToString(i)
  }

  /** `str(value)`. */
  function Str(v: PyValue): string
  {
    match v
    case PyNone => "None"
    case PyBool(b) => if b then "True" else "False"
    case PyInt(i) => IntToString(i)
    case PyStr(s) => s
    case PyOther(t, _) => t
  }

  function LowerChar(c: char): char
  {
    if 'A' <= c <= 'Z' then (c as int - 'A' as int + 'a' as int) as char else c
  }

  /** `s.lower()` on the ASCII letters. */
  function Lower(s: string): string
  {
    seq(|s|, i requires 0 <= i < |s| => LowerChar(s[i]))
  }

  predicate IsDigit(c: char)
  {
    '0' <= c <= '9'
  }

  /** `s.isdigit()` for ASCII digits: non-empty and digits only. */
  predicate IsDigitString(s: string)
  {
    |s| > 0 && forall i :: 0 <= i < |s| ==> IsDigit(s[i])
  }

  /** `int(s)` for a string of decimal digits (leading zeros allowed). */
  function DigitsValue(s: string): nat
    requires forall i :: 0 <= i < |s| ==> IsDigit(s[i])
  {
    if s == [] then 0
    else
      assert IsDigit(s[|s| - 1]);
      DigitsValue(s[..|s| - 1]) * 10 + (s[|s| - 1] as int - '0' as int)
  }

  lemma DigitCharIsDigit(d: nat)
    requires d < 10
    ensures IsDigit(DigitChar(d)) && DigitChar(d) as int - '0' as int == d
  {
  }

  /** `str` of a natural number is a digit string that `int` reads back as that number. */
  lemma {:induction false} NatToStringRoundTrip(n: nat)
    ensures IsDigitString(NatToString(n))
    ensures DigitsValue(NatToString(n)) == n
  {
    if n < 10 {
      DigitCharIsDigit(n);
    } else {
      NatToStringRoundTrip(n / 10);
      DigitCharIsDigit(n % 10);
      var s := NatToString(n);
      assert s[..|s| - 1] == NatToString(n / 10);
    }
  }

  lemma {:induction false} NatToStringLength(n: nat)
    ensures |NatToString(n)| >= 1
    ensures 10 <= n ==> |NatToString(n)| >= 2
  {
    if 10 <= n {
      NatToStringLength(n / 10);
    }
  }

  /** `str(category) == "1"` holds exactly for the integer 1, the string "1" and other values printed as 1. */
  lemma StrIsOne(v: PyValue)
    ensures Str(v) == "1" <==> v == PyInt(1) || v == PyStr("1") || (v.PyOther? && v.text == "1")
  {
    if v.PyInt? {
      var i := v.i;
      if i < 0 {
        assert Str(v)[0] == '-';
      } else {
        NatToStringLength(i);
        if i < 10 {
          assert Str(v) == [DigitChar(i)];
          assert DigitChar(i) == '1' ==> i == 1;
        }
      }
    }
  }

  // ---------------------------------------------------------------------
  // Steam app ids of one game

  /** The two `continue` guards: the record names a source or a category, and one of them says Steam. */
  predicate IsSteamRecord(entry: Record)
  {
    var source := Get(entry, "external_game_source");
    var category := Get(entry, "category");
    && !(source == PyNone && category == PyNone)
    && (Lower(Str(source)) == "steam" || Str(category) == "1")
  }

  /** The app id a `uid` contributes: a digit string read as a number, or an integer as it is. */
  function UidAppId(uid: PyValue): Option<int>
  {
    match uid
    case PyStr(s) => if IsDigitString(s) then Some(DigitsValue(s)) else None
    case PyInt(i) => Some(i)
    case PyBool(b) => Some(if b then 1 else 0)
    case _ => None
  }

  /** The app id one external-game record contributes, if any. */
  function RecordAppId(entry: Record): Option<int>
  {
    if IsSteamRecord(entry) then UidAppId(Get(entry, "uid")) else None
  }

  /** What `_extract_steam_appids` returns: the contributions of the records, in order. */
  function SteamAppIds(externalGames: seq<Record>): (ids: seq<int>)
    ensures |ids| <= |externalGames|
  {
    if externalGames == [] then []
    else
      var last := externalGames[|externalGames| - 1];
      SteamAppIds(externalGames[..|externalGames| - 1])
        + (if RecordAppId(last).Some? then [RecordAppId(last).value] else [])
  }

  /** `_extract_steam_appids`: the loop over the records that appends each contributed app id. */
  method ExtractSteamAppIds(externalGames: seq<Record>) returns (steamAppIds: seq<int>)
    ensures steamAppIds == SteamAppIds(externalGames)
    ensures |steamAppIds| <= |externalGames|
  {
    steamAppIds := [];
    for i := 0 to |externalGames|
      invariant steamAppIds == SteamAppIds(externalGames[..i])
    {
      var entry := externalGames[i];
      var source := Get(entry, "external_game_source");
      var category := Get(entry, "category");
      var uid := Get(entry, "uid");
      assert externalGames[..i + 1][..i] == externalGames[..i];
      if source == PyNone && category == PyNone {
        continue;
      }
      if Lower(Str(source)) != "steam" && Str(category) != "1" {
        continue;
      }
      if uid.PyStr? && IsDigitString(uid.s) {
        steamAppIds := steamAppIds + [DigitsValue(uid.s)];
      } else if uid.PyInt? {
        steamAppIds := steamAppIds + [uid.i];
      } else if uid.PyBool? {
        steamAppIds := steamAppIds + [if uid.b then 1 else 0];
      }
    }
    assert externalGames[..|externalGames|] == externalGames;
  }

  /** The extraction works record by record, so the app ids keep the records' order. */
  lemma {:induction false} SteamAppIdsConcat(a: seq<Record>, b: seq<Record>)
    ensures SteamAppIds(a + b) == SteamAppIds(a) + SteamAppIds(b)
  {
    if b == [] {
      assert a + b == a;
    } else {
      var ab := a + b;
      assert ab[..|ab| - 1] == a + b[..|b| - 1];
      assert ab[|ab| - 1] == b[|b| - 1];
      SteamAppIdsConcat(a, b[..|b| - 1]);
    }
  }

  /** A single record contributes its app id, or nothing. */
  lemma SteamAppIdsSingle(entry: Record)
    ensures SteamAppIds([entry]) == if RecordAppId(entry).Some? then [RecordAppId(entry).value] else []
  {
    assert [entry][..0] == [];
  }

  /** Records naming neither source nor category, or naming no Steam marker, contribute nothing. */
  lemma NonSteamRecordSkipped(entry: Record)
    requires (Get(entry, "external_game_source") == PyNone && Get(entry, "category") == PyNone)
             || (Lower(Str(Get(entry, "external_game_source"))) != "steam" && Str(Get(entry, "category")) != "1")
    ensures SteamAppIds([entry]) == []
  {
    SteamAppIdsSingle(entry);
  }

  /**
   * A Steam record contributes `int(uid)` for a digit-string uid and the uid
   * itself for an integer uid (a boolean being the integer 1 or 0); any
   * other uid contributes nothing.
   */
  lemma SteamRecordContributes(entry: Record)
    requires IsSteamRecord(entry)
    ensures var uid := Get(entry, "uid");
      && (uid.PyStr? && IsDigitString(uid.s) ==> SteamAppIds([entry]) == [DigitsValue(uid.s)])
      && (uid.PyInt? ==> SteamAppIds([entry]) == [uid.i])
      && (uid.PyBool? ==> SteamAppIds([entry]) == [if uid.b then 1 else 0])
      && (uid.PyNone? || uid.PyOther? || (uid.PyStr? && !IsDigitString(uid.s)) ==> SteamAppIds([entry]) == [])
  {
    SteamAppIdsSingle(entry);
  }

  /** A record whose category is the integer 1 and whose uid is a written-out number is kept with that number. */
  lemma SteamCategoryRecordKept(entry: Record, n: nat)
    requires Get(entry, "category") == PyInt(1)
    requires Get(entry, "uid") == PyStr(NatToString(n))
    ensures SteamAppIds([entry]) == [n]
  {
    StrIsOne(PyInt(1));
    NatToStringRoundTrip(n);
    SteamAppIdsSingle(entry);
  }

  // ---------------------------------------------------------------------
  // Upstream requests

  /** An HTTP error response (`HTTPException`). */
  datatype HttpException = HttpException(statusCode: nat, detail: string)

  /** The settings read from the environment when the service starts. */
  datatype Settings = Settings(baseUrl: string, clientId: Option<string>, authToken: Option<string>)

  const DefaultBaseUrl: string := "https://api.igdb.com/v4"

  /** `IGDB_BASE_URL` (with its default), `IGDB_CLIENT_ID` and `IGDB_AUTH_TOKEN` from the environment. */
  function SettingsFromEnvironment(env: map<string, string>): Settings
  {
    Settings(
      if "IGDB_BASE_URL" in env then env["IGDB_BASE_URL"] else DefaultBaseUrl,
      if "IGDB_CLIENT_ID" in env then Some(env["IGDB_CLIENT_ID"]) else None,
      if "IGDB_AUTH_TOKEN" in env then Some(env["IGDB_AUTH_TOKEN"]) else None)
  }

  /** A credential is configured when it is set and not empty. */
  predicate Configured(v: Option<string>)
  {
    v.Some? && v.value != ""
  }

  const CredentialsMissing: HttpException := HttpException(500, "IGDB credentials not configured")

  /**
   * Starting the proxy from an environment: the base url falls back to the public endpoint, and
   * every upstream call is refused with the credentials error exactly when `IGDB_CLIENT_ID` or
   * `IGDB_AUTH_TOKEN` is unset or empty.
   */
  lemma EnvironmentCredentials(env: map<string, string>)
    ensures "IGDB_BASE_URL" !in env ==> SettingsFromEnvironment(env).baseUrl == DefaultBaseUrl
    ensures IgdbHeaders(SettingsFromEnvironment(env)).Failure? <==>
              || "IGDB_CLIENT_ID" !in env || env["IGDB_CLIENT_ID"] == ""
              || "IGDB_AUTH_TOKEN" !in env || env["IGDB_AUTH_TOKEN"] == ""
    ensures IgdbHeaders(SettingsFromEnvironment(env)).Success? ==>
              && IgdbHeaders(SettingsFromEnvironment(env)).value["Client-ID"] == env["IGDB_CLIENT_ID"]
              && IgdbHeaders(SettingsFromEnvironment(env)).value["Authorization"] == "Bearer " + env["IGDB_AUTH_TOKEN"]
  {
  }

  /** `_igdb_headers`: the four request headers, or a 500 error when a credential is missing. */
  function IgdbHeaders(settings: Settings): (r: Result<map<string, string>, HttpException>)
    ensures r.Failure? <==> !Configured(settings.clientId) || !Configured(settings.authToken)
    ensures r.Failure? ==> r.error == CredentialsMissing
    ensures r.Success? ==>
              && r.value.Keys == {"Client-ID", "Authorization", "Accept", "Content-Type"}
              && r.value["Client-ID"] == settings.clientId.value
              && r.value["Authorization"] == "Bearer " + settings.authToken.value
              && r.value["Accept"] == "application/json"
              && r.value["Content-Type"] == "text/plain"
  {
    if !Configured(settings.clientId) || !Configured(settings.authToken) then
      Failure(CredentialsMissing)
    else
      Success(map[
        "Client-ID" := settings.clientId.value,
        "Authorization" := "Bearer " + settings.authToken.value,
        "Accept" := "application/json",
        "Content-Type" := "text/plain"])
  }

  /** `n` slashes. */
  function Slashes(n: nat): (s: string)
    ensures |s| == n
  {
    if n == 0 then "" else "/" + Slashes(n - 1)
  }

  /** `path.lstrip('/')`: a suffix of the path that does not start with a slash. */
  function LStripSlashes(path: string): (rest: string)
    ensures |rest| <= |path| && rest == path[|path| - |rest|..]
    ensures rest == [] || rest[0] != '/'
  {
    if |path| > 0 && path[0] == '/' then LStripSlashes(path[1..]) else path
  }

  /** What `lstrip` removes is slashes only. */
  lemma {:induction false} LStripSlashesRemovesSlashes(path: string)
    ensures forall i :: 0 <= i < |path| - |LStripSlashes(path)| ==> path[i] == '/'
  {
    if |path| > 0 && path[0] == '/' {
      LStripSlashesRemovesSlashes(path[1..]);
      forall i | 0 < i < |path| - |LStripSlashes(path)| ensures path[i] == '/' {
        assert path[i] == path[1..][i - 1];
      }
    }
  }

  /** `f"{IGDB_BASE_URL}/{path.lstrip('/')}"`. */
  function RequestUrl(baseUrl: string, path: string): (url: string)
    ensures |baseUrl| < |url| && url[..|baseUrl| + 1] == baseUrl + "/"
    ensures url[|baseUrl| + 1..] == LStripSlashes(path)
  {
    var url := baseUrl + "/" + LStripSlashes(path);
    assert url[|baseUrl| + 1..] == LStripSlashes(path);
    url
  }

  /** The request url is the base url, a slash, and the path after its leading slashes. */
  lemma RequestUrlShape(baseUrl: string, path: string)
    ensures var rest := RequestUrl(baseUrl, path)[|baseUrl| + 1..];
      && (rest == [] || rest[0] != '/')
      && |rest| <= |path| && rest == path[|path| - |rest|..]
      && forall i :: 0 <= i < |path| - |rest| ==> path[i] == '/'
  {
    LStripSlashesRemovesSlashes(path);
  }

  /** `lstrip` removes any number of leading slashes. */
  lemma {:induction false} LStripSlashesIgnoresLeading(path: string, n: nat)
    ensures LStripSlashes(Slashes(n) + path) == LStripSlashes(path)
  {
    if n > 0 {
      var shorter := Slashes(n - 1) + path;
      assert Slashes(n) + path == "/" + shorter;
      assert ("/" + shorter)[0] == '/' && ("/" + shorter)[1..] == shorter;
      LStripSlashesIgnoresLeading(path, n - 1);
    } else {
      assert Slashes(n) + path == path;
    }
  }

  /** Any number of leading slashes on the path leads to the same url. */
  lemma RequestUrlIgnoresLeadingSlashes(baseUrl: string, path: string, n: nat)
    ensures RequestUrl(baseUrl, Slashes(n) + path) == RequestUrl(baseUrl, path)
  {
    LStripSlashesIgnoresLeading(path, n);
  }

  /** A POST sent to IGDB. */
  datatype Request = Request(url: string, body: Query, headers: map<string, string>, httpMethod: string)

  /** IGDB's answer: decoded records, or the `HTTPError`/`URLError` raised instead. */
  datatype Upstream = Answered(records: seq<Record>) | Unreachable(reason: string)

  /** The outcome of one `_igdb_post` call and the requests it sent. */
  datatype Post = Post(result: Result<seq<Record>, HttpException>, sent: seq<Request>)

  /**
   * `_igdb_post`: a missing credential fails with 500 before anything is
   * sent; otherwise exactly one POST goes to the request url, and an
   * unreachable upstream becomes a 502 error.
   */
  function IgdbPost(settings: Settings, igdb: Request -> Upstream, path: string, body: Query): (p: Post)
    ensures IgdbHeaders(settings).Failure? ==> p == Post(Failure(CredentialsMissing), [])
    ensures IgdbHeaders(settings).Success? ==>
              && |p.sent| == 1
              && p.sent[0] == Request(RequestUrl(settings.baseUrl, path), body, IgdbHeaders(settings).value, "POST")
              && (igdb(p.sent[0]).Answered? ==> p.result == Success(igdb(p.sent[0]).records))
              && (igdb(p.sent[0]).Unreachable? ==>
                    p.result == Failure(HttpException(502, "IGDB request failed: " + igdb(p.sent[0]).reason)))
  {
    var url := RequestUrl(settings.baseUrl, path);
    match IgdbHeaders(settings)
    case Failure(e) => Post(Failure(e), [])
    case Success(headers) =>
      var request := Request(url, body, headers, "POST");
      match igdb(request)
      case Answered(records) => Post(Success(records), [request])
      case Unreachable(reason) => Post(Failure(HttpException(502, "IGDB request failed: " + reason)), [request])
  }

  // ---------------------------------------------------------------------
  // The /search endpoint

  const MissingTitle: HttpException := HttpException(400, "Missing title")

  /** The error FastAPI answers with when the handler raises anything else (here a `KeyError`). */
  const InternalServerError: HttpException := HttpException(500, "Internal Server Error")

  /**
   * The two query bodies the proxy sends; a request carries the query it
   * was built from and `QueryText` gives the exact body text.
   */
  datatype Query = GamesSearch(title: PyValue) | ExternalGamesOf(gameId: PyValue)

  /** The text posted for a query: the title and the game id are interpolated with `str`. */
  function QueryText(q: Query): (text: string)
    ensures q.GamesSearch? ==> "search \"" + Str(q.title) + "\"; " <= text
    ensures q.ExternalGamesOf? ==>
              "fields uid, external_game_source, category; where game = " + Str(q.gameId) <= text
              && text[|text| - 1] == ';'
  {
    match q
    case GamesSearch(title) =>
      var head := "search \"" + Str(title) + "\"; ";
      var text := head + "fields name, summary, aggregated_rating, first_release_date, "
        + "involved_companies.company.name, involved_companies.company.url, game_modes.slug, "
        + "multiplayer_modes; limit 50;";
      assert head <= text;
      text
    case ExternalGamesOf(gameId) =>
      var head := "fields uid, external_game_source, category; where game = " + Str(gameId);
      var text := head + ";";
      assert text[..|head|] == head;
      text
  }

  /** A game as returned: its IGDB fields with `steam_appids` and `steam_appid` set. */
  datatype AnnotatedGame = AnnotatedGame(fields: Record, steamAppIds: seq<int>, steamAppId: Option<int>)

  /** The external-games call made for one game. */
  function ExternalGamesPost(settings: Settings, igdb: Request -> Upstream, game: Record): Post
    requires "id" in game
  {
    IgdbPost(settings, igdb, "external_games", ExternalGamesOf(game["id"]))
  }

  /** `steam_appids[0] if steam_appids else None`. */
  function FirstAppId(steamAppIds: seq<int>): Option<int>
  {
    if |steamAppIds| > 0 then Some(steamAppIds[0]) else None
  }

  /**
   * `annotated` is `game` after the loop body: its external-games request
   * `request` succeeded, and the two keys hold the app ids extracted from the
   * answer and their first element.
   */
  ghost predicate AnnotatedFrom(settings: Settings, igdb: Request -> Upstream, game: Record,
                                annotated: AnnotatedGame, request: Request)
  {
    && "id" in game
    && var post := ExternalGamesPost(settings, igdb, game);
    && post.result.Success?
    && post.sent == [request]
    && annotated.fields == game
    && annotated.steamAppIds == SteamAppIds(post.result.value)
    && annotated.steamAppId == FirstAppId(annotated.steamAppIds)
  }

  /** The error the loop body raises for `game`, if any: a 500 for a missing `id`, or the external-games error. */
  function AnnotateError(settings: Settings, igdb: Request -> Upstream, game: Record): Option<HttpException>
  {
    if "id" !in game then Some(InternalServerError)
    else if ExternalGamesPost(settings, igdb, game).result.Failure? then
      Some(ExternalGamesPost(settings, igdb, game).result.error)
    else None
  }

  /**
   * One pass of the loop over the games: a game without `id` fails (the
   * `KeyError` becomes a 500 answer) before anything is sent; otherwise its
   * external-games request is sent and, when it succeeds, the game gets its
   * two keys.
   */
  method AnnotateGame(settings: Settings, igdb: Request -> Upstream, game: Record)
    returns (r: Result<AnnotatedGame, HttpException>, sent: seq<Request>)
    ensures "id" !in game ==> r == Failure(InternalServerError) && sent == []
    ensures "id" in game ==> sent == ExternalGamesPost(settings, igdb, game).sent
    ensures r.Success? <==> "id" in game && ExternalGamesPost(settings, igdb, game).result.Success?
    ensures r.Failure? && "id" in game ==> r.error == ExternalGamesPost(settings, igdb, game).result.error
    ensures r.Success? ==> |sent| == 1 && AnnotatedFrom(settings, igdb, game, r.value, sent[0])
    ensures r.Failure? <==> AnnotateError(settings, igdb, game).Some?
    ensures r.Failure? ==> AnnotateError(settings, igdb, game) == Some(r.error)
  {
    if "id" !in game {
      return Failure(InternalServerError), [];
    }
    var externalPost := IgdbPost(settings, igdb, "external_games", ExternalGamesOf(game["id"]));
    sent := externalPost.sent;
    if externalPost.result.Failure? {
      return Failure(externalPost.result.error), sent;
    }
    var steamAppIds := ExtractSteamAppIds(externalPost.result.value);
    var steamAppId := if |steamAppIds| > 0 then Some(steamAppIds[0]) else None;
    r := Success(AnnotatedGame(game, steamAppIds, steamAppId));
  }

  /**
   * The loop over the games: each game is annotated in turn, and the first
   * failure is the outcome; on success the games are annotated in order,
   * each from its own external-games request.
   */
  method AnnotateGames(settings: Settings, igdb: Request -> Upstream, games: seq<Record>)
    returns (r: Result<seq<AnnotatedGame>, HttpException>, sent: seq<Request>)
    ensures r.Success? <==> forall i :: 0 <= i < |games| ==> AnnotateError(settings, igdb, games[i]).None?
    ensures r.Success? ==>
              && |r.value| == |games|
              && |sent| == |games|
              && forall i :: 0 <= i < |games| ==> AnnotatedFrom(settings, igdb, games[i], r.value[i], sent[i])
    ensures r.Failure? ==>
              exists i :: 0 <= i < |games| && AnnotateError(settings, igdb, games[i]) == Some(r.error)
                          && forall k :: 0 <= k < i ==> AnnotateError(settings, igdb, games[k]).None?
  {
    var annotated: seq<AnnotatedGame> := [];
    var raised: Option<HttpException> := None;
    sent := [];
    var i := 0;
    while i < |games| && raised.None?
      decreases |games| - i, if raised.None? then 1 else 0
      invariant 0 <= i <= |games|
      invariant raised.None? ==> |annotated| == i && |sent| == i
      invariant raised.None? ==>
                  forall k :: 0 <= k < i ==> AnnotatedFrom(settings, igdb, games[k], annotated[k], sent[k])
      invariant forall k :: 0 <= k < i ==> AnnotateError(settings, igdb, games[k]).None?
      invariant raised.Some? ==> i < |games| && AnnotateError(settings, igdb, games[i]) == raised
    {
      var next, nextSent := AnnotateGame(settings, igdb, games[i]);
      sent := sent + nextSent;
      if next.Failure? {
        raised := Some(next.error);
      } else {
        annotated := annotated + [next.value];
        i := i + 1;
      }
    }
    r := if raised.Some? then Failure(raised.value) else Success(annotated);
  }

  /**
   * `search`: a missing or falsy title fails with 400 and a missing
   * credential with 500, both before anything is sent; on success every game
   * found is returned in order, annotated with its Steam app ids and the
   * first of them (or none), after one games request and then one
   * external-games request per game.
   */
  method Search(settings: Settings, igdb: Request -> Upstream, payload: Record)
    returns (r: Result<seq<AnnotatedGame>, HttpException>, sent: seq<Request>)
    ensures !Truthy(Get(payload, "title")) ==> r == Failure(MissingTitle) && sent == []
    ensures Truthy(Get(payload, "title")) && IgdbHeaders(settings).Failure? ==>
              r == Failure(CredentialsMissing) && sent == []
    ensures Truthy(Get(payload, "title")) ==>
              var gamesPost := IgdbPost(settings, igdb, "games", GamesSearch(Get(payload, "title")));
              gamesPost.result.Failure? ==> r == Failure(gamesPost.result.error) && sent == gamesPost.sent
    ensures Truthy(Get(payload, "title")) ==>
              var gamesPost := IgdbPost(settings, igdb, "games", GamesSearch(Get(payload, "title")));
              gamesPost.result.Success? ==>
                && (r.Success? <==>
                      forall i :: 0 <= i < |gamesPost.result.value| ==>
                        AnnotateError(settings, igdb, gamesPost.result.value[i]).None?)
                && (r.Failure? ==>
                      exists i :: 0 <= i < |gamesPost.result.value|
                                  && AnnotateError(settings, igdb, gamesPost.result.value[i]) == Some(r.error)
                                  && forall k :: 0 <= k < i ==>
                                       AnnotateError(settings, igdb, gamesPost.result.value[k]).None?)
    ensures r.Success? ==>
              var gamesPost := IgdbPost(settings, igdb, "games", GamesSearch(Get(payload, "title")));
              && Truthy(Get(payload, "title"))
              && gamesPost.result.Success?
              && |r.value| == |gamesPost.result.value|
              && |sent| == 1 + |r.value|
              && sent[..1] == gamesPost.sent
              && forall i :: 0 <= i < |r.value| ==>
                   AnnotatedFrom(settings, igdb, gamesPost.result.value[i], r.value[i], sent[i + 1])
  {
    var title := Get(payload, "title");
    if !Truthy(title) {
      return Failure(MissingTitle), [];
    }
    var gamesPost := IgdbPost(settings, igdb, "games", GamesSearch(title));
    sent := gamesPost.sent;
    if gamesPost.result.Failure? {
      return Failure(gamesPost.result.error), sent;
    }
    var annotated, annotateSent := AnnotateGames(settings, igdb, gamesPost.result.value);
    sent := sent + annotateSent;
    r := annotated;
  }
}
