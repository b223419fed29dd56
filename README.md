# MetaDeck core, modelled in Dafny

MetaDeck is a Decky Loader plugin for the Steam Deck that fetches game metadata
from IGDB. This project models five parts of it and proves properties of each
model.

- **IGDB API-server setting** (`api_servers.dfy`, module `ApiServers`).
  - The official server list is fetched under a 5000 ms timeout.
  - It is merged with the user's custom servers and the current selection. The merge is deduplicated by url, and the first occurrence wins.
  - The merge becomes the dropdown's options.
  - The add and remove buttons edit the custom list, and removal finds an entry by reference.
  - Servers are objects, because the component compares them with `===` and `!==`.
- **IGDB proxy service** (`igdb_proxy.dfy`, module `IgdbProxy`).
  - Each upstream call builds its credential headers and its request url, and turns an unreachable upstream into a 502.
  - Steam app ids are extracted from IGDB's external-game records.
  - The `/search` endpoint annotates every game it finds with its Steam app ids.
  - The IGDB service is a function from the request sent to the answer received. Every operation returns the requests it sent, so "nothing was sent" can be stated.
- **Route-patch mountable** (`route_patches.dfy`, module `RoutePatches`).
  - `routePatch` wraps a route patch. The wrapper logs the hit with a best-effort app id, swallows any error of that diagnostic, and always returns the patch's answer.
  - Mounting adds the wrapper to the host router's patch table and dismounting removes that same wrapper.
- **Global MobX bootstrap** (`decky_mobx.dfy`, module `DeckyMobx`, over `mobx_runtime.dfy`).
  - The module takes the host's `window.mobx`, and throws when it is missing.
  - It configures it at most once per window, guarded by a flag stored on `window`.
  - It exports the host's `runInAction`.
- **Bundled MobX isolation** (`mobx_isolation.dfy`, module `MobxIsolation`).
  - `initMobxIsolation` configures the bundled MobX once, guarded by a flag local to the module.
  - The module calls it itself when it is loaded.

`wrappers.dfy` holds the `Option` and `Result` types.

Where the design and the code differ, the model follows the code:
- The design describes the global bootstrap looking up several places: `window.mobx`, a nested namespace and a bundled copy. The code reads `window.mobx` only, and throws when it is falsy.
- The design says the bootstrap records which instance it chose. The code records nothing.

## Model

| member | source | states |
|---|---|---|
| ApiServers.RaceAgainstTimeout | src/ts/modules/metadata/providers/IGDB/IGDBApiServerComponent.tsx:13-19 | the race succeeds exactly when the fetch resolves strictly before the timer, with the fetched body; it fails with a network error exactly when the fetch rejects before the timer; otherwise it is a timeout |
| ApiServers.OfficialEntries | src/ts/modules/metadata/providers/IGDB/IGDBApiServerComponent.tsx:16-20 | entries are obtained exactly when the fetch resolves within 5000 ms with a JSON object, and a body that is not JSON is a parse error |
| ApiServers.ParseApiServers | src/ts/modules/metadata/providers/IGDB/IGDBApiServerComponent.tsx:21 | one new server object per name/url pair, same order, same name and url |
| ApiServers.GetOfficialApiServers | src/ts/modules/metadata/providers/IGDB/IGDBApiServerComponent.tsx:11-22 | the official list succeeds exactly when the entries were obtained, and then holds one fresh server per entry in order; otherwise it fails with the error of the fetch |
| ApiServers.FindIndexByUrl | src/ts/modules/metadata/providers/IGDB/IGDBApiServerComponent.tsx:50 | `findIndex` by url: -1 exactly when no entry has the url, otherwise the first position holding it |
| ApiServers.IsFirstOfUrl | src/ts/modules/metadata/providers/IGDB/IGDBApiServerComponent.tsx:50 | no contract; properties in IsFirstOfUrlIff |
| ApiServers.FilterFirstOfUrl | src/ts/modules/metadata/providers/IGDB/IGDBApiServerComponent.tsx:50 | no contract; properties in DedupByUrlShape and DedupByUrlConcatPrefix |
| ApiServers.DedupByUrl | src/ts/modules/metadata/providers/IGDB/IGDBApiServerComponent.tsx:50 | no contract; properties in DedupByUrlShape, DedupByUrlOfDistinct, DedupByUrlIdempotent, DedupByUrlAppend and DedupByUrlConcatPrefix |
| ApiServers.CurrentServerList | src/ts/modules/metadata/providers/IGDB/IGDBApiServerComponent.tsx:46 | no contract; properties in MergeServersCurrent |
| ApiServers.MergeServers | src/ts/modules/metadata/providers/IGDB/IGDBApiServerComponent.tsx:47-50 | no contract; properties in MergeServersShape, MergeServersCurrent and MergeServersExample |
| ApiServers.IsFirstOfUrlIff | src/ts/modules/metadata/providers/IGDB/IGDBApiServerComponent.tsx:50 | the filter keeps a position exactly when its url does not occur earlier |
| ApiServers.DedupByUrlShape | src/ts/modules/metadata/providers/IGDB/IGDBApiServerComponent.tsx:50 | the filtered list has no repeated url, offers every url of the input, holds for each url the first entry carrying it, and keeps the input's order |
| ApiServers.DedupByUrlOfDistinct | src/ts/modules/metadata/providers/IGDB/IGDBApiServerComponent.tsx:50 | a list without repeated urls passes the filter unchanged |
| ApiServers.DedupByUrlIdempotent | src/ts/modules/metadata/providers/IGDB/IGDBApiServerComponent.tsx:50 | filtering twice gives the same list as filtering once |
| ApiServers.DedupByUrlAppend | src/ts/modules/metadata/providers/IGDB/IGDBApiServerComponent.tsx:50 | one more entry at the end is kept exactly when its url is new |
| ApiServers.DedupByUrlConcatPrefix | src/ts/modules/metadata/providers/IGDB/IGDBApiServerComponent.tsx:47-50 | the filtered concatenation starts with the filtered first part; every further entry comes from the second part and has a url the first part lacks |
| ApiServers.MergeServersShape | src/ts/modules/metadata/providers/IGDB/IGDBApiServerComponent.tsx:46-50 | the merge of official, custom and current servers has no repeated url, offers every url of the three, holds the first entry per url in official, custom, current order, and extends the filtered official+custom list, which extends the filtered official list |
| ApiServers.MergeServersCurrent | src/ts/modules/metadata/providers/IGDB/IGDBApiServerComponent.tsx:46-49 | with no current server the merge is official+custom filtered; a current server is appended exactly when its url is new |
| ApiServers.MergeServersExample | src/ts/modules/metadata/providers/IGDB/IGDBApiServerComponent.tsx:46-50 | two official servers with different urls, a custom server repeating the second url and a selection with a url of its own merge to the two official servers and the selection |
| ApiServers.OptionsOf | src/ts/modules/metadata/providers/IGDB/IGDBApiServerComponent.tsx:51-54 | one option per server, in order, labelled `name (url)` and carrying that server as data |
| ApiServers.DataOfOptionsOf | src/ts/modules/metadata/providers/IGDB/IGDBApiServerComponent.tsx:51-54 | the data of the options is exactly the merged list they were made from |
| ApiServers.WithoutServer | src/ts/modules/metadata/providers/IGDB/IGDBApiServerComponent.tsx:155 | the removed object no longer occurs, and every other object keeps its number of occurrences |
| ApiServers.WithoutServerConcat | src/ts/modules/metadata/providers/IGDB/IGDBApiServerComponent.tsx:155 | removal works piecewise over a concatenation, so the rest keeps its order |
| ApiServers.WithoutServerAbsent | src/ts/modules/metadata/providers/IGDB/IGDBApiServerComponent.tsx:155 | removing an object that is not in the list changes nothing |
| ApiServers.RemoveUndoesAppend | src/ts/modules/metadata/providers/IGDB/IGDBApiServerComponent.tsx:113-155 | removing the object just appended gives back the list before the append |
| ApiServers.ApiServerComponent.constructor | src/ts/modules/metadata/providers/IGDB/IGDBApiServerComponent.tsx:24-30 | the component starts from its `server` and `customServers` props with no options |
| ApiServers.ApiServerComponent.RefreshServerOptions | src/ts/modules/metadata/providers/IGDB/IGDBApiServerComponent.tsx:35-56 | a failed, timed-out or unparsable fetch leaves the official list empty; the options become the labelled merge of official, custom and current servers, and only the options change |
| ApiServers.ApiServerComponent.SelectServerOption | src/ts/modules/metadata/providers/IGDB/IGDBApiServerComponent.tsx:68-70 | the chosen option's server becomes the selection |
| ApiServers.ApiServerComponent.AddCustomServer | src/ts/modules/metadata/providers/IGDB/IGDBApiServerComponent.tsx:112-114 | a new entry with the typed name and url is appended, with no validation and no deduplication |
| ApiServers.ApiServerComponent.RemoveCustomServer | src/ts/modules/metadata/providers/IGDB/IGDBApiServerComponent.tsx:153-156 | that very object leaves the custom list, and the selection is cleared exactly when it is that object |
| ApiServers.AddThenRemoveCustomServer | src/ts/modules/metadata/providers/IGDB/IGDBApiServerComponent.tsx:112-156 | adding a custom server and then removing it restores both the custom list and the selection |
| IgdbProxy.NatToStringRoundTrip | backend/igdb_proxy/main.py:49-50 | the decimal text of a natural number passes `isdigit`, and `int` reads it back as that number |
| IgdbProxy.Get | backend/igdb_proxy/main.py:42-44 | no contract; properties in NonSteamRecordSkipped, SteamRecordContributes and Search |
| IgdbProxy.Truthy | backend/igdb_proxy/main.py:59 | no contract; properties in Search |
| IgdbProxy.IntToString | backend/igdb_proxy/main.py:47 | no contract; properties in NatToStringRoundTrip and StrIsOne |
| IgdbProxy.Str | backend/igdb_proxy/main.py:47 | no contract; properties in StrIsOne and QueryText |
| IgdbProxy.Lower | backend/igdb_proxy/main.py:47 | no contract; properties in NonSteamRecordSkipped |
| IgdbProxy.IsDigitString | backend/igdb_proxy/main.py:49 | no contract; properties in NatToStringRoundTrip and SteamRecordContributes |
| IgdbProxy.DigitsValue | backend/igdb_proxy/main.py:50 | no contract; properties in NatToStringRoundTrip and SteamCategoryRecordKept |
| IgdbProxy.StrIsOne | backend/igdb_proxy/main.py:47 | `str(category) == "1"` holds exactly for the integer 1, the string "1" and other values that print as 1 |
| IgdbProxy.IsSteamRecord | backend/igdb_proxy/main.py:45-48 | no contract; properties in NonSteamRecordSkipped, SteamRecordContributes and SteamCategoryRecordKept |
| IgdbProxy.UidAppId | backend/igdb_proxy/main.py:49-52 | no contract; properties in SteamRecordContributes |
| IgdbProxy.RecordAppId | backend/igdb_proxy/main.py:42-52 | no contract; properties in SteamAppIdsSingle, NonSteamRecordSkipped and SteamRecordContributes |
| IgdbProxy.SteamAppIds | backend/igdb_proxy/main.py:39-53 | at most one id per record; further properties in ExtractSteamAppIds and SteamAppIdsConcat |
| IgdbProxy.ExtractSteamAppIds | backend/igdb_proxy/main.py:39-53 | the loop returns the ids the records contribute, in record order, at most one per record |
| IgdbProxy.SteamAppIdsConcat | backend/igdb_proxy/main.py:41-53 | extraction works record by record: the ids of a concatenation are the concatenation of the ids |
| IgdbProxy.SteamAppIdsSingle | backend/igdb_proxy/main.py:41-52 | a single record contributes its app id, or nothing |
| IgdbProxy.NonSteamRecordSkipped | backend/igdb_proxy/main.py:45-48 | a record with neither source nor category, or with no Steam marker, contributes nothing |
| IgdbProxy.SteamRecordContributes | backend/igdb_proxy/main.py:49-52 | a Steam record contributes `int(uid)` for a digit string, an integer uid as it is, and nothing for any other uid |
| IgdbProxy.SteamCategoryRecordKept | backend/igdb_proxy/main.py:43-50 | a record with category 1 and a written-out number as uid contributes exactly that number |
| IgdbProxy.SettingsFromEnvironment | backend/igdb_proxy/main.py:10-13 | no contract; properties in EnvironmentCredentials |
| IgdbProxy.Configured | backend/igdb_proxy/main.py:19 | no contract; properties in IgdbHeaders and EnvironmentCredentials |
| IgdbProxy.EnvironmentCredentials | backend/igdb_proxy/main.py:10-20 | an unset `IGDB_BASE_URL` gives the public endpoint; the headers fail exactly when `IGDB_CLIENT_ID` or `IGDB_AUTH_TOKEN` is unset or empty, and otherwise carry those two values |
| IgdbProxy.IgdbHeaders | backend/igdb_proxy/main.py:18-26 | a 500 "IGDB credentials not configured" exactly when the client id or the token is unset or empty; otherwise exactly the four headers with their values |
| IgdbProxy.LStripSlashes | backend/igdb_proxy/main.py:30 | the result is a suffix of the path that does not start with a slash |
| IgdbProxy.LStripSlashesRemovesSlashes | backend/igdb_proxy/main.py:30 | everything the strip removed is a slash |
| IgdbProxy.RequestUrl | backend/igdb_proxy/main.py:30 | the url is the base url, one slash, and the stripped path |
| IgdbProxy.RequestUrlShape | backend/igdb_proxy/main.py:30 | after the base url and its slash comes a suffix of the path that does not start with a slash, preceded in the path by slashes only |
| IgdbProxy.LStripSlashesIgnoresLeading | backend/igdb_proxy/main.py:30 | any number of extra leading slashes strips to the same result |
| IgdbProxy.RequestUrlIgnoresLeadingSlashes | backend/igdb_proxy/main.py:30 | any number of leading slashes on the path leads to the same url |
| IgdbProxy.IgdbPost | backend/igdb_proxy/main.py:29-36 | missing credentials fail with 500 before anything is sent; otherwise exactly one POST with the four headers goes to the request url, and its decoded answer is the result or an unreachable upstream becomes 502 "IGDB request failed: …" |
| IgdbProxy.QueryText | backend/igdb_proxy/main.py:61-73 | the games query starts with `search "` and the title's `str`; the external-games query asks for uid, source and category of the game's `str` id and ends with `;` |
| IgdbProxy.ExternalGamesPost | backend/igdb_proxy/main.py:70-73 | no contract; properties in AnnotateGame |
| IgdbProxy.FirstAppId | backend/igdb_proxy/main.py:76 | no contract; properties in AnnotateGame |
| IgdbProxy.AnnotateError | backend/igdb_proxy/main.py:69-73 | no contract; properties in AnnotateGame, AnnotateGames and Search |
| IgdbProxy.AnnotateGame | backend/igdb_proxy/main.py:69-76 | a game without `id` fails with 500 before anything is sent; otherwise one external-games request is sent, its failure is the error, and on success the game gets its extracted ids and the first of them or none |
| IgdbProxy.AnnotateGames | backend/igdb_proxy/main.py:69-76 | the loop succeeds exactly when no game raises; then every game is annotated in order from its own request, one request per game; otherwise the error is that of the first game that raises |
| IgdbProxy.Search | backend/igdb_proxy/main.py:56-77 | a falsy title fails with 400 and missing credentials with 500, both before any request; a failed games request is the error; otherwise the search succeeds exactly when no game raises, and fails with the error of the first game that does; on success every game found is returned in order, annotated from its own external-games request, after one games request and one request per game |
| RoutePatches.OptionalMember | src/ts/RoutePatches.tsx:9-10 | `v?.key` is undefined on a nullish value and throws only from a throwing getter |
| RoutePatches.OptionalChain | src/ts/RoutePatches.tsx:9-10 | a chain of optional accesses short-circuits to undefined on a nullish start |
| RoutePatches.MatchParamsAppId | src/ts/RoutePatches.tsx:9 | no contract; properties in ExtractAppIdFallback and ExtractAppIdPrefersMatch |
| RoutePatches.ParamsAppId | src/ts/RoutePatches.tsx:10 | no contract; properties in ExtractAppIdFallback |
| RoutePatches.ExtractAppId | src/ts/RoutePatches.tsx:8-11 | an extracted app id is never nullish |
| RoutePatches.ExtractAppIdFallback | src/ts/RoutePatches.tsx:8-11 | the app id is `match.params.appid` when not nullish, else `params.appid` when not nullish, else "unknown"; extraction throws exactly when an evaluated path throws |
| RoutePatches.ExtractAppIdOfBareProps | src/ts/RoutePatches.tsx:8-11 | nullish props, or props lacking both `match` and `params`, give "unknown" |
| RoutePatches.ExtractAppIdPrefersMatch | src/ts/RoutePatches.tsx:8-11 | with both paths present, the route's `match.params.appid` wins |
| RoutePatches.WrappedPatch.Call | src/ts/RoutePatches.tsx:6-17 | the wrapper answers exactly `patch(props)`; it logs one line with the path and app id exactly when extraction and the console succeed, and nothing otherwise |
| RoutePatches.WrapperIsTransparent | src/ts/RoutePatches.tsx:7-16 | whatever the props and the console do, the answer is the patch's, and a throwing extraction logs nothing |
| RoutePatches.Remove | src/ts/RoutePatches.tsx:24 | the removed patch no longer occurs, and every other patch of the list stays |
| RoutePatches.WithPatch | src/ts/RoutePatches.tsx:21 | the patch is registered under the path, appended when new and unchanged when already there, and every other path keeps its list |
| RoutePatches.WithoutPatch | src/ts/RoutePatches.tsx:24 | the patch leaves the path's list, the path leaves the table when its list becomes empty, and every other path keeps its list |
| RoutePatches.WithPatchValid | src/ts/RoutePatches.tsx:21 | adding keeps every list non-empty and free of repeats |
| RoutePatches.WithoutPatchValid | src/ts/RoutePatches.tsx:24 | removing keeps every list non-empty and free of repeats |
| RoutePatches.WithoutPatchUndoesWithPatch | src/ts/RoutePatches.tsx:21-24 | removing a patch just added where it was not registered gives back the table |
| RoutePatches.WithoutPatchAbsent | src/ts/RoutePatches.tsx:24 | removing a patch that is not registered under the path leaves the table as it is |
| RoutePatches.RouterHook.constructor | src/ts/RoutePatches.tsx:21-24 | the host router starts with an empty, valid patch table |
| RoutePatches.RouterHook.AddPatch | src/ts/RoutePatches.tsx:21 | the table becomes the table with the patch added, and stays valid |
| RoutePatches.RouterHook.RemovePatch | src/ts/RoutePatches.tsx:24 | the table becomes the table with the patch removed, and stays valid |
| RoutePatches.RoutePatchMountable.Mount | src/ts/RoutePatches.tsx:20-22 | the wrapper, not the caller's patch, is added under the path, and the table stays valid |
| RoutePatches.RoutePatchMountable.Dismount | src/ts/RoutePatches.tsx:23-25 | the very wrapper Mount added is removed from the path, and the table stays valid |
| RoutePatches.RoutePatch | src/ts/RoutePatches.tsx:4-27 | a fresh wrapper of the patch for the path, and a mountable over it |
| RoutePatches.DismountUnmounted | src/ts/RoutePatches.tsx:23-25 | dismounting a route patch that was never mounted leaves the router's table as it was |
| RoutePatches.MountThenDismount | src/ts/RoutePatches.tsx:19-25 | creating a route patch, mounting and dismounting it leaves the router's table as it was |
| MobxRuntime.Mobx.Configure | src/ts/deckyMobx.ts:22 | each `configure` call is logged with its options |
| DeckyMobx.GetMobx | src/ts/deckyMobx.ts:8-14 | the host's MobX when `window.mobx` is set, otherwise the error "[MetaDeck] window.mobx is not available. Decky did not provide MobX globally." |
| DeckyMobx.EvaluateModule | src/ts/deckyMobx.ts:18-27 | without a host MobX the evaluation throws and changes nothing; otherwise the flag ends set, `configure({isolateGlobalState: true, enforceActions: "never"})` is called exactly when the flag was clear and `configure` is a function, and the export is the host's `runInAction` |
| DeckyMobx.EvaluateRepeatedly | src/ts/deckyMobx.ts:20-25 | any number of evaluations over one window configure the host's MobX at most once, and only if the flag was clear |
| MobxIsolation.MobxModule.Load | src/ts/mobx.ts:3-14 | loading the module leaves the flag set after exactly one `configure({isolateGlobalState: true})` |
| MobxIsolation.MobxModule.InitMobxIsolation | src/ts/mobx.ts:5-12 | configures once while the flag is clear and never again; the flag is set afterwards |
| MobxIsolation.LoadThenInitAgain | src/ts/mobx.ts:5-14 | further calls after load configure nothing |
| MobxIsolation.LoadTwice | src/ts/mobx.ts:3-14 | the guard is per module instance: two loaded instances over one MobX configure it twice |

## Left out

- Rendering: the fields, text boxes, the dropdown's button text and the layout of the component are not modelled. Neither is the `logger.warn` on a failed fetch.
- The effect's asynchrony: the model runs the refresh to completion. Overlapping refreshes, and a stale result arriving after the props changed, are not modelled.
- The timer of the race is never cleared, and its rejection after a won race goes unobserved. Neither is modelled.
- ApiServers.OfficialEntries: takes the name/url pairs in the order `Object.entries` lists them, and assumes every value is a string. A JSON value that is not a string would still be copied into `url`; the model does not capture that.
- ApiServers.ApiServerComponent: the parent is assumed to store what the component hands to `onServerChange` and `onCustomServersChange` as the new props. The parent's code is not part of this model.
- IgdbProxy.UidAppId: Python appends a boolean uid as `True` or `False` itself, since `bool` is a subtype of `int`. The model writes these as the integers 1 and 0.
- IgdbProxy.IsDigitString: models `str.isdigit` and `str.lower` on ASCII only. Python's `isdigit` also accepts other Unicode digits, on some of which `int` raises. That failure path is not modelled.
- IgdbProxy.Str: `str()` is written out for None, booleans, integers and strings only. Any other value carries its own `str()` text and truth value.
- IgdbProxy.IgdbPost: the upstream answer is taken as already decoded.
  - A body that is not valid JSON is not modelled.
  - A decoded value that is not a list of objects is not modelled.
  - Exceptions other than `HTTPError` and `URLError` are not modelled.
  - The 502 detail uses the reason text as given, not Python's rendering of the exception.
  - The UTF-8 encoding of the body and the float timeout `IGDB_TIMEOUT_S` are not modelled.
- Requests: a request carries its query as a `Query` value, and `QueryText` gives the body text. The `.format` of the title is modelled as `str` of the title.
- IgdbProxy.Search: the JSON encoding of the response, and routing FastAPI's request to the handler, are left out. A `KeyError` on a game without `id` is modelled as FastAPI's 500 "Internal Server Error".
- The environment is read once, when the service starts. It is modelled by the `Settings` value that `SettingsFromEnvironment` builds.
- RoutePatches.WithPatch: the host router (Decky's `routerHook`) is not part of this model. Its `addPatch` and `removePatch` are modelled as a table from path to an insertion-ordered list of patch objects without repeats. A path is dropped when its list becomes empty. How the host renders a route through its patches is not modelled.
- Props: the props are JSON-like values whose properties may be throwing getters. Proxies, prototype chains and the properties of primitives are not modelled.
- RoutePatches.WrappedPatch.Call: the console is a parameter saying whether `console.log` throws. What the console prints is modelled as the returned log line.
- The MobX runtime: MobX's own behaviour under `configure` is not modelled. The runtime is a log of `configure` calls and the `runInAction` it exports.
- MobxIsolation.MobxModule.Load: requires the bundled MobX to export `configure`, which MobX 6 does.
- `src/ts/index.tsx`, `src/py/main.py`, `rollup.config.js` and `src/ts/mobx_shim.ts` are not part of this model.
