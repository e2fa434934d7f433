# Figma API dashboard — a Dafny model of its file-list logic

The dashboard lets a user browse the design files their Figma access token can
reach, discover files by URL or by team, and keep a personal list of files. This
project models the logic behind that in Dafny and proves properties of it:

- the list operations of the API client (`src/lib/figma-client.ts`): team
  listings gathered project by project, the "recent files first, then new team
  files" merge, thumbnail collection, file lookup by URL, and name search;
- the URL patterns that pull a file key or a team id out of a Figma URL;
- the server's per-client draft store (`/api/figma/user-drafts`), as a class
  over a map from client id to an ordered list of drafts, with `GET`, `POST`
  (`add`, `remove`, `clear`) and `DELETE`;
- the `team` and `verify` routes, with their checks, their order and their
  error statuses;
- the two browser hooks: the user's file list mirrored to local storage, and
  the access token with its server fallback;
- the drafts panel (`figma-drafts.tsx`) as a class: the combined list of the
  user's files and the API drafts, the "still mounted" guard, the auto-sync
  interval of which at most one is live, and the recent-files append. Its
  two simpler versions (`figma-drafts-new.tsx`, `figma-drafts-fixed.tsx`) are
  modelled too;
- the discovery page: a verify reply or a team listing turned into results, and
  adding a found file to the user's list;
- the sync indicator's elapsed-time text, colour, icon, label and badge.

Every remote call is a parameter of the operation that makes it. A lookup that
yields `None` or `Failure` stands for a request that threw or was rejected. The
server's token, the clock and the browser's local storage are parameters or
fields too. A draft (`FigmaDraft`) is a value with `key`, `name`,
`thumbnailUrl`, `lastModified`, `role`, `projectId` and `projectName`. An
absent optional string and the empty string are both falsy, as in JavaScript
(`Drafts.Truthy`).

Modules, one per file: `Wrappers` (Option, Result), `Text` (ASCII case,
trimming, slugs, decimal rendering), `UrlPatterns`, `Drafts` (the draft value
and the list operations every layer shares), `Search`, `FigmaClient`,
`UserDraftsRoute`, `UserFiles`, `FigmaToken`, `FigmaDrafts`, `FetchPanels`,
`TeamRoute`, `VerifyRoute`, `SyncStatus`, `Discovery`.

Three functions have no `ensures` of their own, because their properties are
lemmas:

- `FigmaClient.TeamFiles`, the concatenation of every project's contribution;
- `Drafts.AppendNew`, "append what is new";
- `FigmaDrafts.Combine`, the panel's combined list.

A few facts about the code that shape the model:

- The catch-all project label is "Mis Archivos".
- The file-key pattern requires `figma.com/` before `file/` or `design/`, so
  `https://host/file/ABC123/...` on any other host yields no key.
- The auto-sync interval re-runs the whole drafts fetch, merge included.

## Model

| member | source | states |
|---|---|---|
| Text.Lower | src/lib/figma-client.ts:152-154 | lower-casing keeps the length, maps each character through the ASCII case map and leaves no upper-case letter |
| Text.LowerIdempotent | src/lib/figma-client.ts:152-154 | lower-casing twice is lower-casing once |
| Text.Trim | src/app/discovery/page.tsx:68-71 | the trimmed text neither starts nor ends with whitespace |
| Text.TrimEmptyIff | src/app/discovery/page.tsx:68 | an input trims to the empty text exactly when it is all whitespace, which is when the page ignores it |
| Text.TrimSplits | src/app/discovery/page.tsx:68-71 | trimming only strips whitespace from both ends: the result is a slice of the input with whitespace only before and after it |
| Text.TrimIdempotent | src/app/discovery/page.tsx:68-71 | trimming a trimmed text changes nothing |
| Text.Slug | src/app/discovery/page.tsx:120-123 | the slug of a name has no whitespace and is no longer than the name |
| Text.SlugKeepsPlainText | src/app/discovery/page.tsx:120-123 | a name without whitespace is its own slug |
| Text.SlugCollapsesRun | src/app/discovery/page.tsx:120-123 | a whole run of whitespace becomes one `-` |
| Text.SlugIdempotent | src/app/discovery/page.tsx:120-123 | slugging a slug changes nothing |
| Text.FirstField | src/app/api/figma/user-drafts/route.ts:12 | the first comma-separated field: a prefix without commas that ends at the first comma or at the end |
| Text.NatToString | src/app/api/figma/user-drafts/route.ts:123 | a count renders as a non-empty string of digits |
| Text.NatToStringRoundTrip | src/app/api/figma/user-drafts/route.ts:123 | reading the rendered digits back gives the count |
| Text.NatToStringInjective | src/components/sync-status.tsx:34 | different counts render differently |
| UrlPatterns.Run | src/lib/figma-client.ts:216-218 | the `[A-Za-z0-9]+`/`[0-9]+` capture is the longest prefix of allowed characters |
| UrlPatterns.Leftmost | src/lib/figma-client.ts:216-218 | the position found is a match, and no earlier position matches |
| UrlPatterns.Extract | src/lib/figma-client.ts:216-224 | the capture is non-empty and all in class; no capture exactly when no position matches; a capture comes from some match |
| UrlPatterns.ExtractIsLeftmost | src/lib/figma-client.ts:216-224 | the capture is the one at the leftmost matching position |
| UrlPatterns.ExtractFileKey | src/lib/figma-client.ts:216-224 | a file key found is non-empty and alphanumeric |
| UrlPatterns.ExtractTeamId | src/lib/figma-client.ts:311-314 | a team id found is non-empty and all digits |
| UrlPatterns.RunOfPlain | src/lib/figma-client.ts:216-218 | the capture stops at the first character outside the class |
| UrlPatterns.NoHostNoMatch | src/lib/figma-client.ts:216-224 | a URL that does not contain `figma.com/` yields no key or id |
| UrlPatterns.FileKeyRoundTrip | src/lib/figma-client.ts:216-224 | the key of `https://www.figma.com/file/<key>…` or `…/design/<key>…` is `<key>` |
| UrlPatterns.TeamIdRoundTrip | src/lib/figma-client.ts:311-314 | the id of `https://www.figma.com/files/team/<id>…` is `<id>` |
| Drafts.WithDefaultProject | src/components/figma-drafts.tsx:69-72 | the project label becomes truthy: kept when truthy, otherwise "Mis Archivos"; the other fields are unchanged |
| Drafts.DropKeys | src/components/figma-drafts.tsx:73-76 | the list does not grow |
| Drafts.DropKeysMembers | src/components/figma-drafts.tsx:73-76 | the entries kept are exactly those whose key is not dropped |
| Drafts.DropKeysKeySet | src/components/figma-drafts.tsx:73-76 | the keys left are the old keys minus the dropped ones |
| Drafts.DropKeysNone | src/components/figma-drafts.tsx:73-76 | nothing is dropped when no key is dropped |
| Drafts.DropKeysAll | src/components/figma-drafts.tsx:275-283 | everything is dropped when every key is |
| Drafts.DropKeysShorter | src/app/api/figma/user-drafts/route.ts:100-103 | the list gets shorter exactly when one of its keys is dropped |
| Drafts.DropKeysAppend | src/components/figma-drafts.tsx:73-76 | dropping keeps the survivors in their order |
| Drafts.DropKeysUnique | src/components/figma-drafts.tsx:73-76 | dropping never creates a duplicate key |
| Drafts.RemoveKey | src/hooks/use-user-files.ts:44 | exactly the entries with another key are kept, so the key is gone afterwards, and the list is shorter exactly when it held the key |
| Drafts.PrependNew | src/hooks/use-user-files.ts:25-39 | adding yields the old keys plus the new one, one entry longer exactly when the key was new |
| Drafts.PrependNewIdempotent | src/hooks/use-user-files.ts:25-39 | adding the same draft twice is adding it once |
| Drafts.PrependNewUnique | src/hooks/use-user-files.ts:25-39 | adding keeps the keys unique |
| Drafts.AppendNewKeys | src/lib/figma-client.ts:342-351 | the merged list holds every key of either input |
| Drafts.AppendNewBaseWins | src/lib/figma-client.ts:342-351 | no entry after the base repeats a base key, so on a shared key the base entry wins |
| Drafts.AppendNewUnique | src/lib/figma-client.ts:342-351 | two lists without duplicate keys merge into one without |
| Drafts.AppendNewIdempotent | src/lib/figma-client.ts:342-351 | merging the same second list into the result again changes nothing, and neither does merging the result into the base again |
| Drafts.AppendNewNothingNew | src/components/figma-drafts.tsx:275-283 | when every key is already present, nothing is appended |
| Drafts.AppendNewOntoEmpty | src/lib/figma-client.ts:342-351 | with no recent files, the team files are taken whole, duplicates included |
| Search.Filter | src/components/figma-drafts.tsx:298-303 | the filter never grows the list |
| Search.FilterMembers | src/components/figma-drafts.tsx:298-303 | the filter keeps exactly the drafts whose name, or truthy project label, contains the query ignoring case |
| Search.FilterAppend | src/components/figma-drafts.tsx:298-303 | the filter keeps the survivors in their order |
| Search.FilterAllMatch | src/components/figma-drafts.tsx:298-303 | when every draft matches, nothing is removed |
| Search.FilterEmptyQuery | src/components/figma-drafts.tsx:298-303 | an empty search box shows every draft |
| Search.FilterCaseInsensitive | src/components/figma-drafts.tsx:298-303 | the query's letter case does not matter |
| FigmaClient.ImageParams | src/lib/figma-client.ts:90-93 | `ids` comes first and only once; `format` is present exactly when given; `scale` is present exactly when given and non-zero; `format` comes before `scale` |
| FigmaClient.Contribution | src/lib/figma-client.ts:260-293 | a project whose fetch failed adds nothing; otherwise it adds one entry per file |
| FigmaClient.ContributionSpec | src/lib/figma-client.ts:270-280 | a fetched project adds its files in order, each tagged with the project's id and name and the role "viewer" |
| FigmaClient.TeamFilesTagged | src/lib/figma-client.ts:270-280 | every listed file has the role "viewer" and carries the id and name of one of the team's projects |
| FigmaClient.TeamFilesAppend | src/lib/figma-client.ts:257-294 | the listing of more projects continues the listing of fewer |
| FigmaClient.TeamFilesSnoc | src/lib/figma-client.ts:257-294 | one more project at the end adds its contribution at the end of the listing |
| FigmaClient.TeamFilesSingle | src/lib/figma-client.ts:257-294 | the listing of one project is that project's contribution |
| FigmaClient.SkipsFailedProject | src/lib/figma-client.ts:287-293 | a project whose fetch fails contributes nothing, and the projects after it still do |
| FigmaClient.TeamFilesComplete | src/lib/figma-client.ts:257-294 | every file of every project that could be fetched is listed |
| FigmaClient.GetTeamFiles | src/lib/figma-client.ts:244-306 | a failed project listing is passed on; otherwise the loop's result is the ordered listing of every project |
| FigmaClient.GetAllAccessibleFiles | src/lib/figma-client.ts:319-362 | the recent files come first, unchanged, followed by the default team's files whose key is new; the keys are the union; a failed team listing adds nothing |
| FigmaClient.GetFileThumbnails | src/lib/figma-client.ts:185-208 | each key's image request asks for PNG at scale 1; a key has a thumbnail exactly when it was asked for and its request yielded a non-empty URL for it; that URL is the thumbnail |
| FigmaClient.VerifyFile | src/lib/figma-client.ts:165-180 | a draft exactly when the lookup succeeded, keyed by the key asked for, with the file's name, thumbnail, role and date and no project |
| FigmaClient.AddFileByUrl | src/lib/figma-client.ts:213-240 | no key means no draft; a draft is the verified file of the URL's key |
| FigmaClient.AddFileByUrlNoLookup | src/lib/figma-client.ts:220-222 | a URL without a key fails whatever the lookup would say |
| FigmaClient.AddFileByUrlOfCanonical | src/lib/figma-client.ts:213-240 | a design URL built from a key adds the file under that key |
| FigmaClient.SearchFiles | src/lib/figma-client.ts:147-159 | a failure is passed on; otherwise exactly the recent files whose name contains the query, ignoring case, as the ordered filter of the recent files |
| FigmaClient.SearchFilesKeepsOrder | src/lib/figma-client.ts:152-154 | the search keeps the recent files' order: searching two parts in sequence gives the first part's results, then the second's |
| UserDraftsRoute.GetUserId | src/app/api/figma/user-drafts/route.ts:8-16 | the first field of a non-empty `x-forwarded-for`, else a non-empty `x-real-ip`, else "default-user" |
| UserDraftsRoute.Status | src/app/api/figma/user-drafts/route.ts:52-143 | a reply is 200 exactly when it succeeded and 400 exactly for a bad request; otherwise it is 500 |
| UserDraftsRoute.ClearedMessageInjective | src/app/api/figma/user-drafts/route.ts:121-125 | the message of a clear tells how many drafts it removed |
| UserDraftsRoute.Apply | src/app/api/figma/user-drafts/route.ts:52-133 | `add` with no draft or key is a 400; `add` of a listed key changes nothing; `add` of a new key puts it in front, stamped with the current time and labelled with its own truthy project name or else "Mis Archivos", with the rest unchanged; `remove` with no key is a 400; `remove` drops the key and says whether it was there; `clear` empties the bucket and reports the old count; any other action is a 400 |
| UserDraftsRoute.ApplyKeepsUnique | src/app/api/figma/user-drafts/route.ts:52-133 | no action creates a duplicate key in a bucket |
| UserDraftsRoute.AddIdempotent | src/app/api/figma/user-drafts/route.ts:61-69 | adding the same draft again, at any later time, leaves the bucket as the first add did |
| UserDraftsRoute.RemoveIdempotent | src/app/api/figma/user-drafts/route.ts:91-113 | removing a key a second time removes nothing and reports it not found |
| UserDraftsRoute.DraftStore.constructor | src/app/api/figma/user-drafts/route.ts:6 | the store starts empty |
| UserDraftsRoute.DraftStore.Get | src/app/api/figma/user-drafts/route.ts:18-40 | the caller's drafts, or none; the store is not changed |
| UserDraftsRoute.DraftStore.Post | src/app/api/figma/user-drafts/route.ts:42-144 | a body that is not JSON is a 500 and changes nothing; otherwise only the caller's bucket changes, created when missing, and it becomes what `Apply` gives; keys stay unique |
| UserDraftsRoute.DraftStore.Delete | src/app/api/figma/user-drafts/route.ts:147-170 | the caller's bucket is emptied, and the reply names its old length |
| UserFiles.Loaded | src/hooks/use-user-files.ts:10-22 | a saved list is loaded; a missing or unparsable slot leaves the list as it was |
| UserFiles.UserFileList.constructor | src/hooks/use-user-files.ts:7-8 | an empty list, still loading |
| UserFiles.UserFileList.Load | src/hooks/use-user-files.ts:10-22 | the list becomes what the slot holds, storage is untouched, and loading ends in every case |
| UserFiles.UserFileList.AddUserFile | src/hooks/use-user-files.ts:24-40 | a listed key changes nothing and writes nothing; a new file goes in front and the new list is written when the write succeeds; keys stay unique; a reload shows the list |
| UserFiles.UserFileList.RemoveUserFile | src/hooks/use-user-files.ts:42-52 | every entry with the key is dropped, the rest keep their order, and the result is written |
| UserFiles.UserFileList.ClearAllFiles | src/hooks/use-user-files.ts:54-61 | the list is emptied and the slot removed |
| UserFiles.AddThenRemove | src/hooks/use-user-files.ts:24-52 | a file added and then removed is gone after a reload too |
| FigmaToken.TokenState.constructor | src/hooks/use-figma-token.ts:8-10 | no token, loading, no server token |
| FigmaToken.TokenState.HasToken | src/hooks/use-figma-token.ts:51 | a token is usable exactly when the user's own is non-empty or the server has one |
| FigmaToken.TokenState.Initialize | src/hooks/use-figma-token.ts:12-31 | the server's answer, when there is one, sets the server flag; the saved token is loaded either way; loading ends |
| FigmaToken.TokenState.SaveToken | src/hooks/use-figma-token.ts:36-39 | the token is stored and made current; afterwards a token is usable exactly when it is non-empty or the server has one |
| FigmaToken.TokenState.ClearToken | src/hooks/use-figma-token.ts:41-44 | the stored token is removed; afterwards only a server token counts |
| FigmaDrafts.UserOnly | src/components/figma-drafts.tsx:107-111 | the user's files in order, each keeping a truthy project label or else labelled "Mis Archivos", and otherwise unchanged |
| FigmaDrafts.UserOnlyKeys | src/components/figma-drafts.tsx:153-157 | labelling keeps the keys and their uniqueness |
| FigmaDrafts.CombineIsAppendNew | src/components/figma-drafts.tsx:68-77 | the panel's combined list is the client's "append what is new" merge of the labelled user files and the API drafts |
| FigmaDrafts.CombineProperties | src/components/figma-drafts.tsx:68-77 | the labelled user files come first; after them come only API drafts whose key no user file has, so a shared key shows the user's version; every key of either side is present, and so is every API draft with a new key |
| FigmaDrafts.CombineUnique | src/components/figma-drafts.tsx:68-77 | two lists without duplicate keys combine into one without |
| FigmaDrafts.CombineWithoutApi | src/components/figma-drafts.tsx:209-217 | with no API drafts the combined list is the user-files-only list |
| FigmaDrafts.RequestHeaders | src/components/figma-drafts.tsx:46-53 | the JSON content type, plus `x-figma-token` exactly when the token is truthy, and nothing else |
| FigmaDrafts.FailureMessage | src/components/figma-drafts.tsx:58-59 | a rejected reply shows its error or "Error al cargar los drafts"; a throw shows its message or "Error desconocido" |
| FigmaDrafts.UserFilesPlan | src/components/figma-drafts.tsx:143-164 | wait while user files load; fetch exactly when a token is usable and loaded; otherwise show the user files |
| FigmaDrafts.InitialPlanAgrees | src/components/figma-drafts.tsx:193-220 | the initial-load effect and the user-files effect decide alike in every state |
| FigmaDrafts.DraftsView.constructor | src/components/figma-drafts.tsx:21-31 | no drafts, loading, auto-sync on, no interval, mounted |
| FigmaDrafts.DraftsView.StartAutoSync | src/components/figma-drafts.tsx:167-183 | the old interval is cleared; a new one, with a fresh handle, is set exactly when auto-sync is on and a token is usable; at most one interval is live; a cleared handle is not reset; drafts, spinner, error, sync time, switch and mount flag are unchanged |
| FigmaDrafts.DraftsView.StopAutoSync | src/components/figma-drafts.tsx:185-191 | no interval is live and the handle is reset; nothing else changes |
| FigmaDrafts.DraftsView.ToggleAutoSync | src/components/figma-drafts.tsx:250-252 | the auto-sync switch flips, the one-interval invariant is kept, and nothing else changes |
| FigmaDrafts.DraftsView.RerunAutoSyncEffect | src/components/figma-drafts.tsx:222-231 | after the cleanup and the re-run at most one interval is live, and one is exactly when the user files and token are ready and auto-sync is on; it then has a fresh handle and the counter advances, otherwise the handle is reset and the counter kept |
| FigmaDrafts.DraftsView.Unmount | src/components/figma-drafts.tsx:234-239 | later results are ignored, no interval is left running, and the shown state is unchanged |
| FigmaDrafts.DraftsView.BeginFetch | src/components/figma-drafts.tsx:36-40 | the spinner turns on only when asked for, and the error is cleared |
| FigmaDrafts.DraftsView.CompleteFetch | src/components/figma-drafts.tsx:55-92 | once unmounted nothing changes; a success shows the combined list and records the sync time; a failure keeps the list and shows its message; the spinner goes off only if it was asked for |
| FigmaDrafts.DraftsView.ShowUserFiles | src/components/figma-drafts.tsx:143-164 | the list becomes the labelled user files, with the same keys |
| FigmaDrafts.DraftsView.AppendRecent | src/components/figma-drafts.tsx:254-296 | the recent files with new keys are appended after the shown ones; nothing changes when none is new, and the sync time is set when one is; keys stay unique |
| FigmaDrafts.RestartLeavesOneInterval | src/components/figma-drafts.tsx:222-231 | starting auto-sync twice still leaves at most one live interval |
| FigmaDrafts.ToggleRestartsAutoSync | src/components/figma-drafts.tsx:222-252 | a toggle and the effect run it causes leave at most one live interval, and one exactly when auto-sync was off before and the files and token are ready |
| FetchPanels.FixedGateIsStricter | src/components/figma-drafts-fixed.tsx:68-72 | the fixed panel fetches only where the new one would, and alike once the token has loaded |
| FetchPanels.PanelHeaders | src/components/figma-drafts-fixed.tsx:29-36 | the new panel sends no headers of its own; the fixed one sends the token exactly when it is truthy |
| FetchPanels.Panel.constructor | src/components/figma-drafts-new.tsx:10-12 | no drafts, loading, no error |
| FetchPanels.Panel.BeginFetch | src/components/figma-drafts-new.tsx:18-19 | the spinner turns on and the error is cleared |
| FetchPanels.Panel.CompleteFetch | src/components/figma-drafts-new.tsx:25-50 | a success shows the combined list; a failure keeps the list and shows its message; the spinner goes off |
| FetchPanels.Panel.Refresh | src/components/figma-drafts-new.tsx:54-58 | nothing happens while the awaited inputs load; otherwise a whole fetch runs and the spinner ends off |
| TeamRoute.ResolveTeam | src/app/api/figma/team/route.ts:17-34 | a truthy `teamId` wins; otherwise a truthy `teamUrl` must hold a team id; otherwise the request is a 400; a resolved id is non-empty |
| TeamRoute.MapTeamError | src/app/api/figma/team/route.ts:51-69 | a message containing "403" is a 403, else one containing "404" is a 404, else a 500, each with its own text |
| TeamRoute.TeamPost | src/app/api/figma/team/route.ts:5-71 | no server token is a 500 before the body is read; resolution errors are passed on; a listing succeeds exactly when the reply is found, and then `filesCount` is the number of files |
| TeamRoute.ForbiddenBeforeNotFound | src/app/api/figma/team/route.ts:51-62 | a message naming both codes is a 403 |
| TeamRoute.TeamIdWinsOverUrl | src/app/api/figma/team/route.ts:17-34 | when a team id is given, the URL makes no difference |
| TeamRoute.NoLookupOnRejectedInput | src/app/api/figma/team/route.ts:6-34 | a request rejected before the lookup gets the same reply whatever the listing would say |
| TeamRoute.TeamUrlResolves | src/app/api/figma/team/route.ts:19-27 | a canonical team URL alone resolves to its id |
| VerifyRoute.VerifyPost | src/app/api/figma/verify/route.ts:6-64 | checks in order: token (500), body (500), url (400), key (400), lookup (404); a verified file has the URL's key and is the looked-up file; an error is a 400, 404 or 500 |
| VerifyRoute.NoLookupBeforeChecks | src/app/api/figma/verify/route.ts:8-34 | until all checks pass the reply does not depend on the lookup |
| VerifyRoute.AgreesWithAddFileByUrl | src/app/api/figma/verify/route.ts:24-53 | with a token and a URL, the route verifies exactly the files `addFileByUrl` would add, as the same draft |
| SyncStatus.ElapsedBucket | src/components/sync-status.tsx:29-38 | the millisecond boundaries of each bucket: under a minute, one minute, 2 to 59 minutes, one hour, and whole hours from 2 on, each count floored |
| SyncStatus.RenderMinutesInjective | src/components/sync-status.tsx:34 | different minute counts read differently |
| SyncStatus.TimeSinceSync | src/components/sync-status.tsx:26-39 | no text without a last sync; otherwise the text of the elapsed bucket, which is "hace menos de 1 minuto" under a minute |
| SyncStatus.StatusColor | src/components/sync-status.tsx:41-46 | yellow exactly while loading, gray exactly with no sync yet, green exactly when auto-sync is on, and blue otherwise |
| SyncStatus.StatusLabel | src/components/sync-status.tsx:94-98 | "Sincronizando..." while loading, then "Sync: " and the elapsed text, then "Sin sincronizar" |
| SyncStatus.BadgeAgreesWithIcon | src/components/sync-status.tsx:67-104 | the "Auto" badge shows exactly when the pulsing icon does, and the colour is then green once there has been a sync |
| Discovery.FallbackKey | src/app/discovery/page.tsx:50-51 | empty exactly when the URL has no file key, and otherwise that key |
| Discovery.DiscoverFileByUrl | src/app/discovery/page.tsx:30-64 | accessible exactly on a verified reply, with that file's key and data; an error reply keeps the URL's own key and the error; a throw has no key |
| Discovery.DiscoveredKeyIsUrlKey | src/app/discovery/page.tsx:30-64 | whatever the verify route answers, the result's key is the URL's file key |
| Discovery.FinalTeamId | src/app/discovery/page.tsx:103 | the trimmed input, or the default team when it is blank; never empty |
| Discovery.PageRequestResolves | src/app/discovery/page.tsx:103-112 | the team route never answers the page that a team is required |
| Discovery.TeamFileUrlRoundTrip | src/app/discovery/page.tsx:118-124 | the link built for a team file leads back to its key, whatever its name |
| Discovery.TeamResults | src/app/discovery/page.tsx:118-132 | one accessible result per team file, in order, with its key, data and link |
| Discovery.AddPayload | src/app/discovery/page.tsx:83-89 | the draft added keeps the key, name and role and gets the current time and "Mis Archivos" |
| Discovery.AddToMyFiles | src/app/discovery/page.tsx:76-97 | the user's list gains the file in front when its key is new, and holds the key afterwards; the saved list is written only for a new key and a successful write; loading is unchanged |
| Discovery.DiscoveryPage.constructor | src/app/discovery/page.tsx:23-26 | an empty input, no results, not loading |
| Discovery.DiscoveryPage.ManualDiscovery | src/app/discovery/page.tsx:66-75 | a blank input changes nothing; otherwise the trimmed URL's result goes in front and the input is cleared |
| Discovery.DiscoveryPage.TeamDiscovery | src/app/discovery/page.tsx:99-148 | a team found replaces the results with its files; any other outcome keeps them; loading ends |

## Left out

- Network I/O, JSON parsing and HTTP framing: each remote reply is a parameter. A request that throws is `None` or `Failure`, and a body that does not parse is a separate case.
- `getRecentFiles` returns hard-coded sample drafts, so its result is an input (`recent`). `getUserTeams` and the other one-line client calls pass requests through and are not modelled.
- Search over the `q` parameter of the drafts fetch: the route it calls is not part of this model, so the query is not modelled.
- Rendering of `URLSearchParams`, `encodeURIComponent` and ISO dates: parameters are a list of typed values and times are strings or milliseconds.
- FigmaClient.ImageParams: a `scale` is a real number, so the falsy `NaN` case of JavaScript numbers is not represented.
- Text: case mapping, whitespace and `\s` are ASCII only. JavaScript's Unicode case folding and Unicode whitespace are not modelled.
- Timers and rendering: `setTimeout` delays, the highlight and scroll timers of the new-file effect, the alerts, the icon markup and CSS classes. The interval is a handle in a set of live timers.
- FigmaDrafts.DraftsView.AppendRecent: `testRecentFiles` filters against the `drafts` captured when it started but appends to the latest list. The model assumes no other update happens in between, and other concurrent interleavings of fetches are not modelled either.
- UserFiles.UserFileList.Load: a saved JSON value that parses but is not an array of drafts is treated like a list; the model only separates a list from unparsable text.
- TeamRoute.MapTeamError: a thrown value is modelled by its message, so the route's `instanceof Error` guard is not represented; a thrown non-`Error` whose text contains "403" or "404" would get a 500 in the route but a 403 or 404 in the model.
- The client id taken from `x-forwarded-for` can be spoofed, and the per-client buckets are lost when the process restarts. Neither is a property of the code's logic. The server store is a plain object keyed by that id, so ids such as `__proto__` or `constructor` would not behave like ordinary keys; the model's map treats every id alike.
- Other files of the repository are not part of this model: the pass-through routes (`drafts`, `files`, `projects`, `recent`, `teams`, `thumbnail`, `user`, `server-token`, `test`), the diagnostics page, the remaining UI components and the tests.
