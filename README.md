# Roblox ranking API — a Dafny model

This project models the core of the Roblox Ranking API, an Express service that
changes a Roblox group member's rank through the Roblox Open Cloud API. The
model covers:

- the two TTL caches of `cache.js`: memberships for 300 s and roles for 600 s;
- the Open Cloud calls of `roblox-api.js`: the membership lookup, the paged
  role search that follows `nextPageToken`, and the rank-change PATCH;
- the API-key gates of `middleware/keyAuth.js`;
- the webhook-system lookup of `middleware/proxyValidator.js`;
- the request handling of `server.js`: the Joi body check, the cache-aside
  `/update-rank` handler, the notification retry loop `sendWithRetry`, the
  username fallback, the `/clear-cache` and `/metrics` routes, and the
  process-wide `metrics` and `totalRequests` counters.

The handler is modelled exactly as the JavaScript binds its calls. Everything
outside the process is an input of the model: each upstream answer, the
webhook's answer to each attempt, the clock (`now`, in milliseconds) and the
environment. The modules are:

| module | file | models |
|---|---|---|
| `Js` | `js.dfy` | JavaScript semantics the core relies on: `undefined`/truthiness, `${n}`, `String.replace`, `split("/").pop()`, `toUpperCase` |
| `RobloxApi` | `roblox_api.dfy` | `roblox-api.js` |
| `Cache` | `cache.dfy` | `cache.js` (class `Caches` holds the two stores) |
| `KeyAuth` | `key_auth.dfy` | `middleware/keyAuth.js` |
| `ProxyValidator` | `proxy_validator.dfy` | `middleware/proxyValidator.js` |
| `Server` | `server.dfy` | `server.js` (class `Service` holds the process state) |

`Server.HandleUpdateRank` is the specification of one `/update-rank` request.
`Server.Service.UpdateRank` carries out the same steps imperatively on the
`Caches` object and is proved equal to it. `RobloxApi.FetchRoleByRank` is the
do/while loop over role pages, proved equal to the recursive `RobloxApi.Walk`.
`Server.SendWithRetry` is the attempt loop, proved to produce a trace that
satisfies `Server.RetryTrace`.

### Where the code and its description differ (the model follows the code)

- `getMembership(GROUP_ID, userId)` and `getRoleByRank(GROUP_ID, rank)` pass
  two arguments to one-parameter functions. Both stores are therefore read
  under the group id alone, not under a (group, user) or (group, rank) key.
- `saveMembership(GROUP_ID, parsedUserId, parsedMembershipId)` stores the
  parsed user id under the group id and returns `undefined`. After that, a
  request for any user within 300 s is a membership hit, and its cached
  "membership id" is that user id (`Server.LaterRequestsHitForAnyUser`).
  There are two exceptions. If the record's `user` is just `users/`, the
  stored value is `""`, which is falsy, so the next request misses again
  (`Server.EmptyUserIdMissesAgain`). A `/clear-cache` in between also
  empties the store.
- `saveRoleByRank` is imported, but `cache.js` does not export it. A role
  found upstream therefore ends the request in 500 "Internal server error",
  and nothing ever writes the role store. A new process starts with an empty
  role store, and every `Service` method keeps it empty
  (`Server.Service.RoleStoreEmpty`). With an empty role store `updateRank`
  is never reached (`Server.EmptyRoleStoreNeverUpdates`, and the
  corresponding clause of `Server.Service.UpdateRank`).
- The role search throws when no page holds the rank. That answer is 500,
  not 404: the `!role` 404 branch is unreachable (`Server.NeverRoleNotFound404`).
- The search stops only when `nextPageToken` is exactly `""`. If a page has
  no token, the first page is requested again, so the request may never be
  answered (`RobloxApi.AbsentTokenRestarts`).
- A membership record missing `user` or `path` makes `.replace`/`.split`
  throw. That answer is 500, not 404 (`Server.StoppedMissStep`).
- The retry jitter is `Math.floor(Math.random() * 500)`, which lies in
  [0, 499].

## Model

| member | source | states |
|---|---|---|
| RobloxApi.MembershipUrl | roblox-api.js:14 | the membership query URL, filtered to `users/<userId>`; `MembershipUrlNamesOneUser` shows it determines the user |
| RobloxApi.MembershipUrlNamesOneUser | roblox-api.js:14 | the membership query URL determines the user id it filters on: different users give different URLs |
| RobloxApi.FetchMembership | roblox-api.js:13-19 | a failed request throws; an empty `groupMemberships` gives no membership; otherwise the first record is returned |
| RobloxApi.RolesUrl | roblox-api.js:22 | the first-page roles URL `<BASE_URL>/<groupId>/roles?maxPageSize=100`; `RolesRequestUrlCarriesToken` proves a falsy token asks for exactly this URL |
| RobloxApi.RolesRequestUrl | roblox-api.js:22-26 | the roles URL, with `&pageToken=<token>` appended only for a truthy token; its properties are in `RolesRequestUrlCarriesToken` |
| RobloxApi.RolesRequestUrlCarriesToken | roblox-api.js:26 | a missing or empty token asks for the first page; a truthy token changes the URL and can be read back from it |
| RobloxApi.Find | roblox-api.js:28 | no role exactly when no listed role has the rank (strict equality); otherwise the first listed role with that rank |
| RobloxApi.Walk | roblox-api.js:21-37 | the search as a recursive function over pages, with at most `fuel` requests; its properties are `WalkShape`, `WalkChain`, `FoundIsFirstMatch`, `MatchlessChainEndsNotFound` and `AbsentTokenRestarts` |
| RobloxApi.FetchRoleByRank | roblox-api.js:21-37 | the page loop sends exactly the requests of `Walk` and ends with its outcome: a found role, an exhausted list, a failed request, or still searching when the request bound runs out |
| RobloxApi.WalkFollowsTokens | roblox-api.js:21-37 | the search sends at most `fuel` requests, the first for the starting token; each further request follows a matchless page whose token is not `""` and uses that token; the last page decides the outcome; a search that never ends uses every request. It is the single lemma that combines `WalkShape` and `WalkChain`, which are its two halves |
| RobloxApi.WalkShape | roblox-api.js:21-37 | the search sends at most `fuel` requests, and none exactly when there is no fuel; the first request uses the starting token; the last page decides the outcome |
| RobloxApi.WalkChain | roblox-api.js:26-34 | each request after the first follows a matchless page whose token is not `""`, and carries that page's token |
| RobloxApi.FoundIsFirstMatch | roblox-api.js:28-31 | a found role has the requested rank; no earlier page held that rank; the role is the first of its rank on its page |
| RobloxApi.MatchlessChainEndsNotFound | roblox-api.js:26-36 | pages without the rank, chained by their tokens and ending with token `""`, give "Role not found" after exactly one request per page, with token-bearing URLs |
| RobloxApi.AbsentTokenRestarts | roblox-api.js:26-34 | a matchless first page without a token makes the loop request the first page again and again, so the search never ends |
| RobloxApi.UpdateRankRequest | roblox-api.js:39-44 | the PATCH as `updateRank` builds it: URL `<base>/<group>/memberships/<membershipId>`, `user` `users/<userId>`, `role` `groups/<group>/roles/<roleId>`, with `undefined` rendered as "undefined"; its properties are the next two rows |
| RobloxApi.UpdateRankRequestNamesItsTargets | roblox-api.js:39-44 | the URL starts with the base URL and its last segment is the membership id; `user` starts with `users/` and the rest is the user id; `role` starts with `groups/` and its last segment is the role id |
| RobloxApi.UpdateRankRequestInjective | roblox-api.js:39-44 | equal PATCH requests name the same group, membership id, user and role id, so the request determines all four |
| Cache.Lookup | cache.js:6-8 | node-cache `get`: the stored value while `now` is at most its expiry, otherwise nothing; its properties are `SavedValueLivesForTtl` and `PutLeavesOtherKeys` |
| Cache.Put | cache.js:10-12 | node-cache `set` with the store's TTL; its properties are `SavedValueLivesForTtl` and `PutLeavesOtherKeys` |
| Cache.PutRoles | cache.js:18-20 | one `set` per listed role, in list order, keyed by the rank's decimal text; its properties are `PutRolesLastWins` and `PutRolesFrame` |
| Cache.Caches.constructor | cache.js:3-4 | the two `new NodeCache` stores start empty |
| Cache.Caches.GetMembership | cache.js:6-8 | `getMembership(key)`: `Lookup` on the membership store |
| Cache.Caches.GetRoleByRank | cache.js:14-16 | `getRoleByRank(key)`: `Lookup` on the role store |
| Cache.SavedValueLivesForTtl | cache.js:3-4 | a saved value is returned until its TTL has run out and is absent afterwards |
| Cache.SavedMembershipLivesFor300s | cache.js:3-12 | a saved membership value is returned for 300 s under its key, then it is gone |
| Cache.PutLeavesOtherKeys | cache.js:10-12 | a save changes no other key |
| Cache.PutRolesLastWins | cache.js:18-20 | after `saveRoles`, each rank's key holds the id of the last listed role of that rank, with a 600 s expiry |
| Cache.PutRolesFrame | cache.js:18-20 | `saveRoles` changes no key that is not a listed rank's key |
| Cache.SavedRoleLivesFor600s | cache.js:4-20 | a role saved by `saveRoles` is returned for its rank for 600 s, then it is gone |
| Cache.Caches.SaveMembership | cache.js:10-12 | the membership store gains the entry and the role store is unchanged |
| Cache.Caches.SaveRoles | cache.js:18-20 | the `forEach` loop leaves the role store equal to `PutRoles` of the list and the membership store unchanged |
| Cache.Caches.ClearAllCaches | cache.js:22-25 | both stores are emptied, and every later lookup misses |
| KeyAuth.TimingSafeEqual | middleware/keyAuth.js:8 | `crypto.timingSafeEqual` on buffers of equal length: true exactly when they agree at every byte |
| KeyAuth.SafeCompare | middleware/keyAuth.js:3-9 | true exactly when both keys are present, non-empty and equal byte for byte |
| KeyAuth.SafeCompareSymmetric | middleware/keyAuth.js:3-9 | the result does not depend on argument order |
| KeyAuth.SafeCompareLengths | middleware/keyAuth.js:7 | keys of different lengths never match |
| KeyAuth.AccessKeyAuth | middleware/keyAuth.js:11-17 | a request passes exactly when its `x-access-key` is non-empty and equals `ACCESS_API_KEY`; otherwise 403 |
| KeyAuth.AdminKeyAuth | middleware/keyAuth.js:19-25 | a request passes exactly when its `x-admin-key` is non-empty and equals `ADMIN_API_KEY`; otherwise 403 |
| KeyAuth.UnsetKeyRejectsAll | middleware/keyAuth.js:4 | with the key unset or empty, both gates refuse every request |
| ProxyValidator.WebhookKey | middleware/proxyValidator.js:4 | the variable name `DISCORD_WEBHOOK_${system}` for the upper-cased system name; `CaseInsensitive` proves that names differing only in letter case consult the same variable |
| ProxyValidator.Validate | middleware/proxyValidator.js:1-12 | the request proceeds exactly when the system name is non-empty and `DISCORD_WEBHOOK_<NAME>` is set and non-empty, and then that variable's value is the webhook URL |
| ProxyValidator.CaseInsensitive | middleware/proxyValidator.js:2 | system names that differ only in letter case get the same outcome |
| Js.NatToDecimal | roblox-api.js:14 | `${userId}` renders a non-negative number as at least one decimal digit and nothing else, with a single digit exactly for numbers below 10 |
| Js.IntToDecimal | cache.js:19 | the rank key `role.rank` as node-cache's object key: a leading `-` exactly for a negative rank, then decimal digits |
| Js.NatToDecimalSpells | roblox-api.js:14 | read left to right, `${n}` spells exactly `n`, and it has no leading zero |
| Js.IntToDecimalSpells | cache.js:19 | after its optional `-`, the rank key spells the rank's magnitude, with no leading zero |
| Js.NatToDecimalInjective | roblox-api.js:14 | different numbers render as different decimal texts |
| Js.IntToDecimalInjective | cache.js:19 | different ranks give different cache keys |
| Js.Truthy | server.js:116 | JavaScript truthiness of a string-or-undefined: `undefined` and `""` are falsy; it is the test at server.js:116 and 135, roblox-api.js:26, middleware/proxyValidator.js:4 and middleware/keyAuth.js:4, and `EmptyUserIdMissesAgain` shows its effect on the membership step |
| Js.Render | roblox-api.js:42-43 | a template literal `${v}` renders `undefined` as the text "undefined"; `CachedRolePatch` shows the PATCH naming role "undefined" this way |
| Js.RemoveFirst | server.js:126 | `replace` with a string pattern removes only the first occurrence; its property is `RemoveLeadingPattern` |
| Js.RemoveLeadingPattern | server.js:126 | removing a leading `users/` gives back the rest of the reference |
| Js.LastSegment | server.js:127 | the result is the part after the last `/`, and it contains no `/` |
| Js.LastSegmentAfterSlash | server.js:127 | the segment after a final `/` is returned as it is |
| Js.ToUpperCase | middleware/proxyValidator.js:2 | `toUpperCase` on ASCII letters; the property the service relies on is `Js.UpperCaseIgnoresCase` |
| Js.UpperCaseIgnoresCase | middleware/proxyValidator.js:2 | `toUpperCase` maps strings that differ only in letter case to the same string |
| Server.FetchUsername | server.js:78-89 | the looked-up name, or `UserId <id>` when the lookup fails; its properties are `FallbackNamesUser` and `LookedUpNameWins` |
| Server.FallbackNamesUser | server.js:87 | the fallback starts with `UserId `, and different users get different fallbacks |
| Server.LookedUpNameWins | server.js:84 | a successful lookup's name is used as it is |
| Server.RankChangeContent | server.js:163 | the notification text, with `undefined` rendered as "undefined"; `CachedRolePatch` states the text the handler sends |
| Server.FirstAccepted | server.js:61-65 | the first attempt the webhook accepts: every earlier attempt fails |
| Server.SendWithRetry | server.js:60-76 | attempts are numbered from 1 and alternate with pauses of `delayMs` plus a jitter below 500 ms; delivery stops at the first success or after `maxAttempts` attempts; it reports success exactly when the last attempt succeeded |
| Server.AlternatingCounts | server.js:61-73 | a trace of alternating attempts and pauses has one more attempt than pauses |
| Server.StopsAtFirstSuccess | server.js:61-65 | if attempt k is the first accepted one, exactly k POSTs and k−1 pauses are made, and the last POST succeeds |
| Server.AllAttemptsFail | server.js:66-75 | if every attempt fails, `maxAttempts` POSTs and `maxAttempts`−1 pauses of at least `delayMs` are made, and failure is reported |
| Server.PausesFollowFailures | server.js:68-71 | a pause follows only a failed attempt that was not the last one, and at most `maxAttempts` POSTs are made |
| Server.Validate | server.js:101-109 | the body is accepted exactly when `userId` is a positive safe integer, `rank` is an integer in 1..254, and there are no other keys; the accepted values are the body's |
| Server.UpdateRankRoute | server.js:100-170 | the route: `accessKeyAuth`, then `HandleUpdateRank`; its properties are `ForbiddenChangesNothing`, `NeverRoleNotFound404`, `CountersOnlyGrow` and `EmptyRoleStoreNeverUpdates` |
| Server.HandleUpdateRank | server.js:101-170 | one request after the key gate, with the calls bound as written; its properties are the handler lemmas below, and `Service.UpdateRank` is proved equal to it |
| Server.MissReply | server.js:138-146 | after a role miss, the search that never ends never replies and every other outcome answers 500: a failed GET or "Role not found" throws, and a found role passes the `!role` test and reaches the missing `saveRoleByRank`; the 404 "Role not found" is never the answer |
| Server.ResolveRole | server.js:132-165 | the handler from the role lookup on; its properties are `ResolveRoleCountsOnce`, `RoleMissNeverUpdates` and `CachedRolePatch` |
| Server.ForbiddenChangesNothing | server.js:100 | a refused access key is answered 403, changes no hit/miss counter and no store, and sends no upstream request; the request is still counted in `totalRequests` by the middleware that runs first (see `Server.Service.UpdateRank`) |
| Server.InvalidBodyChangesNothing | server.js:106-109 | an invalid body is answered 400 before any cache access, counter change or upstream request |
| Server.OneMembershipCount | server.js:114-120 | a valid request counts exactly one membership hit or miss, read under `GROUP_ID`; a miss, and only a miss, sends the membership GET for the requested user |
| Server.MembershipNotFoundStopsEarly | server.js:120-124 | a miss with no membership upstream is answered 404 "Membership not found" with no role lookup, no PATCH and no store change |
| Server.StoppedMissStep | server.js:118-127 | a miss whose lookup fails, finds nothing or returns a record without `user` or `path` stops after the membership GET, with one miss counted, no store change and no role lookup; only an empty membership list answers 404 "Membership not found", while a failed GET or a record without `user` or `path` answers 500 |
| Server.MissStoresUserIdUnderGroup | server.js:126-129 | after a miss, the store holds the parsed user id under the group id alone, for 300 s |
| Server.RoleMissNeverUpdates | server.js:132-148 | a role-cache miss counts one role miss, sends exactly the search's requests, and never sends the PATCH: a found role, an exhausted list or a failed request ends in 500, and an endless search never answers |
| Server.NeverRoleNotFound404 | server.js:142-144 | no request is ever answered 404 "Role not found": `fetchRoleByRank` resolves only with a found role, which passes the `!role` test modelled in `MissReply` |
| Server.CountersOnlyGrow | server.js:114-148 | the counters never decrease, and each request adds at most one membership count and at most one role count |
| Server.ResolveRoleCountsOnce | server.js:132-148 | the role step counts exactly one role hit or miss and no membership count |
| Server.EmptyRoleStoreNeverUpdates | server.js:132-150 | with an empty role store, no request sends the PATCH or succeeds |
| Server.LaterRequestsHitForAnyUser | server.js:114-129 | after a miss that stored a non-empty user id, the next valid request within 300 s is a membership hit with no membership GET, whatever user it names |
| Server.EmptyUserIdMissesAgain | server.js:116-129 | a record whose `user` is just `users/` stores `""`, which is falsy, so the next request counts another miss and repeats the membership GET |
| Server.CachedRolePatch | server.js:135-165 | on a role-cache hit, the PATCH names the cached membership value and an `undefined` role id; success is answered exactly when the PATCH succeeds; a notification follows exactly when the webhook is set, and it names the user (or `UserId <id>`) and an `undefined` role |
| Server.ExampleSearch | roblox-api.js:21-37 | a worked search: the token leads to the second page, where the role is found after two requests |
| Server.ExampleFirstRequest | server.js:113-168 | a worked first request on a fresh process: a miss stores "111" under "42", the search finds the role, and the answer is 500 with no PATCH |
| Server.ExampleSecondRequest | server.js:113-168 | a worked second request for another user: a hit with no membership GET, and again 500 |
| Server.Service.UpdateRank | server.js:100-170 | the route counts the request, then acts as `UpdateRankRoute` does on the caches and counters; it never writes the role store; a notification is delivered exactly when one is due, and its trace satisfies the retry specification with 10 attempts and 2500 ms; with the role store empty, it stays empty and no PATCH, success or notification happens |
| Server.Service.Route | server.js:100-131 | once the request is counted, the key gate, the body check and the membership step act as `UpdateRankRoute` does on the membership store and the counters, the role store is left as it was, and a notification is delivered exactly when one is due |
| Server.Service.ResolveRoleStep | server.js:132-165 | the role step acts as `ResolveRole` does: it counts one role hit or miss, searches on a miss, and on a hit sends the PATCH and, when the webhook is set, a notification whose trace satisfies the retry specification |
| Server.Service.ClearCache | server.js:192-195 | behind the admin gate, both stores are emptied and the hit/miss counters are kept; otherwise 403 and nothing changes; the request is counted; an empty role store stays empty |
| Server.Service.GetMetrics | server.js:182-190 | behind the admin gate, the reply reports the request count, including this request, and the counters; otherwise 403; the request is counted; an empty role store stays empty |
| Server.Service.constructor | server.js:39-47 | a new process has empty stores and zero counters, so its role store starts empty |

## Left out

- `logger.js` and every log line are left out. Logging only writes to the console.
- The Express wiring is left out: `express.json`, `helmet`, the rate limiter
  (40 requests per minute), `x-powered-by`, and the root route `/`.
  The `/proxy-webhook/:system` forwarding POST and its answers are left out
  too; only its `proxyValidator` step is modelled. These parts are framework
  configuration or a plain forward of the request body.
- Startup and shutdown are left out: `app.listen`, `sendStartupLog`, and the
  SIGINT/SIGTERM handling. They are process lifecycle with I/O only.
- HTTP calls through axios are inputs: the membership reply, role pages by
  URL, the PATCH's success, the username lookup and the webhook's answer per
  attempt. The `x-api-key` header, the 5000 ms timeouts, and the shapes of
  responses other than the modelled fields are left out.
- RobloxApi.FetchRoleByRank: the model bounds the number of page requests
  with `fuel`. A search still going when the bound is reached is reported as
  still searching, and the handler then never answers.
- Server.SendWithRetry: real waiting is left out; a pause is a step in the
  trace. `Math.random` is a free choice of jitter in [0, 499].
- Server.Service.UpdateRank: the notification is delivered before the method
  returns, but in the source it happens after the response is sent.
  Concurrent requests interleaving at `await` points are not modelled.
- Server.Service.GetMetrics: the `uptime` field is left out, because it reads
  the wall clock.
- Time is one `now` per request. Time passing between the steps of a request
  is not modelled.
- node-cache internals are left out: the periodic expiry sweep
  (`checkperiod`), value cloning, deleting an expired entry when it is read,
  and the key-type check. An expired entry reads as absent, which is what
  `get` returns.
- Server.Validate: Joi's conversion of numeric strings is left out; such a
  value appears in the model as the number it converts to. Joi's error
  message text is left out too, and a 400 is only `BadRequest`.
- Config: an unset `GROUP_ID` is left out; the group id is always a string.
  node-cache refuses the `undefined` key, so with `GROUP_ID` unset every valid
  request would answer 500 at `getMembership`, before any URL is built.
- KeyAuth.SafeCompare: only its result is modelled. Constant-time comparison
  is a timing property, and keys are given as their UTF-8 bytes.
- ProxyValidator.Validate: `toUpperCase` is modelled for ASCII letters only.
  Other Unicode case mappings are left out.
- Server.FetchUsername: a successful lookup whose body has no `name` is
  left out; the model takes the lookup's result as either a name or a failure.
- Js.NatToDecimal: JavaScript's exponent notation for numbers of 10^21 or
  more is left out. Every number rendered here is a safe integer, which is
  well below that.
