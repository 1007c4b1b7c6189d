/** The request handling of server.js: the notification retry loop, the
    `/update-rank` handler with its cache-aside steps exactly as the calls
    bind in JavaScript, the `/clear-cache` and `/metrics` routes, and the
    module-level counters. Upstream answers, the webhook's answers, the
    clock and the environment are inputs. */
module Server {
  import opened Js
  import opened RobloxApi
  import opened Cache
  import opened KeyAuth

  /* ================= sendWithRetry ================= */

  const DefaultMaxAttempts: int := 10
  const DefaultDelayMs: int := 2500
  /** `Math.floor(Math.random() * 500)` lies in [0, 500). */
  const JitterSpanMs: int := 500

  /** One observable step of a delivery: a POST of the payload (and whether it
      succeeded), or a pause before the next attempt. */
  datatype Step = Post(url: string, payload: string, attempt: int, ok: bool) | Sleep(ms: int)

  /** The first attempt number at or after `from` that the webhook accepts, or
      a number beyond `maxAttempts` when none up to it does. */
  function FirstAccepted(accepts: int -> bool, from: int, maxAttempts: int): (a: int)
    ensures from <= a
    ensures a <= maxAttempts ==> accepts(a)
    ensures forall b :: from <= b < a && b <= maxAttempts ==> !accepts(b)
    ensures a > maxAttempts ==> a == if from > maxAttempts then from else maxAttempts + 1
    decreases maxAttempts + 1 - from
  {
    if from > maxAttempts then from
    else if accepts(from) then from
    else FirstAccepted(accepts, from + 1, maxAttempts)
  }

  /** How many POSTs a delivery makes: up to the first accepted attempt, or all
      `maxAttempts` of them. */
  function PostCount(accepts: int -> bool, maxAttempts: int): nat
  {
    if maxAttempts < 1 then 0
    else
      var a := FirstAccepted(accepts, 1, maxAttempts);
      if a <= maxAttempts then a else maxAttempts
  }

  /** The steps of a delivery: POSTs numbered 1, 2, ... alternating with
      pauses of `delayMs` plus a jitter below 500 ms, as many POSTs as
      `PostCount` says, and success exactly when the last POST succeeded. */
  ghost predicate RetryTrace(trace: seq<Step>, delivered: bool, url: string, payload: string,
                             accepts: int -> bool, maxAttempts: int, delayMs: int)
  {
    var n := PostCount(accepts, maxAttempts);
    && |trace| == (if n == 0 then 0 else 2 * n - 1)
    && (forall i :: 0 <= i < |trace| && i % 2 == 0 ==> trace[i] == Post(url, payload, i / 2 + 1, accepts(i / 2 + 1)))
    && (forall i :: 0 <= i < |trace| && i % 2 == 1 ==> trace[i].Sleep? && delayMs <= trace[i].ms < delayMs + JitterSpanMs)
    && (delivered <==> n >= 1 && accepts(n))
  }

  /** `sendWithRetry(url, payload, maxAttempts, delayMs)`: the webhook's answer
      to attempt `a` is `accepts(a)`, and each jitter is chosen freely in
      [0, 500). It never throws: `delivered == false` is the final error log. */
  method SendWithRetry(url: string, payload: string, maxAttempts: int, delayMs: int, accepts: int -> bool)
    returns (trace: seq<Step>, delivered: bool)
    ensures RetryTrace(trace, delivered, url, payload, accepts, maxAttempts, delayMs)
  {
    trace := [];
    var attempt := 1;
    while attempt <= maxAttempts
      invariant 1 <= attempt && (attempt == 1 || attempt <= maxAttempts + 1)
      invariant forall b :: 1 <= b < attempt ==> !accepts(b)
      invariant |trace| == if attempt == 1 then 0 else if attempt <= maxAttempts then 2 * (attempt - 1) else 2 * (attempt - 1) - 1
      invariant forall i :: 0 <= i < |trace| && i % 2 == 0 ==> trace[i] == Post(url, payload, i / 2 + 1, accepts(i / 2 + 1))
      invariant forall i :: 0 <= i < |trace| && i % 2 == 1 ==> trace[i].Sleep? && delayMs <= trace[i].ms < delayMs + JitterSpanMs
      decreases maxAttempts + 1 - attempt
    {
      var ok := accepts(attempt);
      trace := trace + [Post(url, payload, attempt, ok)];
      if ok {
        assert FirstAccepted(accepts, 1, maxAttempts) == attempt;
        delivered := true;
        return;
      }
      if attempt < maxAttempts {
        var jitter :| 0 <= jitter < JitterSpanMs;
        trace := trace + [Sleep(delayMs + jitter)];
      }
      attempt := attempt + 1;
    }
    delivered := false;
  }

  function CountPosts(trace: seq<Step>): nat
  {
    if trace == [] then 0 else CountPosts(trace[..|trace| - 1]) + (if trace[|trace| - 1].Post? then 1 else 0)
  }

  function CountSleeps(trace: seq<Step>): nat
  {
    if trace == [] then 0 else CountSleeps(trace[..|trace| - 1]) + (if trace[|trace| - 1].Sleep? then 1 else 0)
  }

  /** In a trace of odd length whose even positions are POSTs and odd ones
      pauses, there is one more POST than pauses. */
  lemma {:induction false} AlternatingCounts(trace: seq<Step>)
    requires |trace| % 2 == 1
    requires forall i :: 0 <= i < |trace| ==> (trace[i].Post? <==> i % 2 == 0)
    ensures CountPosts(trace) == (|trace| + 1) / 2
    ensures CountSleeps(trace) == |trace| / 2
    decreases |trace|
  {
    if |trace| > 1 {
      var shorter := trace[..|trace| - 2];
      assert trace[..|trace| - 1][..|trace| - 2] == shorter;
      AlternatingCounts(shorter);
    }
  }

  /** Delivery stops at the first success: with attempts 1..k-1 failing and
      attempt k succeeding, exactly k POSTs are made, the last one succeeds,
      and k-1 pauses separate them. */
  lemma StopsAtFirstSuccess(trace: seq<Step>, delivered: bool, url: string, payload: string,
                            accepts: int -> bool, maxAttempts: int, delayMs: int, k: int)
    requires RetryTrace(trace, delivered, url, payload, accepts, maxAttempts, delayMs)
    requires 1 <= k <= maxAttempts && accepts(k)
    requires forall a :: 1 <= a < k ==> !accepts(a)
    ensures delivered
    ensures CountPosts(trace) == k && CountSleeps(trace) == k - 1
    ensures trace[|trace| - 1] == Post(url, payload, k, true)
  {
    var a := FirstAccepted(accepts, 1, maxAttempts);
    assert a == k;
    AlternatingCounts(trace);
  }

  /** When every attempt fails: `maxAttempts` POSTs, `maxAttempts - 1` pauses
      of at least `delayMs` each, and a normal return reporting failure. */
  lemma AllAttemptsFail(trace: seq<Step>, delivered: bool, url: string, payload: string,
                        accepts: int -> bool, maxAttempts: int, delayMs: int)
    requires RetryTrace(trace, delivered, url, payload, accepts, maxAttempts, delayMs)
    requires 1 <= maxAttempts
    requires forall a :: 1 <= a <= maxAttempts ==> !accepts(a)
    ensures !delivered
    ensures CountPosts(trace) == maxAttempts && CountSleeps(trace) == maxAttempts - 1
    ensures forall i :: 0 <= i < |trace| && trace[i].Sleep? ==> trace[i].ms >= delayMs
  {
    var a := FirstAccepted(accepts, 1, maxAttempts);
    assert a == maxAttempts + 1;
    AlternatingCounts(trace);
  }

  /** A pause follows only a failed attempt that was not the last one, and
      no more than `maxAttempts` POSTs are ever made. */
  lemma PausesFollowFailures(trace: seq<Step>, delivered: bool, url: string, payload: string,
                             accepts: int -> bool, maxAttempts: int, delayMs: int)
    requires RetryTrace(trace, delivered, url, payload, accepts, maxAttempts, delayMs)
    ensures forall i :: 0 < i < |trace| && trace[i].Sleep? ==>
      trace[i - 1].Post? && !trace[i - 1].ok && trace[i - 1].attempt < maxAttempts
    ensures |trace| == 0 || CountPosts(trace) <= maxAttempts
  {
    var n := PostCount(accepts, maxAttempts);
    forall i | 0 < i < |trace| && trace[i].Sleep?
      ensures trace[i - 1].Post? && !trace[i - 1].ok && trace[i - 1].attempt < maxAttempts
    {
      assert i % 2 == 1;
      assert trace[i - 1] == Post(url, payload, (i - 1) / 2 + 1, accepts((i - 1) / 2 + 1));
    }
    if |trace| > 0 {
      AlternatingCounts(trace);
    }
  }

  /* ================= /update-rank ================= */

  /** `Number.MAX_SAFE_INTEGER`: Joi's number rule refuses larger values. */
  const MaxSafeInteger: int := 9007199254740991

  /** A body field as Joi sees it: missing, a number, or something else. A
      numeric string is represented by the number Joi converts it to. */
  datatype Field = Absent | Number(x: real) | NotANumber

  /** The JSON body: the two fields, and whether it has keys the schema does
      not list (which Joi refuses). */
  datatype RankBody = RankBody(userId: Field, rank: Field, unknownKeys: bool)

  datatype RankChange = RankChange(userId: nat, rank: int)

  predicate IsInteger(x: real)
  {
    x.Floor as real == x
  }

  /** The schema: `userId` a positive (safe) integer, `rank` an integer in
      [1, 254], both required, nothing else. */
  function Validate(body: RankBody): (r: Option<RankChange>)
    ensures r.Some? <==> && !body.unknownKeys
                         && body.userId.Number? && IsInteger(body.userId.x) && 0.0 < body.userId.x <= MaxSafeInteger as real
                         && body.rank.Number? && IsInteger(body.rank.x) && 1.0 <= body.rank.x <= 254.0
    ensures r.Some? ==> && 1 <= r.value.userId <= MaxSafeInteger && r.value.userId as real == body.userId.x
                        && 1 <= r.value.rank <= 254 && r.value.rank as real == body.rank.x
  {
    if body.unknownKeys then None
    else if !(body.userId.Number? && IsInteger(body.userId.x) && 0.0 < body.userId.x <= MaxSafeInteger as real) then None
    else if !(body.rank.Number? && IsInteger(body.rank.x) && 1.0 <= body.rank.x <= 254.0) then None
    else Some(RankChange(body.userId.x.Floor, body.rank.x.Floor))
  }

  /** The hit/miss counters of the module-level `metrics` object. */
  datatype Metrics = Metrics(membershipHits: nat, membershipMisses: nat, roleHits: nat, roleMisses: nat)

  /** Every counter of `after` is at least that of `before`. */
  predicate Grows(before: Metrics, after: Metrics)
  {
    && before.membershipHits <= after.membershipHits
    && before.membershipMisses <= after.membershipMisses
    && before.roleHits <= after.roleHits
    && before.roleMisses <= after.roleMisses
  }

  /** The answer sent to the caller; `NoReply` when the handler never answers
      (the role search is still walking pages). */
  datatype Reply =
    | RankChanged(userId: nat, groupId: string, roleId: Option<string>, roleName: Option<string>)
    | Message(text: string)
    | MetricsReport(totalRequests: nat, cache: Metrics)
    | BadRequest
    | Failure(status: int, error: string)
    | NoReply

  const InternalError: Reply := Failure(500, "Internal server error")

  /** The environment the service reads: `GROUP_ID`, `ACCESS_API_KEY`,
      `ADMIN_API_KEY` and `RANKING_WEBHOOK`. */
  datatype Config = Config(groupId: string, accessApiKey: Option<Bytes>, adminApiKey: Option<Bytes>, rankingWebhook: Option<string>)

  /** The answers of everything outside the process for one request: the
      membership GET, the roles GETs by URL (and how many the model follows),
      the PATCH, the username GET (`None` when it fails) and the webhook's
      answer to each delivery attempt. */
  datatype Upstream = Upstream(
    memberships: MembershipsReply,
    rolePage: string -> PageReply,
    searchFuel: nat,
    patchSucceeds: bool,
    username: Option<string>,
    webhookAccepts: int -> bool)

  /** The notification queued after a successful update. */
  datatype Notification = Notification(url: string, content: string)

  /** What one `/update-rank` request does: its reply, the new counters and
      membership store, the membership GET URL if one was sent, the roles GET
      URLs, the PATCH if one was sent, and the notification if one follows. */
  datatype Handled = Handled(
    reply: Reply,
    metrics: Metrics,
    memberships: Store,
    membershipRequest: Option<string>,
    roleRequests: seq<string>,
    patch: Option<PatchRequest>,
    notify: Option<Notification>)

  /** `fetchUsername`: the looked-up name, or `UserId <id>` when the lookup fails. */
  function FetchUsername(lookup: Option<string>, userId: nat): string
  {
    if lookup.Some? then lookup.value else "UserId " + NatToDecimal(userId)
  }

  /** The fallback name names the user: it reads `UserId ` followed by the
      id, and different users get different fallbacks. */
  lemma FallbackNamesUser(u1: nat, u2: nat)
    ensures StartsWith(FetchUsername(None, u1), "UserId ")
    ensures FetchUsername(None, u1) == FetchUsername(None, u2) ==> u1 == u2
  {
    StartsWithAppend("UserId ", NatToDecimal(u1), "UserId ");
    if FetchUsername(None, u1) == FetchUsername(None, u2) {
      CancelLeft("UserId ", NatToDecimal(u1), NatToDecimal(u2));
      NatToDecimalInjective(u1, u2);
    }
  }

  /** A looked-up name is used as it is. */
  lemma LookedUpNameWins(name: string, u: nat)
    ensures FetchUsername(Some(name), u) == name
  {
  }

  /** The notification text. */
  function RankChangeContent(username: string, displayName: Option<string>): string
  {
    "The rank of **" + username + "** has been changed to **" + Render(displayName) + "**"
  }

  /** The handler from the role lookup on, given the membership id reached
      so far. `getRoleByRank(GROUP_ID, rank)` binds only its first argument,
      so the role store is read under the group id. */
  function ResolveRole(config: Config, memberships: Store, roles: Store, metrics: Metrics, req: RankChange,
                       now: int, up: Upstream, membershipId: Option<string>, membershipRequest: Option<string>): Handled
  {
    var groupId := config.groupId;
    if Truthy(Lookup(roles, groupId, now)) then
      // The cached value is the role id string `saveRoles` stored: its
      // `.id` and `.displayName` are undefined.
      var m := metrics.(roleHits := metrics.roleHits + 1);
      var patch := UpdateRankRequest(groupId, membershipId, req.userId, None);
      if !up.patchSucceeds then Handled(InternalError, m, memberships, membershipRequest, [], Some(patch), None)
      else
        var notify :=
          if Truthy(config.rankingWebhook)
          then Some(Notification(config.rankingWebhook.value, RankChangeContent(FetchUsername(up.username, req.userId), None)))
          else None;
        Handled(RankChanged(req.userId, groupId, None, None), m, memberships, membershipRequest, [], Some(patch), notify)
    else
      var m := metrics.(roleMisses := metrics.roleMisses + 1);
      var search := Walk(up.rolePage, groupId, req.rank, None, up.searchFuel);
      Handled(MissReply(search.outcome), m, memberships, membershipRequest, search.requests, None, None)
  }

  /** The reply after a role miss, given how `fetchRoleByRank` ended. A search
      that never ends never replies; a failed GET or "Role not found" throws
      into the catch (500). Otherwise the search resolves with the found role,
      which the `!role` test checks before it is passed to `saveRoleByRank`;
      cache.js does not export that function, so the call throws (500). */
  function MissReply(outcome: RoleSearch): (r: Reply)
    ensures r == (if outcome.StillSearching? then NoReply else InternalError)
    ensures r != Failure(404, "Role not found")
  {
    match outcome
    case StillSearching => NoReply
    case RequestFailed => InternalError
    case RoleNotFound => InternalError
    case Found(found) =>
      var role: Option<Role> := Some(found);
      if role.None? then Failure(404, "Role not found")
      else InternalError
  }

  /** The `/update-rank` handler after the key gate. `getMembership(GROUP_ID,
      userId)` binds only its first argument, and `saveMembership(GROUP_ID,
      parsedUserId, parsedMembershipId)` stores the parsed user id under the
      group id and returns `undefined`. */
  function HandleUpdateRank(config: Config, memberships: Store, roles: Store, metrics: Metrics,
                            body: RankBody, now: int, up: Upstream): Handled
  {
    match Validate(body)
    case None => Handled(BadRequest, metrics, memberships, None, [], None, None)
    case Some(req) =>
      var groupId := config.groupId;
      var cached := Lookup(memberships, groupId, now);
      if Truthy(cached) then
        ResolveRole(config, memberships, roles, metrics.(membershipHits := metrics.membershipHits + 1), req, now, up, cached, None)
      else
        var m := metrics.(membershipMisses := metrics.membershipMisses + 1);
        var request := Some(MembershipUrl(groupId, req.userId));
        match FetchMembership(up.memberships)
        case LookupThrew => Handled(InternalError, m, memberships, request, [], None, None)
        case NoMembership => Handled(Failure(404, "Membership not found"), m, memberships, request, [], None, None)
        case Member(record) =>
          if record.user.None? || record.path.None? then Handled(InternalError, m, memberships, request, [], None, None)
          else
            var stored := Put(memberships, groupId, RemoveFirst(record.user.value, "users/"), now, MembershipTtlMs);
            ResolveRole(config, stored, roles, m, req, now, up, None, request)
  }

  /** The whole route: `accessKeyAuth`, then the handler. */
  function UpdateRankRoute(config: Config, memberships: Store, roles: Store, metrics: Metrics,
                           accessKey: Option<Bytes>, body: RankBody, now: int, up: Upstream): Handled
  {
    if AccessKeyAuth(accessKey, config.accessApiKey) == Forbidden
    then Handled(Failure(403, "Forbidden"), metrics, memberships, None, [], None, None)
    else HandleUpdateRank(config, memberships, roles, metrics, body, now, up)
  }

  /** The membership step reaches the role lookup: a truthy cached value, or
      an upstream record with both fields. */
  predicate MembershipResolves(config: Config, memberships: Store, now: int, up: Upstream)
  {
    || Truthy(Lookup(memberships, config.groupId, now))
    || (var f := FetchMembership(up.memberships); f.Member? && f.membership.user.Some? && f.membership.path.Some?)
  }

  /* ---------------- properties of the handler ---------------- */

  /** A membership hit continues with the role step, the counters showing the hit. */
  lemma HitStep(config: Config, memberships: Store, roles: Store, metrics: Metrics,
                body: RankBody, now: int, up: Upstream)
    requires Validate(body).Some? && Truthy(Lookup(memberships, config.groupId, now))
    ensures HandleUpdateRank(config, memberships, roles, metrics, body, now, up)
         == ResolveRole(config, memberships, roles, metrics.(membershipHits := metrics.membershipHits + 1),
                        Validate(body).value, now, up, Lookup(memberships, config.groupId, now), None)
  {
  }

  /** A miss with a well-formed record stores it, then continues with the
      role step, the counters showing the miss. */
  lemma StoredMissStep(config: Config, memberships: Store, roles: Store, metrics: Metrics,
                       body: RankBody, now: int, up: Upstream)
    requires Validate(body).Some? && !Truthy(Lookup(memberships, config.groupId, now))
    requires MembershipResolves(config, memberships, now, up)
    ensures var user := FetchMembership(up.memberships).membership.user.value;
      HandleUpdateRank(config, memberships, roles, metrics, body, now, up)
         == ResolveRole(config, Put(memberships, config.groupId, RemoveFirst(user, "users/"), now, MembershipTtlMs),
                        roles, metrics.(membershipMisses := metrics.membershipMisses + 1), Validate(body).value, now, up,
                        None, Some(MembershipUrl(config.groupId, Validate(body).value.userId)))
  {
  }

  /** Any other miss stops after the membership GET: an empty membership
      list answers 404; a failed GET, or a record without `user` or `path`,
      throws into the handler's catch and answers 500. */
  lemma StoppedMissStep(config: Config, memberships: Store, roles: Store, metrics: Metrics,
                        body: RankBody, now: int, up: Upstream)
    requires Validate(body).Some? && !MembershipResolves(config, memberships, now, up)
    ensures var h := HandleUpdateRank(config, memberships, roles, metrics, body, now, up);
      && h.metrics == metrics.(membershipMisses := metrics.membershipMisses + 1)
      && h.memberships == memberships
      && h.membershipRequest == Some(MembershipUrl(config.groupId, Validate(body).value.userId))
      && h.roleRequests == [] && h.patch.None? && h.notify.None?
      && h.reply == (if up.memberships == Memberships([]) then Failure(404, "Membership not found") else InternalError)
  {
  }

  /** The handler's three ways through the membership step. */
  lemma HandleSteps(config: Config, memberships: Store, roles: Store, metrics: Metrics,
                    body: RankBody, now: int, up: Upstream)
    requires Validate(body).Some?
    ensures var h := HandleUpdateRank(config, memberships, roles, metrics, body, now, up);
      var req := Validate(body).value;
      var groupId := config.groupId;
      var cached := Lookup(memberships, groupId, now);
      var f := FetchMembership(up.memberships);
      var request := Some(MembershipUrl(groupId, req.userId));
      var missed := metrics.(membershipMisses := metrics.membershipMisses + 1);
      && (Truthy(cached) ==>
            h == ResolveRole(config, memberships, roles, metrics.(membershipHits := metrics.membershipHits + 1), req, now, up, cached, None))
      && (!Truthy(cached) && MembershipResolves(config, memberships, now, up) ==>
            h == ResolveRole(config, Put(memberships, groupId, RemoveFirst(f.membership.user.value, "users/"), now, MembershipTtlMs),
                             roles, missed, req, now, up, None, request))
      && (!MembershipResolves(config, memberships, now, up) ==>
            && h.metrics == missed && h.memberships == memberships && h.membershipRequest == request
            && h.roleRequests == [] && h.patch.None? && h.notify.None?
            && h.reply == (if up.memberships == Memberships([]) then Failure(404, "Membership not found") else InternalError))
  {
    if Truthy(Lookup(memberships, config.groupId, now)) {
      HitStep(config, memberships, roles, metrics, body, now, up);
    } else if MembershipResolves(config, memberships, now, up) {
      StoredMissStep(config, memberships, roles, metrics, body, now, up);
    } else {
      StoppedMissStep(config, memberships, roles, metrics, body, now, up);
    }
  }

  /** A refused key changes nothing and is answered 403. */
  lemma ForbiddenChangesNothing(config: Config, memberships: Store, roles: Store, metrics: Metrics,
                                accessKey: Option<Bytes>, body: RankBody, now: int, up: Upstream)
    requires AccessKeyAuth(accessKey, config.accessApiKey) == Forbidden
    ensures var h := UpdateRankRoute(config, memberships, roles, metrics, accessKey, body, now, up);
      h.reply == Failure(403, "Forbidden") && h.metrics == metrics && h.memberships == memberships
      && h.membershipRequest.None? && h.roleRequests == [] && h.patch.None?
  {
  }

  /** An invalid body is answered 400 before any cache access, counter change
      or upstream request. */
  lemma InvalidBodyChangesNothing(config: Config, memberships: Store, roles: Store, metrics: Metrics,
                                  body: RankBody, now: int, up: Upstream)
    requires Validate(body).None?
    ensures var h := HandleUpdateRank(config, memberships, roles, metrics, body, now, up);
      && h.reply == BadRequest && h.metrics == metrics && h.memberships == memberships
      && h.membershipRequest.None? && h.roleRequests == [] && h.patch.None? && h.notify.None?
  {
  }

  /** A validated request counts exactly one membership hit or miss; a miss,
      and only a miss, sends the membership GET for the requested user. */
  lemma OneMembershipCount(config: Config, memberships: Store, roles: Store, metrics: Metrics,
                           body: RankBody, now: int, up: Upstream)
    requires Validate(body).Some?
    ensures var h := HandleUpdateRank(config, memberships, roles, metrics, body, now, up);
      var hit := Truthy(Lookup(memberships, config.groupId, now));
      && h.metrics.membershipHits == metrics.membershipHits + (if hit then 1 else 0)
      && h.metrics.membershipMisses == metrics.membershipMisses + (if hit then 0 else 1)
      && h.membershipRequest == if hit then None else Some(MembershipUrl(config.groupId, Validate(body).value.userId))
  {
    HandleSteps(config, memberships, roles, metrics, body, now, up);
  }

  /** A miss whose lookup finds no membership is answered 404 "Membership not
      found" before any role lookup. */
  lemma MembershipNotFoundStopsEarly(config: Config, memberships: Store, roles: Store, metrics: Metrics,
                                     body: RankBody, now: int, up: Upstream)
    requires Validate(body).Some?
    requires !Truthy(Lookup(memberships, config.groupId, now))
    requires up.memberships == Memberships([])
    ensures var h := HandleUpdateRank(config, memberships, roles, metrics, body, now, up);
      && h.reply == Failure(404, "Membership not found")
      && h.metrics.roleHits == metrics.roleHits && h.metrics.roleMisses == metrics.roleMisses
      && h.roleRequests == [] && h.patch.None? && h.memberships == memberships
  {
  }

  /** On a miss with a well-formed record, the store gains the parsed user id
      (`user` without its first `users/`) under the group id alone, for 300 s. */
  lemma MissStoresUserIdUnderGroup(config: Config, memberships: Store, roles: Store, metrics: Metrics,
                                   body: RankBody, now: int, up: Upstream, user: string, path: string, others: seq<Membership>)
    requires Validate(body).Some?
    requires !Truthy(Lookup(memberships, config.groupId, now))
    requires up.memberships == Memberships([Membership(Some(user), Some(path))] + others)
    ensures HandleUpdateRank(config, memberships, roles, metrics, body, now, up).memberships
         == memberships[config.groupId := Entry(RemoveFirst(user, "users/"), now + 300000)]
  {
  }

  /** A role-cache miss never sends the PATCH: a found role ends in 500 (the
      missing `saveRoleByRank` throws), an exhausted or failed search ends in
      500, and an endless one never answers. Every roles GET is the search's. */
  lemma RoleMissNeverUpdates(config: Config, memberships: Store, roles: Store, metrics: Metrics,
                             body: RankBody, now: int, up: Upstream)
    requires Validate(body).Some? && MembershipResolves(config, memberships, now, up)
    requires !Truthy(Lookup(roles, config.groupId, now))
    ensures var h := HandleUpdateRank(config, memberships, roles, metrics, body, now, up);
      var search := Walk(up.rolePage, config.groupId, Validate(body).value.rank, None, up.searchFuel);
      && h.patch.None? && h.notify.None?
      && h.roleRequests == search.requests
      && h.reply == (if search.outcome.StillSearching? then NoReply else InternalError)
      && h.metrics.roleMisses == metrics.roleMisses + 1 && h.metrics.roleHits == metrics.roleHits
  {
  }

  /** The 404 "Role not found" branch is unreachable: a search never yields a
      missing role, so no request is ever answered that way. */
  lemma NeverRoleNotFound404(config: Config, memberships: Store, roles: Store, metrics: Metrics,
                             accessKey: Option<Bytes>, body: RankBody, now: int, up: Upstream)
    ensures UpdateRankRoute(config, memberships, roles, metrics, accessKey, body, now, up).reply != Failure(404, "Role not found")
  {
  }

  /** The counters only ever grow, by at most one each per request. */
  lemma CountersOnlyGrow(config: Config, memberships: Store, roles: Store, metrics: Metrics,
                         accessKey: Option<Bytes>, body: RankBody, now: int, up: Upstream)
    ensures var h := UpdateRankRoute(config, memberships, roles, metrics, accessKey, body, now, up);
      && Grows(metrics, h.metrics)
      && h.metrics.membershipHits + h.metrics.membershipMisses <= metrics.membershipHits + metrics.membershipMisses + 1
      && h.metrics.roleHits + h.metrics.roleMisses <= metrics.roleHits + metrics.roleMisses + 1
  {
    var req := Validate(body);
    if AccessKeyAuth(accessKey, config.accessApiKey) == Next && req.Some? {
      HandleSteps(config, memberships, roles, metrics, body, now, up);
      var groupId := config.groupId;
      if Truthy(Lookup(memberships, groupId, now)) {
        var m := metrics.(membershipHits := metrics.membershipHits + 1);
        ResolveRoleCountsOnce(config, memberships, roles, m, req.value, now, up, Lookup(memberships, groupId, now), None);
      } else if MembershipResolves(config, memberships, now, up) {
        var m := metrics.(membershipMisses := metrics.membershipMisses + 1);
        var f := FetchMembership(up.memberships);
        var stored := Put(memberships, groupId, RemoveFirst(f.membership.user.value, "users/"), now, MembershipTtlMs);
        ResolveRoleCountsOnce(config, stored, roles, m, req.value, now, up, None, Some(MembershipUrl(groupId, req.value.userId)));
      }
    }
  }

  /** The role step counts exactly one role hit or miss and no membership. */
  lemma ResolveRoleCountsOnce(config: Config, memberships: Store, roles: Store, metrics: Metrics, req: RankChange,
                              now: int, up: Upstream, membershipId: Option<string>, membershipRequest: Option<string>)
    ensures var m := ResolveRole(config, memberships, roles, metrics, req, now, up, membershipId, membershipRequest).metrics;
      && m.membershipHits == metrics.membershipHits && m.membershipMisses == metrics.membershipMisses
      && m.roleHits + m.roleMisses == metrics.roleHits + metrics.roleMisses + 1
      && Grows(metrics, m)
  {
  }

  /** With an empty role store (the only kind the service ever has, since
      nothing in it calls `saveRoles`), `updateRank` is never reached and no
      request succeeds. */
  lemma EmptyRoleStoreNeverUpdates(config: Config, memberships: Store, metrics: Metrics,
                                   accessKey: Option<Bytes>, body: RankBody, now: int, up: Upstream)
    ensures var h := UpdateRankRoute(config, memberships, map[], metrics, accessKey, body, now, up);
      h.patch.None? && h.notify.None? && !h.reply.RankChanged?
  {
  }

  /** After one miss that stored a non-empty user id, every validated request
      within 300 s is a membership hit, whichever user it names, and sends
      no membership GET. */
  lemma LaterRequestsHitForAnyUser(config: Config, memberships: Store, roles: Store, metrics: Metrics,
                                   body1: RankBody, now1: int, up1: Upstream, user: string, path: string,
                                   body2: RankBody, now2: int, up2: Upstream)
    requires Validate(body1).Some? && Validate(body2).Some?
    requires !Truthy(Lookup(memberships, config.groupId, now1))
    requires up1.memberships == Memberships([Membership(Some(user), Some(path))])
    requires RemoveFirst(user, "users/") != ""
    requires now1 <= now2 <= now1 + 300000
    ensures var h1 := HandleUpdateRank(config, memberships, roles, metrics, body1, now1, up1);
      var h2 := HandleUpdateRank(config, h1.memberships, roles, h1.metrics, body2, now2, up2);
      && h2.metrics.membershipHits == h1.metrics.membershipHits + 1
      && h2.metrics.membershipMisses == h1.metrics.membershipMisses
      && h2.membershipRequest.None?
  {
    MissStoresUserIdUnderGroup(config, memberships, roles, metrics, body1, now1, up1, user, path, []);
    var h1 := HandleUpdateRank(config, memberships, roles, metrics, body1, now1, up1);
    assert Lookup(h1.memberships, config.groupId, now2) == Some(RemoveFirst(user, "users/"));
    OneMembershipCount(config, h1.memberships, roles, h1.metrics, body2, now2, up2);
  }

  /** A record whose `user` is just `users/` stores the empty string, which
      is falsy: the next request misses again and repeats the GET. */
  lemma EmptyUserIdMissesAgain(config: Config, memberships: Store, roles: Store, metrics: Metrics,
                               body1: RankBody, now1: int, up1: Upstream, path: string,
                               body2: RankBody, now2: int, up2: Upstream)
    requires Validate(body1).Some? && Validate(body2).Some?
    requires !Truthy(Lookup(memberships, config.groupId, now1))
    requires up1.memberships == Memberships([Membership(Some("users/"), Some(path))])
    ensures var h1 := HandleUpdateRank(config, memberships, roles, metrics, body1, now1, up1);
      var h2 := HandleUpdateRank(config, h1.memberships, roles, h1.metrics, body2, now2, up2);
      && h1.memberships[config.groupId].value == ""
      && h2.metrics.membershipHits == h1.metrics.membershipHits
      && h2.metrics.membershipMisses == h1.metrics.membershipMisses + 1
      && h2.membershipRequest == Some(MembershipUrl(config.groupId, Validate(body2).value.userId))
  {
    RemoveLeadingPattern("users/", "");
    assert "users/" + "" == "users/";
    MissStoresUserIdUnderGroup(config, memberships, roles, metrics, body1, now1, up1, "users/", path, []);
    var h1 := HandleUpdateRank(config, memberships, roles, metrics, body1, now1, up1);
    assert !Truthy(Lookup(h1.memberships, config.groupId, now2));
    OneMembershipCount(config, h1.memberships, roles, h1.metrics, body2, now2, up2);
  }

  /** When a cached role leads to the PATCH, it targets the cached membership
      id and user, and the role id is `undefined`; the notification, if the
      webhook is set, names the user (or `UserId <id>`) and an `undefined`
      role name. */
  lemma CachedRolePatch(config: Config, memberships: Store, roles: Store, metrics: Metrics,
                        body: RankBody, now: int, up: Upstream)
    requires Validate(body).Some?
    requires Truthy(Lookup(memberships, config.groupId, now))
    requires Truthy(Lookup(roles, config.groupId, now))
    ensures var h := HandleUpdateRank(config, memberships, roles, metrics, body, now, up);
      var userId := Validate(body).value.userId;
      && h.patch == Some(UpdateRankRequest(config.groupId, Lookup(memberships, config.groupId, now), userId, None))
      && h.patch.value.role == "groups/" + config.groupId + "/roles/undefined"
      && (h.reply.RankChanged? <==> up.patchSucceeds)
      && (h.notify.Some? <==> up.patchSucceeds && Truthy(config.rankingWebhook))
      && (h.notify.Some? ==>
            h.notify.value.content == "The rank of **" + FetchUsername(up.username, userId) + "** has been changed to **undefined**")
  {
  }

  /* ---------------- a worked pair of requests ---------------- */

  /** Group "42" lists two roles pages: rank 1 on the first, rank 5 on the
      second and last. */
  function ExamplePages(url: string): PageReply
  {
    if url == RolesUrl("42") then Page([Role("10", 1, "Guest")], Some("p2"))
    else if url == ExampleSecondPage() then Page([Role("70", 5, "Officer")], Some(""))
    else PageFailed
  }

  function ExampleSecondPage(): string
  {
    RolesUrl("42") + "&pageToken=p2"
  }

  function ExampleUpstream(username: Option<string>, accepts: int -> bool): Upstream
  {
    Upstream(Memberships([Membership(Some("users/111"), Some("groups/42/memberships/abc"))]),
             ExamplePages, 5, true, username, accepts)
  }

  /** The search for rank 5 follows the token to the second page and finds
      the role there. */
  lemma ExampleSearch()
    ensures Walk(ExamplePages, "42", 5, None, 5)
         == Search(Found(Role("70", 5, "Officer")), [RolesUrl("42"), ExampleSecondPage()])
  {
    assert RolesRequestUrl("42", None) == RolesUrl("42");
    assert Find([Role("10", 1, "Guest")], 5).None?;
    assert RolesRequestUrl("42", Some("p2")) == ExampleSecondPage();
    assert |ExampleSecondPage()| != |RolesUrl("42")|;
    assert ExamplePages(ExampleSecondPage()) == Page([Role("70", 5, "Officer")], Some(""));
    assert Find([Role("70", 5, "Officer")], 5) == Some(Role("70", 5, "Officer"));
  }

  /** On a fresh process, user 111 asking for rank 5 misses the membership
      store, stores "111" under "42" for 300 s, walks both pages, finds the
      role, and is answered 500 without any PATCH. */
  lemma ExampleFirstRequest(webhook: Option<string>, username: Option<string>, accepts: int -> bool)
    ensures var h := HandleUpdateRank(Config("42", Some([1]), Some([2]), webhook), map[], map[], Metrics(0, 0, 0, 0),
                                      RankBody(Number(111.0), Number(5.0), false), 1000, ExampleUpstream(username, accepts));
      && h.reply == InternalError
      && h.memberships == map["42" := Entry("111", 301000)]
      && h.membershipRequest == Some(MembershipUrl("42", 111))
      && h.roleRequests == [RolesUrl("42"), ExampleSecondPage()]
      && h.patch.None?
      && h.metrics == Metrics(0, 1, 0, 1)
  {
    RemoveLeadingPattern("users/", "111");
    assert "users/111" == "users/" + "111";
    assert Validate(RankBody(Number(111.0), Number(5.0), false)) == Some(RankChange(111, 5));
    ExampleSearch();
  }

  /** A second request a second later, for another user, hits the stored
      entry, sends no membership GET, and again ends in 500. */
  lemma ExampleSecondRequest(webhook: Option<string>, username: Option<string>, accepts: int -> bool)
    ensures var h := HandleUpdateRank(Config("42", Some([1]), Some([2]), webhook), map["42" := Entry("111", 301000)], map[],
                                      Metrics(0, 1, 0, 1), RankBody(Number(222.0), Number(5.0), false), 2000,
                                      ExampleUpstream(username, accepts));
      && h.reply == InternalError
      && h.membershipRequest.None?
      && h.memberships == map["42" := Entry("111", 301000)]
      && h.patch.None?
      && h.metrics == Metrics(1, 1, 0, 2)
  {
    assert Validate(RankBody(Number(222.0), Number(5.0), false)) == Some(RankChange(222, 5));
    ExampleSearch();
  }

  /* ================= the service ================= */

  /** The outcome of a notification delivery. */
  datatype Delivery = Delivery(trace: seq<Step>, delivered: bool)

  /** The process: its configuration, the caches, and the module-level
      counters `metrics` and `totalRequests`. */
  class Service {
    const config: Config
    const cache: Caches
    var metrics: Metrics
    var totalRequests: nat

    /** The role store is empty. It stays so for the life of the process:
        nothing calls `saveRoles`, and the imported `saveRoleByRank` does not
        exist; every method below keeps this. */
    ghost predicate RoleStoreEmpty()
      reads this, cache
    {
      cache.roles == map[]
    }

    constructor (config: Config)
      ensures this.config == config && fresh(cache)
      ensures cache.memberships == map[] && cache.roles == map[]
      ensures RoleStoreEmpty()
      ensures metrics == Metrics(0, 0, 0, 0) && totalRequests == 0
    {
      this.config := config;
      cache := new Caches();
      metrics := Metrics(0, 0, 0, 0);
      totalRequests := 0;
    }

    /** `PATCH /update-rank`, counted by the logging middleware, then gated,
        then handled; the notification is delivered after the reply. The
        role store is never written, so on a process whose role store is
        empty, as every process's is, no request reaches `updateRank`. */
    method UpdateRank(accessKey: Option<Bytes>, body: RankBody, now: int, up: Upstream)
      returns (h: Handled, delivery: Option<Delivery>)
      modifies this, cache
      ensures h == UpdateRankRoute(config, old(cache.memberships), old(cache.roles), old(metrics), accessKey, body, now, up)
      ensures cache.memberships == h.memberships && cache.roles == old(cache.roles)
      ensures metrics == h.metrics && totalRequests == old(totalRequests) + 1
      ensures delivery.Some? <==> h.notify.Some?
      ensures delivery.Some? ==> RetryTrace(delivery.value.trace, delivery.value.delivered, h.notify.value.url,
                                            h.notify.value.content, up.webhookAccepts, DefaultMaxAttempts, DefaultDelayMs)
      ensures old(RoleStoreEmpty()) ==> RoleStoreEmpty() && h.patch.None? && !h.reply.RankChanged? && delivery.None?
    {
      if cache.roles == map[] {
        EmptyRoleStoreNeverUpdates(config, cache.memberships, metrics, accessKey, body, now, up);
      }
      totalRequests := totalRequests + 1;
      h, delivery := Route(accessKey, body, now, up);
    }

    /** The route's middleware chain after the request is counted:
        `accessKeyAuth`, the body check, and the handler. */
    method Route(accessKey: Option<Bytes>, body: RankBody, now: int, up: Upstream)
      returns (h: Handled, delivery: Option<Delivery>)
      modifies this, cache
      ensures h == UpdateRankRoute(config, old(cache.memberships), old(cache.roles), old(metrics), accessKey, body, now, up)
      ensures cache.memberships == h.memberships && cache.roles == old(cache.roles)
      ensures metrics == h.metrics && totalRequests == old(totalRequests)
      ensures delivery.Some? <==> h.notify.Some?
      ensures delivery.Some? ==> RetryTrace(delivery.value.trace, delivery.value.delivered, h.notify.value.url,
                                            h.notify.value.content, up.webhookAccepts, DefaultMaxAttempts, DefaultDelayMs)
    {
      delivery := None;
      if AccessKeyAuth(accessKey, config.accessApiKey) == Forbidden {
        h := Handled(Failure(403, "Forbidden"), metrics, cache.memberships, None, [], None, None);
        return;
      }
      var req := Validate(body);
      if req.None? {
        h := Handled(BadRequest, metrics, cache.memberships, None, [], None, None);
        return;
      }
      var userId, groupId := req.value.userId, config.groupId;

      var membershipId := cache.GetMembership(groupId, now);
      var membershipRequest: Option<string> := None;
      if Truthy(membershipId) {
        metrics := metrics.(membershipHits := metrics.membershipHits + 1);
      } else {
        metrics := metrics.(membershipMisses := metrics.membershipMisses + 1);
        membershipRequest := Some(MembershipUrl(groupId, userId));
        var membership := FetchMembership(up.memberships);
        if membership.LookupThrew? {
          h := Handled(InternalError, metrics, cache.memberships, membershipRequest, [], None, None);
          return;
        }
        if membership.NoMembership? {
          h := Handled(Failure(404, "Membership not found"), metrics, cache.memberships, membershipRequest, [], None, None);
          return;
        }
        var record := membership.membership;
        if record.user.None? || record.path.None? {
          // `.replace` or `.split` on undefined throws
          h := Handled(InternalError, metrics, cache.memberships, membershipRequest, [], None, None);
          return;
        }
        var parsedUserId := RemoveFirst(record.user.value, "users/");
        var parsedMembershipId := LastSegment(record.path.value);
        cache.SaveMembership(groupId, parsedUserId, now);
        membershipId := None;
      }

      h, delivery := ResolveRoleStep(req.value, now, up, membershipId, membershipRequest);
    }

    /** The handler from `getRoleByRank` on: reads the role store, counts a
        hit or a miss, searches on a miss, and on a hit sends the PATCH and
        the notification. Neither store is written. */
    method ResolveRoleStep(req: RankChange, now: int, up: Upstream, membershipId: Option<string>, membershipRequest: Option<string>)
      returns (h: Handled, delivery: Option<Delivery>)
      modifies this
      ensures h == ResolveRole(config, cache.memberships, cache.roles, old(metrics), req, now, up, membershipId, membershipRequest)
      ensures metrics == h.metrics && totalRequests == old(totalRequests)
      ensures delivery.Some? <==> h.notify.Some?
      ensures delivery.Some? ==> RetryTrace(delivery.value.trace, delivery.value.delivered, h.notify.value.url,
                                            h.notify.value.content, up.webhookAccepts, DefaultMaxAttempts, DefaultDelayMs)
    {
      delivery := None;
      var groupId := config.groupId;
      var role := cache.GetRoleByRank(groupId, now);
      if !Truthy(role) {
        metrics := metrics.(roleMisses := metrics.roleMisses + 1);
        var outcome, requests := FetchRoleByRank(up.rolePage, groupId, req.rank, up.searchFuel);
        h := Handled(MissReply(outcome), metrics, cache.memberships, membershipRequest, requests, None, None);
        return;
      }
      metrics := metrics.(roleHits := metrics.roleHits + 1);
      // The cached value is the role id string `saveRoles` stored: its `.id`
      // and `.displayName` are undefined.
      var roleId: Option<string> := None;
      var roleName: Option<string> := None;

      var patch := UpdateRankRequest(groupId, membershipId, req.userId, roleId);
      if !up.patchSucceeds {
        h := Handled(InternalError, metrics, cache.memberships, membershipRequest, [], Some(patch), None);
        return;
      }
      var notify: Option<Notification> := None;
      if Truthy(config.rankingWebhook) {
        var content := RankChangeContent(FetchUsername(up.username, req.userId), roleName);
        notify := Some(Notification(config.rankingWebhook.value, content));
        var trace, delivered := SendWithRetry(config.rankingWebhook.value, content, DefaultMaxAttempts, DefaultDelayMs, up.webhookAccepts);
        delivery := Some(Delivery(trace, delivered));
      }
      h := Handled(RankChanged(req.userId, groupId, roleId, roleName), metrics, cache.memberships, membershipRequest, [], Some(patch), notify);
    }

    /** `POST /clear-cache`: empties both stores behind the admin gate; the
        hit/miss counters are left as they are. */
    method ClearCache(adminKey: Option<Bytes>) returns (reply: Reply)
      modifies this, cache
      ensures metrics == old(metrics) && totalRequests == old(totalRequests) + 1
      ensures AdminKeyAuth(adminKey, config.adminApiKey) == Next ==>
        reply == Message("All caches cleared") && cache.memberships == map[] && cache.roles == map[]
      ensures AdminKeyAuth(adminKey, config.adminApiKey) == Forbidden ==>
        reply == Failure(403, "Forbidden") && cache.memberships == old(cache.memberships) && cache.roles == old(cache.roles)
      ensures old(RoleStoreEmpty()) ==> RoleStoreEmpty()
    {
      totalRequests := totalRequests + 1;
      if AdminKeyAuth(adminKey, config.adminApiKey) == Forbidden {
        reply := Failure(403, "Forbidden");
        return;
      }
      cache.ClearAllCaches();
      reply := Message("All caches cleared");
    }

    /** `GET /metrics` behind the admin gate: the request count (this request
        included) and the counters. */
    method GetMetrics(adminKey: Option<Bytes>) returns (reply: Reply)
      modifies this
      ensures metrics == old(metrics) && totalRequests == old(totalRequests) + 1
      ensures reply == if AdminKeyAuth(adminKey, config.adminApiKey) == Next
                       then MetricsReport(totalRequests, metrics) else Failure(403, "Forbidden")
      ensures old(RoleStoreEmpty()) ==> RoleStoreEmpty()
    {
      totalRequests := totalRequests + 1;
      if AdminKeyAuth(adminKey, config.adminApiKey) == Forbidden {
        reply := Failure(403, "Forbidden");
        return;
      }
      reply := MetricsReport(totalRequests, metrics);
    }
  }
}
