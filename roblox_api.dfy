/** The upstream group-management client of roblox-api.js: the membership
    lookup, the paginated role search by rank, and the rank update request.
    HTTP traffic is replaced by its answers: `MembershipsReply` for the
    membership GET, a function from request URL to `PageReply` for the role
    GETs, and the PATCH is returned as a request value. */
module RobloxApi {
  import opened Js

  const BaseUrl: string := "https://apis.roblox.com/cloud/v2/groups"

  /** A group role as the roles listing returns it. */
  datatype Role = Role(id: string, rank: int, displayName: string)

  /** A group membership; `user` is `users/<id>`, `path` is
      `groups/<group>/memberships/<membership>`. Either may be missing from a
      malformed answer. */
  datatype Membership = Membership(user: Option<string>, path: Option<string>)

  /** The answer to the membership GET: a transport/HTTP failure (axios
      throws), or the `groupMemberships` list. */
  datatype MembershipsReply = MembershipsFailed | Memberships(groupMemberships: seq<Membership>)

  /** What `fetchMembership` yields: it throws, or it returns
      `groupMemberships[0]`, which is `undefined` for an empty list. */
  datatype MembershipLookup = LookupThrew | NoMembership | Member(membership: Membership)

  /** The answer to one roles GET: a failure (axios throws, or the body has no
      `groupRoles`), or a page with its `nextPageToken` (`None` when absent or null). */
  datatype PageReply = PageFailed | Page(groupRoles: seq<Role>, nextPageToken: Option<string>)

  /** How `fetchRoleByRank` ends: it returns a role, throws "Role not found",
      throws the request's error, or is still walking pages when the fuel ends. */
  datatype RoleSearch = Found(role: Role) | RoleNotFound | RequestFailed | StillSearching

  /** A search outcome together with every URL requested, in order. */
  datatype Search = Search(outcome: RoleSearch, requests: seq<string>)

  /** The PATCH `updateRank` sends: its URL and the two body fields. */
  datatype PatchRequest = PatchRequest(url: string, user: string, role: string)

  /* ---------------- fetchMembership ---------------- */

  function UserRef(userId: nat): string
  {
    "users/" + NatToDecimal(userId)
  }

  /** The membership GET URL, filtered server-side to one user. */
  function MembershipUrl(groupId: string, userId: nat): string
  {
    BaseUrl + "/" + groupId + "/memberships?maxPageSize=1&filter=user=='" + UserRef(userId) + "'"
  }

  /** Distinct users are looked up with distinct URLs. */
  lemma MembershipUrlNamesOneUser(groupId: string, u1: nat, u2: nat)
    requires MembershipUrl(groupId, u1) == MembershipUrl(groupId, u2)
    ensures u1 == u2
  {
    var p := BaseUrl + "/" + groupId + "/memberships?maxPageSize=1&filter=user=='users/";
    var s := MembershipUrl(groupId, u1);
    var d1, d2 := NatToDecimal(u1), NatToDecimal(u2);
    assert s == p + d1 + "'";
    assert s == p + d2 + "'";
    assert d1 == s[|p|..|s| - 1] == d2;
    NatToDecimalInjective(u1, u2);
  }

  /** `fetchMembership`: the first listed membership, or `undefined`. */
  function FetchMembership(reply: MembershipsReply): (r: MembershipLookup)
    ensures r.LookupThrew? <==> reply.MembershipsFailed?
    ensures r.NoMembership? <==> reply.Memberships? && |reply.groupMemberships| == 0
    ensures r.Member? ==> reply.Memberships? && r.membership == reply.groupMemberships[0]
  {
    match reply
    case MembershipsFailed => LookupThrew
    case Memberships(list) => if |list| == 0 then NoMembership else Member(list[0])
  }

  /* ---------------- fetchRoleByRank ---------------- */

  function RolesUrl(groupId: string): string
  {
    BaseUrl + "/" + groupId + "/roles?maxPageSize=100"
  }

  /** The URL of the next roles request: the token is appended only when it is
      truthy, so an absent token asks for the first page again. */
  function RolesRequestUrl(groupId: string, token: Option<string>): string
  {
    if Truthy(token) then RolesUrl(groupId) + "&pageToken=" + token.value else RolesUrl(groupId)
  }

  /** A truthy token is carried in the URL and read back from it; an absent
      or empty token asks for the first page. */
  lemma RolesRequestUrlCarriesToken(groupId: string, t1: Option<string>, t2: Option<string>)
    ensures !Truthy(t1) ==> RolesRequestUrl(groupId, t1) == RolesUrl(groupId)
    ensures Truthy(t1) && Truthy(t2) && RolesRequestUrl(groupId, t1) == RolesRequestUrl(groupId, t2) ==> t1 == t2
    ensures Truthy(t1) ==> RolesRequestUrl(groupId, t1) != RolesUrl(groupId)
  {
    if Truthy(t1) && Truthy(t2) && RolesRequestUrl(groupId, t1) == RolesRequestUrl(groupId, t2) {
      CancelLeft(RolesUrl(groupId) + "&pageToken=", t1.value, t2.value);
    }
  }

  /** The index of the first role at or after `from` whose rank is strictly
      equal to `rank`, or `|roles|`. */
  function FirstMatch(roles: seq<Role>, rank: int, from: nat): (i: nat)
    requires from <= |roles|
    ensures from <= i <= |roles|
    ensures i < |roles| ==> roles[i].rank == rank
    ensures forall j :: from <= j < i ==> roles[j].rank != rank
    decreases |roles| - from
  {
    if from == |roles| then from
    else if roles[from].rank == rank then from
    else FirstMatch(roles, rank, from + 1)
  }

  /** `groupRoles.find(r => r.rank === rank)`. */
  function Find(roles: seq<Role>, rank: int): (r: Option<Role>)
    ensures r.None? <==> forall j :: 0 <= j < |roles| ==> roles[j].rank != rank
    ensures r.Some? ==> r.value.rank == rank && r.value == roles[FirstMatch(roles, rank, 0)]
  {
    var i := FirstMatch(roles, rank, 0);
    if i < |roles| then Some(roles[i]) else None
  }

  /** A page after which the walk goes on: it was answered, it holds no match
      and its token is not `""`. */
  predicate Continues(reply: PageReply, rank: int)
  {
    reply.Page? && Find(reply.groupRoles, rank).None? && reply.nextPageToken != Some("")
  }

  /** What a single page decides: a match, the end of the list, a failure, or
      (`StillSearching`) that the walk goes on. */
  function PageVerdict(reply: PageReply, rank: int): RoleSearch
  {
    match reply
    case PageFailed => RequestFailed
    case Page(roles, next) =>
      match Find(roles, rank)
      case Some(r) => Found(r)
      case None => if next == Some("") then RoleNotFound else StillSearching
  }

  /** The role walk as a function: starting from `token`, with at most `fuel`
      requests. */
  function Walk(fetch: string -> PageReply, groupId: string, rank: int, token: Option<string>, fuel: nat): Search
    decreases fuel
  {
    if fuel == 0 then Search(StillSearching, [])
    else
      var url := RolesRequestUrl(groupId, token);
      match fetch(url)
      case PageFailed => Search(RequestFailed, [url])
      case Page(roles, next) =>
        match Find(roles, rank)
        case Some(r) => Search(Found(r), [url])
        case None =>
          if next == Some("") then Search(RoleNotFound, [url])
          else
            var rest := Walk(fetch, groupId, rank, next, fuel - 1);
            Search(rest.outcome, [url] + rest.requests)
  }

  /** `fetchRoleByRank`: the do/while loop over pages. `fuel` bounds the number
      of requests, since the loop need not end: `StillSearching` stands for a
      call that has not returned. */
  method FetchRoleByRank(fetch: string -> PageReply, groupId: string, rank: int, fuel: nat)
    returns (outcome: RoleSearch, requests: seq<string>)
    ensures Search(outcome, requests) == Walk(fetch, groupId, rank, None, fuel)
  {
    var nextPageToken: Option<string> := None;
    var left: nat := fuel;
    requests := [];
    while true
      invariant left <= fuel
      invariant var w := Walk(fetch, groupId, rank, nextPageToken, left);
        Walk(fetch, groupId, rank, None, fuel) == Search(w.outcome, requests + w.requests)
      decreases left
    {
      if left == 0 {
        outcome := StillSearching;
        return;
      }
      var url := RolesRequestUrl(groupId, nextPageToken);
      requests := requests + [url];
      left := left - 1;
      var response := fetch(url);
      if response.PageFailed? {
        outcome := RequestFailed;
        return;
      }
      var role := Find(response.groupRoles, rank);
      if role.Some? {
        outcome := Found(role.value);
        return;
      }
      nextPageToken := response.nextPageToken;
      if nextPageToken == Some("") {
        outcome := RoleNotFound;
        return;
      }
    }
  }

  /** The walk's size and ends: at most `fuel` requests, none exactly when
      there is no fuel, the first for the starting token, and the last page
      deciding the outcome (`StillSearching` only when the fuel is spent). */
  lemma {:induction false} WalkShape(fetch: string -> PageReply, groupId: string, rank: int, token: Option<string>, fuel: nat)
    ensures var w := Walk(fetch, groupId, rank, token, fuel);
      && |w.requests| <= fuel
      && (fuel == 0 <==> w.requests == [])
      && (fuel > 0 ==> w.requests[0] == RolesRequestUrl(groupId, token))
      && (fuel > 0 ==> w.outcome == PageVerdict(fetch(w.requests[|w.requests| - 1]), rank))
      && (w.outcome.StillSearching? ==> |w.requests| == fuel)
    decreases fuel
  {
    if fuel > 0 {
      var url := RolesRequestUrl(groupId, token);
      var reply := fetch(url);
      if Continues(reply, rank) {
        WalkShape(fetch, groupId, rank, reply.nextPageToken, fuel - 1);
        var rest := Walk(fetch, groupId, rank, reply.nextPageToken, fuel - 1);
        assert Walk(fetch, groupId, rank, token, fuel) == Search(rest.outcome, [url] + rest.requests);
      } else {
        assert Walk(fetch, groupId, rank, token, fuel) == Search(PageVerdict(reply, rank), [url]);
      }
    }
  }

  /** Each request after the first follows a page that let the walk go on,
      and carries that page's token. */
  lemma {:induction false} WalkChain(fetch: string -> PageReply, groupId: string, rank: int, token: Option<string>, fuel: nat)
    ensures var w := Walk(fetch, groupId, rank, token, fuel);
      forall i :: 0 <= i < |w.requests| - 1 ==>
        Continues(fetch(w.requests[i]), rank)
        && w.requests[i + 1] == RolesRequestUrl(groupId, fetch(w.requests[i]).nextPageToken)
    decreases fuel
  {
    if fuel > 0 {
      var url := RolesRequestUrl(groupId, token);
      var reply := fetch(url);
      if Continues(reply, rank) {
        var next := reply.nextPageToken;
        WalkChain(fetch, groupId, rank, next, fuel - 1);
        WalkShape(fetch, groupId, rank, next, fuel - 1);
        var rest := Walk(fetch, groupId, rank, next, fuel - 1);
        var w := Walk(fetch, groupId, rank, token, fuel);
        assert w.requests == [url] + rest.requests;
        forall i | 0 <= i < |w.requests| - 1
          ensures Continues(fetch(w.requests[i]), rank)
          ensures w.requests[i + 1] == RolesRequestUrl(groupId, fetch(w.requests[i]).nextPageToken)
        {
          if i > 0 {
            assert w.requests[i] == rest.requests[i - 1];
          }
        }
      }
    }
  }

  /** The walk follows the tokens: the first request carries the starting
      token, each later one the token of the page before it, only pages that
      let the walk go on are followed, and the last page decides the outcome
      (`StillSearching` only when the fuel is spent). It puts `WalkShape` and
      `WalkChain` together in one lemma. */
  lemma WalkFollowsTokens(fetch: string -> PageReply, groupId: string, rank: int, token: Option<string>, fuel: nat)
    ensures var w := Walk(fetch, groupId, rank, token, fuel);
      && |w.requests| <= fuel
      && (fuel == 0 <==> w.requests == [])
      && (fuel > 0 ==> w.requests[0] == RolesRequestUrl(groupId, token))
      && (forall i :: 0 <= i < |w.requests| - 1 ==>
            Continues(fetch(w.requests[i]), rank)
            && w.requests[i + 1] == RolesRequestUrl(groupId, fetch(w.requests[i]).nextPageToken))
      && (fuel > 0 ==> w.outcome == PageVerdict(fetch(w.requests[|w.requests| - 1]), rank))
      && (w.outcome.StillSearching? ==> |w.requests| == fuel)
  {
    WalkShape(fetch, groupId, rank, token, fuel);
    WalkChain(fetch, groupId, rank, token, fuel);
  }

  /** An answered page that holds no role of `rank`. */
  predicate NoRoleOfRank(reply: PageReply, rank: int)
  {
    reply.Page? && forall j :: 0 <= j < |reply.groupRoles| ==> reply.groupRoles[j].rank != rank
  }

  /** A found role is the first role of the requested rank in page order, then
      list order: no earlier page has one, and no earlier role of its page does.
      It is never null: it is a role and its rank is the one asked for. */
  lemma FoundIsFirstMatch(fetch: string -> PageReply, groupId: string, rank: int, token: Option<string>, fuel: nat)
    requires Walk(fetch, groupId, rank, token, fuel).outcome.Found?
    ensures var w := Walk(fetch, groupId, rank, token, fuel);
      && w.outcome.role.rank == rank
      && (forall i :: 0 <= i < |w.requests| - 1 ==> NoRoleOfRank(fetch(w.requests[i]), rank))
      && var last := fetch(w.requests[|w.requests| - 1]);
         last.Page?
         && exists k :: 0 <= k < |last.groupRoles| && last.groupRoles[k] == w.outcome.role
                        && forall j :: 0 <= j < k ==> last.groupRoles[j].rank != rank
  {
    WalkFollowsTokens(fetch, groupId, rank, token, fuel);
    var w := Walk(fetch, groupId, rank, token, fuel);
    var last := fetch(w.requests[|w.requests| - 1]);
    var k := FirstMatch(last.groupRoles, rank, 0);
    assert last.groupRoles[k] == w.outcome.role;
  }

  /** The URLs of the requests for a list of tokens. */
  function RequestUrls(groupId: string, tokens: seq<Option<string>>): seq<string>
  {
    if tokens == [] then [] else [RolesRequestUrl(groupId, tokens[0])] + RequestUrls(groupId, tokens[1..])
  }

  /** The token a chain's i-th page carries: the next one's, and `""` for the last. */
  function NextToken(tokens: seq<Option<string>>, i: nat): Option<string>
  {
    if i + 1 < |tokens| then tokens[i + 1] else Some("")
  }

  /** An answered page with no role of `rank` and the given next token. */
  predicate MatchlessPage(reply: PageReply, rank: int, next: Option<string>)
  {
    reply.Page? && Find(reply.groupRoles, rank).None? && reply.nextPageToken == next
  }

  /** `tokens[i]` fetches a page with no role of `rank` whose next token is
      `tokens[i + 1]`, and the last one's is `""`. */
  ghost predicate MatchlessChain(fetch: string -> PageReply, groupId: string, rank: int, tokens: seq<Option<string>>)
  {
    && |tokens| >= 1
    && (forall i :: 1 <= i < |tokens| ==> tokens[i] != Some(""))
    && (forall i {:trigger NextToken(tokens, i)} :: 0 <= i < |tokens| ==>
          MatchlessPage(fetch(RolesRequestUrl(groupId, tokens[i])), rank, NextToken(tokens, i)))
  }

  /** N pages without a match, of which only the N-th carries `""`: exactly N
      requests, one per token in order, and "Role not found". */
  lemma {:induction false} MatchlessChainEndsNotFound(fetch: string -> PageReply, groupId: string, rank: int, tokens: seq<Option<string>>, fuel: nat)
    requires MatchlessChain(fetch, groupId, rank, tokens)
    requires |tokens| <= fuel
    ensures Walk(fetch, groupId, rank, tokens[0], fuel) == Search(RoleNotFound, RequestUrls(groupId, tokens))
    decreases |tokens|
  {
    var url := RolesRequestUrl(groupId, tokens[0]);
    var reply := fetch(url);
    assert MatchlessPage(reply, rank, NextToken(tokens, 0));
    if |tokens| == 1 {
      assert reply.nextPageToken == Some("");
      assert RequestUrls(groupId, tokens) == [url];
    } else {
      var rest := tokens[1..];
      assert reply.nextPageToken == rest[0] != Some("");
      assert MatchlessChain(fetch, groupId, rank, rest) by {
        forall i | 0 <= i < |rest|
          ensures MatchlessPage(fetch(RolesRequestUrl(groupId, rest[i])), rank, NextToken(rest, i))
        {
          assert rest[i] == tokens[i + 1];
          assert NextToken(rest, i) == NextToken(tokens, i + 1);
        }
      }
      MatchlessChainEndsNotFound(fetch, groupId, rank, rest, fuel - 1);
      var tail := Walk(fetch, groupId, rank, rest[0], fuel - 1);
      assert Walk(fetch, groupId, rank, tokens[0], fuel) == Search(tail.outcome, [url] + tail.requests);
      assert RequestUrls(groupId, tokens) == [url] + RequestUrls(groupId, rest);
    }
  }

  /** A first page without a match and without a `nextPageToken` makes the
      walk ask for the first page again and again: it never ends. */
  lemma {:induction false} AbsentTokenRestarts(fetch: string -> PageReply, groupId: string, rank: int, fuel: nat)
    requires Continues(fetch(RolesUrl(groupId)), rank)
    requires fetch(RolesUrl(groupId)).nextPageToken == None
    ensures Walk(fetch, groupId, rank, None, fuel) == Search(StillSearching, seq(fuel, _ => RolesUrl(groupId)))
    decreases fuel
  {
    if fuel > 0 {
      AbsentTokenRestarts(fetch, groupId, rank, fuel - 1);
      assert [RolesUrl(groupId)] + seq(fuel - 1, _ => RolesUrl(groupId)) == seq(fuel, _ => RolesUrl(groupId));
    }
  }

  /* ---------------- updateRank ---------------- */

  /** The PATCH of `updateRank`; the identifiers may be `undefined`, which the
      template literals render as "undefined". */
  function UpdateRankRequest(groupId: string, membershipId: Option<string>, userId: nat, roleId: Option<string>): PatchRequest
  {
    PatchRequest(
      (BaseUrl + "/" + groupId + "/memberships") + "/" + Render(membershipId),
      UserRef(userId),
      ("groups/" + groupId + "/roles") + "/" + Render(roleId))
  }

  /** The PATCH names what it was built from, read back the way the service
      parses upstream identifiers: the membership id is the URL's last segment,
      the role id the role reference's last segment, and removing `users/`
      from the user reference gives the user id. */
  lemma UpdateRankRequestNamesItsTargets(groupId: string, membershipId: Option<string>, userId: nat, roleId: Option<string>)
    requires '/' !in Render(membershipId) && '/' !in Render(roleId)
    ensures var p := UpdateRankRequest(groupId, membershipId, userId, roleId);
      && LastSegment(p.url) == Render(membershipId)
      && LastSegment(p.role) == Render(roleId)
      && RemoveFirst(p.user, "users/") == NatToDecimal(userId)
      && StartsWith(p.url, BaseUrl + "/") && StartsWith(p.user, "users/") && StartsWith(p.role, "groups/")
  {
    var m, r := Render(membershipId), Render(roleId);
    LastSegmentAfterSlash(BaseUrl + "/" + groupId + "/memberships", m);
    LastSegmentAfterSlash("groups/" + groupId + "/roles", r);
    RemoveLeadingPattern("users/", NatToDecimal(userId));
    StartsWithAppend("users/", NatToDecimal(userId), "users/");
    StartsWithAppend(BaseUrl + "/", groupId, BaseUrl + "/");
    StartsWithAppend(BaseUrl + "/" + groupId, "/memberships", BaseUrl + "/");
    StartsWithAppend(BaseUrl + "/" + groupId + "/memberships", "/", BaseUrl + "/");
    StartsWithAppend(BaseUrl + "/" + groupId + "/memberships" + "/", m, BaseUrl + "/");
    StartsWithAppend("groups/", groupId, "groups/");
    StartsWithAppend("groups/" + groupId, "/roles", "groups/");
    StartsWithAppend("groups/" + groupId + "/roles", "/", "groups/");
    StartsWithAppend("groups/" + groupId + "/roles" + "/", r, "groups/");
  }

  /** The PATCH determines what it was built from: equal requests name the
      same group, membership, user and role. */
  lemma UpdateRankRequestInjective(g1: string, m1: Option<string>, u1: nat, r1: Option<string>,
                                   g2: string, m2: Option<string>, u2: nat, r2: Option<string>)
    requires '/' !in Render(m1) && '/' !in Render(r1) && '/' !in Render(m2) && '/' !in Render(r2)
    requires UpdateRankRequest(g1, m1, u1, r1) == UpdateRankRequest(g2, m2, u2, r2)
    ensures g1 == g2 && Render(m1) == Render(m2) && u1 == u2 && Render(r1) == Render(r2)
  {
    UpdateRankRequestNamesItsTargets(g1, m1, u1, r1);
    UpdateRankRequestNamesItsTargets(g2, m2, u2, r2);
    NatToDecimalInjective(u1, u2);
    var p1 := BaseUrl + "/" + g1 + "/memberships";
    var p2 := BaseUrl + "/" + g2 + "/memberships";
    CancelRight(p1 + "/", p2 + "/", Render(m1));
    CancelRight(p1, p2, "/");
    CancelRight(BaseUrl + "/" + g1, BaseUrl + "/" + g2, "/memberships");
    CancelLeft(BaseUrl + "/", g1, g2);
  }
}
