/**
 * The team roles part of the Cortex API client: the entity and its request
 * types, the JSON bodies and query strings their struct tags produce, and the
 * five client calls as functions of what sending their request came to.
 */
module Cortex {
  import opened Base
  import opened Wire
  import Decimal

  /** A team role as the API returns it. */
  datatype TeamRole = TeamRole(id: int64, name: string, tag: string, description: string, notificationsEnabled: bool)
  {
    /** The create request for this role: every field but the id, unchanged. */
    function ToCreateRequest(): (req: CreateTeamRoleRequest)
      ensures req.tag == tag && req.name == name
      ensures req.description == description && req.notificationsEnabled == notificationsEnabled
    {
      CreateTeamRoleRequest(tag, name, description, notificationsEnabled)
    }

    /** The update request for this role: all five fields, the id included, unchanged. */
    function ToUpdateRequest(): (req: UpdateTeamRoleRequest)
      ensures req.id == id && req.tag == tag && req.name == name
      ensures req.description == description && req.notificationsEnabled == notificationsEnabled
    {
      UpdateTeamRoleRequest(id, tag, name, description, notificationsEnabled)
    }
  }

  /** Query parameters of the list call; a zero field is left to the server's default. */
  datatype TeamRolesListParams = TeamRolesListParams(page: int, perPage: int, query: string)

  /** The list response: the roles under the JSON member "items", in the server's order. */
  datatype TeamRolesListResponse = TeamRolesListResponse(roles: seq<TeamRole>)

  datatype CreateTeamRoleRequest = CreateTeamRoleRequest(tag: string, name: string, description: string, notificationsEnabled: bool)

  datatype UpdateTeamRoleRequest = UpdateTeamRoleRequest(id: int64, tag: string, name: string, description: string, notificationsEnabled: bool)

  /** The delete call's response holds no fields: whatever body comes back is dropped. */
  datatype DeleteTeamRoleResponse = DeleteTeamRoleResponse

  datatype DeleteTeamRoleRequest = DeleteTeamRoleRequest(id: int64)

  /** Two roles give the same create request exactly when they differ at most in their id. */
  lemma CreateRequestForgetsOnlyId(a: TeamRole, b: TeamRole)
    ensures a.ToCreateRequest() == b.ToCreateRequest() <==> a.(id := b.id) == b
  {
  }

  /** Distinct roles give distinct update requests. */
  lemma UpdateRequestKeepsAll(a: TeamRole, b: TeamRole)
    ensures a.ToUpdateRequest() == b.ToUpdateRequest() <==> a == b
  {
  }

  /*****************************************************************************
   * Bodies and query strings
   *****************************************************************************/

  /** A JSON body: its members in the order `encoding/json` writes them. */
  type Body = seq<Entry<Json>>

  /** A query string: its parameters, one entry per key. */
  type Query = seq<Entry<string>>

  /**
   * The body written for a create request. `tag` and `name` are always there;
   * "omitempty" drops an empty description and a false notifications flag.
   */
  function CreateBody(req: CreateTeamRoleRequest): (body: Body)
    ensures Lookup(body, "tag") == Some(JString(req.tag))
    ensures Lookup(body, "name") == Some(JString(req.name))
    ensures Lookup(body, "description") == if req.description == "" then None else Some(JString(req.description))
    ensures Lookup(body, "notificationsEnabled") == if req.notificationsEnabled then Some(JBool(true)) else None
    ensures forall k :: Lookup(body, k).Some? ==> k == "tag" || k == "name" || k == "description" || k == "notificationsEnabled"
  {
    var t := Always("tag", JString(req.tag));
    var m := Always("name", JString(req.name));
    var d := OmitEmpty("description", JString(req.description), req.description == "");
    var n := OmitEmpty("notificationsEnabled", JBool(req.notificationsEnabled), !req.notificationsEnabled);
    LookupAppend(t, m);
    LookupAppend(t + m, d);
    LookupAppend(t + m + d, n);
    t + m + d + n
  }

  /**
   * The body written for an update request: the create body's members with
   * `id` always present in front of them.
   */
  function UpdateBody(req: UpdateTeamRoleRequest): (body: Body)
    ensures Lookup(body, "id") == Some(JInt(req.id as int))
    ensures Lookup(body, "tag") == Some(JString(req.tag))
    ensures Lookup(body, "name") == Some(JString(req.name))
    ensures Lookup(body, "description") == if req.description == "" then None else Some(JString(req.description))
    ensures Lookup(body, "notificationsEnabled") == if req.notificationsEnabled then Some(JBool(true)) else None
    ensures forall k :: Lookup(body, k).Some? ==> k == "id" || k == "tag" || k == "name" || k == "description" || k == "notificationsEnabled"
  {
    var i := Always("id", JInt(req.id as int));
    var t := Always("tag", JString(req.tag));
    var m := Always("name", JString(req.name));
    var d := OmitEmpty("description", JString(req.description), req.description == "");
    var n := OmitEmpty("notificationsEnabled", JBool(req.notificationsEnabled), !req.notificationsEnabled);
    LookupAppend(i, t);
    LookupAppend(i + t, m);
    LookupAppend(i + t + m, d);
    LookupAppend(i + t + m + d, n);
    i + t + m + d + n
  }

  /** How the server's JSON decoder reads a create body back: missing members stay zero. */
  function DecodeCreateBody(body: Body): CreateTeamRoleRequest {
    CreateTeamRoleRequest(StringMember(body, "tag"), StringMember(body, "name"),
                          StringMember(body, "description"), BoolMember(body, "notificationsEnabled"))
  }

  /** How the server's JSON decoder reads an update body back: missing members stay zero. */
  function DecodeUpdateBody(body: Body): UpdateTeamRoleRequest {
    UpdateTeamRoleRequest(Int64Member(body, "id"), StringMember(body, "tag"), StringMember(body, "name"),
                          StringMember(body, "description"), BoolMember(body, "notificationsEnabled"))
  }

  /** The omitted members lose nothing: decoding a create body gives back the request. */
  lemma CreateBodyRoundTrip(req: CreateTeamRoleRequest)
    ensures DecodeCreateBody(CreateBody(req)) == req
  {
  }

  /** The omitted members lose nothing: decoding an update body gives back the request. */
  lemma UpdateBodyRoundTrip(req: UpdateTeamRoleRequest)
    ensures DecodeUpdateBody(UpdateBody(req)) == req
  {
  }

  /**
   * The query string `QueryStruct` writes for the list parameters: `page`,
   * `size` (from PerPage) and `query`, each only when it is not zero. A nil
   * parameter pointer writes nothing.
   */
  function ListQuery(params: Option<TeamRolesListParams>): (q: Query)
    ensures params.Some? ==> Lookup(q, "page") == (if params.value.page == 0 then None else Some(Decimal.FormatInt(params.value.page)))
    ensures params.Some? ==> Lookup(q, "size") == (if params.value.perPage == 0 then None else Some(Decimal.FormatInt(params.value.perPage)))
    ensures params.Some? ==> Lookup(q, "query") == (if params.value.query == "" then None else Some(params.value.query))
    ensures forall k :: Lookup(q, k).Some? ==> params.Some? && (k == "page" || k == "size" || k == "query")
    ensures q == [] <==> params.None? || params.value == TeamRolesListParams(0, 0, "")
  {
    match params
    case None => []
    case Some(p) =>
      var pg := OmitEmpty("page", Decimal.FormatInt(p.page), p.page == 0);
      var sz := OmitEmpty("size", Decimal.FormatInt(p.perPage), p.perPage == 0);
      var qu := OmitEmpty("query", p.query, p.query == "");
      LookupAppend(pg, sz + qu);
      LookupAppend(sz, qu);
      pg + (sz + qu)
  }

  /** An integer query parameter as the server reads it: missing or unreadable is 0. */
  function IntParam(q: Query, key: string): int {
    match Lookup(q, key)
    case Some(s) => (match Decimal.ParseInt(s) case Some(i) => i case None => 0)
    case None => 0
  }

  /** How the server reads the list query back: missing parameters are zero. */
  function DecodeListQuery(q: Query): TeamRolesListParams {
    TeamRolesListParams(IntParam(q, "page"), IntParam(q, "size"),
                        match Lookup(q, "query") case Some(s) => s case None => "")
  }

  /** The omitted parameters lose nothing: reading the list query back gives the parameters. */
  lemma ListQueryRoundTrip(p: TeamRolesListParams)
    ensures DecodeListQuery(ListQuery(Some(p))) == p
  {
    Decimal.ParseFormat(p.page);
    Decimal.ParseFormat(p.perPage);
  }

  /**
   * The query string `QueryStruct` writes for the delete request. The field
   * has no `url` tag, so its key is the field name `ID`; it has no
   * "omitempty", so it is always written.
   */
  function DeleteQuery(req: DeleteTeamRoleRequest): (q: Query)
    ensures Lookup(q, "ID") == Some(Decimal.FormatInt(req.id as int))
    ensures IntParam(q, "ID") == req.id as int
    ensures forall k :: Lookup(q, k).Some? ==> k == "ID"
  {
    Decimal.ParseFormat(req.id as int);
    [Entry("ID", Decimal.FormatInt(req.id as int))]
  }

  /*****************************************************************************
   * Requests
   *****************************************************************************/

  datatype Verb = GET | POST | PUT | DELETE

  /**
   * The arguments given to `Route(name, id)`. The path it builds from them is
   * not part of this model; an empty id names the collection, any other id a
   * member of it.
   */
  datatype Route = Route(name: string, id: string)
  {
    predicate IsCollection() { id == "" }
  }

  const TeamRolesRoute := "teams_roles"

  /** What a client call sends: the verb, the route, the body (if any) and the query. */
  datatype Request = Request(verb: Verb, route: Route, body: Option<Body>, query: Query)

  /** The collection of team roles. */
  function CollectionRoute(): (r: Route)
    ensures r.name == TeamRolesRoute && r.IsCollection()
  {
    Route(TeamRolesRoute, "")
  }

  /** The team role `id`, rendered with `%d`: never the collection, and the id can be read back. */
  function MemberRoute(id: int64): (r: Route)
    ensures r.name == TeamRolesRoute && !r.IsCollection()
    ensures Decimal.ParseInt(r.id) == Some(id as int)
  {
    Decimal.ParseFormat(id as int);
    Route(TeamRolesRoute, Decimal.FormatInt(id as int))
  }

  /** Distinct ids name distinct members. */
  lemma MemberRouteInjective(a: int64, b: int64)
    ensures MemberRoute(a) == MemberRoute(b) <==> a == b
  {
    Decimal.FormatIntInjective(a as int, b as int);
  }

  /** `Get`: GET on the member `id`, no body, no query. */
  function GetRequest(id: int64): (r: Request)
    ensures r.verb == GET && r.route == MemberRoute(id) && r.body == None && r.query == []
  {
    Request(GET, MemberRoute(id), None, [])
  }

  /** `List`: GET on the collection, no body, the list parameters as query. */
  function ListRequest(params: Option<TeamRolesListParams>): (r: Request)
    ensures r.verb == GET && r.route == CollectionRoute() && r.body == None && r.query == ListQuery(params)
  {
    Request(GET, CollectionRoute(), None, ListQuery(params))
  }

  /** `Create`: POST on the collection with the create body, no query. */
  function CreateRequest(req: CreateTeamRoleRequest): (r: Request)
    ensures r.verb == POST && r.route == CollectionRoute() && r.body == Some(CreateBody(req)) && r.query == []
  {
    Request(POST, CollectionRoute(), Some(CreateBody(req)), [])
  }

  /** `Update`: PUT on the member `req.id` with the update body, no query. */
  function UpdateRequest(req: UpdateTeamRoleRequest): (r: Request)
    ensures r.verb == PUT && r.route == MemberRoute(req.id) && r.body == Some(UpdateBody(req)) && r.query == []
  {
    Request(PUT, MemberRoute(req.id), Some(UpdateBody(req)), [])
  }

  /** `Delete`: DELETE on the member `id`, no body, `id` repeated as a query parameter. */
  function DeleteRequest(id: int64): (r: Request)
    ensures r.verb == DELETE && r.route == MemberRoute(id) && r.body == None
    ensures r.query == DeleteQuery(DeleteTeamRoleRequest(id))
  {
    Request(DELETE, MemberRoute(id), None, DeleteQuery(DeleteTeamRoleRequest(id)))
  }

  /** The requests of the client's tests: ids 1 and 2 and empty list parameters. */
  lemma RequestExamples()
    ensures GetRequest(1).route == Route("teams_roles", "1")
    ensures UpdateRequest(UpdateTeamRoleRequest(1, "", "Engineer", "A team role", true)).route == Route("teams_roles", "1")
    ensures DeleteRequest(2).route == Route("teams_roles", "2")
    ensures ListRequest(Some(TeamRolesListParams(0, 0, ""))).query == []
  {
    assert Decimal.Digits(1) == "1";
    assert Decimal.Digits(2) == "2";
  }

  /*****************************************************************************
   * Calls
   *****************************************************************************/

  /**
   * What sending a request came to. `TransportFailure`: `Receive` returned an
   * error (no usable response). `StatusFailure`: a response came back and the
   * status check rejected it with `cause`. `Delivered`: the status check
   * passed. `decoded` is what the call's response struct holds afterwards,
   * which after a failure may be zero or only partly filled.
   */
  datatype Outcome<T> =
    | TransportFailure(decoded: T, cause: string)
    | StatusFailure(decoded: T, cause: string)
    | Delivered(decoded: T)

  /** A call's two results: the response pointer (None for nil) and the error (None for nil). */
  datatype Reply<T> = Reply(value: Option<T>, err: Option<string>)

  /**
   * `Get(id)`: no error exactly when the request was delivered; the decoded
   * role comes back on every path, beside any error.
   */
  function Get(id: int64, send: Request -> Outcome<TeamRole>): (r: Reply<TeamRole>)
    ensures r.value == Some(send(GetRequest(id)).decoded)
    ensures r.err.None? <==> send(GetRequest(id)).Delivered?
    ensures send(GetRequest(id)).TransportFailure? ==> r.err == Some("could not get team role: " + send(GetRequest(id)).cause)
    ensures send(GetRequest(id)).StatusFailure? ==> r.err == Some("Failed getting team role: " + "\n" + send(GetRequest(id)).cause)
  {
    match send(GetRequest(id))
    case TransportFailure(decoded, cause) => Reply(Some(decoded), Some("could not get team role: " + cause))
    case StatusFailure(decoded, cause) => Reply(Some(decoded), Some("Failed getting team role: " + "\n" + cause))
    case Delivered(decoded) => Reply(Some(decoded), None)
  }

  /** `List(params)`: a response only when delivered; on any failure a nil response and an error. */
  function List(params: Option<TeamRolesListParams>, send: Request -> Outcome<TeamRolesListResponse>): (r: Reply<TeamRolesListResponse>)
    ensures r.value.Some? <==> send(ListRequest(params)).Delivered?
    ensures r.err.None? <==> send(ListRequest(params)).Delivered?
    ensures r.value.Some? ==> r.value.value == send(ListRequest(params)).decoded
    ensures send(ListRequest(params)).TransportFailure? ==> r.err == Some("could not get team roles: " + send(ListRequest(params)).cause)
    ensures send(ListRequest(params)).StatusFailure? ==> r.err == Some(send(ListRequest(params)).cause)
  {
    match send(ListRequest(params))
    case TransportFailure(_, cause) => Reply(None, Some("could not get team roles: " + cause))
    case StatusFailure(_, cause) => Reply(None, Some(cause))
    case Delivered(decoded) => Reply(Some(decoded), None)
  }

  /** `Create(req)`: no error exactly when delivered; the decoded role comes back on every path. */
  function Create(req: CreateTeamRoleRequest, send: Request -> Outcome<TeamRole>): (r: Reply<TeamRole>)
    ensures r.value == Some(send(CreateRequest(req)).decoded)
    ensures r.err.None? <==> send(CreateRequest(req)).Delivered?
    ensures send(CreateRequest(req)).TransportFailure? ==> r.err == Some("could not create team role: " + send(CreateRequest(req)).cause)
    ensures send(CreateRequest(req)).StatusFailure? ==> r.err == Some(send(CreateRequest(req)).cause)
  {
    match send(CreateRequest(req))
    case TransportFailure(decoded, cause) => Reply(Some(decoded), Some("could not create team role: " + cause))
    case StatusFailure(decoded, cause) => Reply(Some(decoded), Some(cause))
    case Delivered(decoded) => Reply(Some(decoded), None)
  }

  /** `Update(req)`: no error exactly when delivered; the decoded role comes back on every path. */
  function Update(req: UpdateTeamRoleRequest, send: Request -> Outcome<TeamRole>): (r: Reply<TeamRole>)
    ensures r.value == Some(send(UpdateRequest(req)).decoded)
    ensures r.err.None? <==> send(UpdateRequest(req)).Delivered?
    ensures send(UpdateRequest(req)).TransportFailure? ==> r.err == Some("could not update team role: " + send(UpdateRequest(req)).cause)
    ensures send(UpdateRequest(req)).StatusFailure? ==> r.err == Some(send(UpdateRequest(req)).cause)
  {
    match send(UpdateRequest(req))
    case TransportFailure(decoded, cause) => Reply(Some(decoded), Some("could not update team role: " + cause))
    case StatusFailure(decoded, cause) => Reply(Some(decoded), Some(cause))
    case Delivered(decoded) => Reply(Some(decoded), None)
  }

  /** `Delete(id)`: the error, which is nil exactly when the request was delivered. */
  function Delete(id: int64, send: Request -> Outcome<DeleteTeamRoleResponse>): (err: Option<string>)
    ensures err.None? <==> send(DeleteRequest(id)).Delivered?
    ensures send(DeleteRequest(id)).TransportFailure? ==>
      err == Some("could not delete team role " + Decimal.FormatInt(id as int) + ":\n\n" + send(DeleteRequest(id)).cause)
    ensures send(DeleteRequest(id)).StatusFailure? ==> err == Some(send(DeleteRequest(id)).cause)
  {
    match send(DeleteRequest(id))
    case TransportFailure(_, cause) => Some("could not delete team role " + Decimal.FormatInt(id as int) + ":\n\n" + cause)
    case StatusFailure(_, cause) => Some(cause)
    case Delivered(_) => None
  }
}
