# Team role resource of the Cortex Terraform provider — a Dafny model

This project models the data mapping at the heart of the provider's team role
resource:

- the three forms of a team role: the API entity (`Cortex.TeamRole`), the
  resource's Terraform state (`Provider.TeamRoleResourceModel`) and the data
  source's state (`Provider.TeamRoleDataSourceModel`), with the conversions
  between them;
- the requests the API client builds from an entity (create and update
  requests), the JSON bodies and query strings their struct tags produce
  (`omitempty`), and the verb, route, body and query each of the five client
  calls sends;
- the five client calls `Get`, `List`, `Create`, `Update` and `Delete` as
  functions of what sending their request came to: a transport failure, a
  failed status check, or a delivered response.

Modules:

| module | file | models |
|---|---|---|
| `Base` | base.dfy | Go's `int64` and an `Option` type |
| `Framework` | framework.dfy | the plugin framework's attribute values (`types.Int64`, `types.String`, `types.Bool`) |
| `Wire` | wire.dfy | JSON bodies and query strings as ordered key/value lists, `omitempty`, and zero-filling decoding |
| `Decimal` | decimal.dfy | Go's `%d` rendering of integers, with a parser as its partner |
| `Cortex` | cortex.dfy | `internal/cortex/team_roles.go` |
| `Provider` | provider.dfy | `internal/provider/team_role_resource_models.go` |

Assumptions about code that is not part of this model, written out as
definitions:

- Framework attribute values are `Null`, `Unknown` or `Known(v)`.
  `ValueInt64`, `ValueString` and `ValueBool` return the value when it is
  known and the Go zero value (0, `""`, `false`) otherwise. The zero value of
  an attribute is null, so `NewTeamRoleResourceModel()` is all null.
- `Route(name, id)` is kept as its two arguments (`Cortex.Route`); an empty id
  names the collection, any other id a member.
- `handleResponseStatus` and the HTTP exchange are folded into
  `Cortex.Outcome`. A call's `send` parameter stands for the transport: it maps
  the request the call builds to the outcome of sending it. A JSON decoding
  error that sling's `Receive` reports counts as a transport failure.
- `errors.Join(a, b)` renders as `a + "\n" + b`.
- `encoding/json` writes struct fields in declaration order, skips an
  `omitempty` field that holds its zero value, and on decoding leaves a
  missing field at its zero value (`Wire.StringMember` and its siblings).
- `go-querystring` writes the `url` tag name as the key, or the Go field name
  when there is no `url` tag. It skips an `omitempty` field that holds its
  zero value, renders integers in decimal, and writes nothing for a nil
  pointer.

Two details of the code that are easy to get wrong:

- The delete call's query parameter is keyed `ID`, not `id`:
  `DeleteTeamRoleRequest` has only a `json` tag, which `QueryStruct` ignores.
- Only `Get` prefixes its status error ("Failed getting team role: ").
  `List`, `Create`, `Update` and `Delete` return the status error unchanged.

## Model

| member | source | states |
|---|---|---|
| `Provider.TeamRoleResourceModel.FromApiModel` | internal/provider/team_role_resource_models.go:21-35 | id, tag and name become known values equal to the entity's. The description is null exactly when the entity's is empty, and otherwise known with the same string. The flag is always known and equal to the entity's. The result never depends on the receiver's prior contents and always has the API shape. |
| `Provider.TeamRoleResourceModel.ToApiModel` | internal/provider/team_role_resource_models.go:37-46 | each known field carries over to the entity; a null or unknown field becomes 0, `""` or `false` |
| `Provider.NewTeamRoleResourceModel` | internal/provider/team_role_resource.go:23-25 | a fresh model has every attribute null |
| `Provider.ToApiModelInvertsFromApiModel` | internal/provider/team_role_resource_models.go:21-46 | for every entity e, `ToApiModel(FromApiModel(e)) == e` |
| `Provider.FromApiModelOverwritesAll` | internal/provider/team_role_resource_models.go:21-35 | two receivers with any contents become equal after `FromApiModel` with the same entity |
| `Provider.RoundTripIffApiShaped` | internal/provider/team_role_resource_models.go:21-46 | `FromApiModel(ToApiModel(m)) == m` holds if and only if m has the API shape: all fields known, and a description that is null or known and non-empty |
| `Provider.FromApiModelIdempotent` | internal/provider/team_role_resource_models.go:21-46 | converting a `FromApiModel` result to an entity and back gives the same state |
| `Provider.KnownEmptyDescriptionCollapses` | internal/provider/team_role_resource_models.go:25-29 | a known empty description comes back from the round trip as null, so such a state is not preserved |
| `Provider.TeamRoleDataSourceModel.FromApiModel` | internal/provider/team_role_resource_models.go:61-67 | every field is known and equal to the entity's, including an empty description |
| `Provider.DataSourceAgreesWithResource` | internal/provider/team_role_resource_models.go:61-67 | the data source and resource states from one entity agree on id, tag, name and the flag. Their descriptions differ exactly when the entity's description is empty. |
| `Provider.UnsetDescriptionNotSent` | internal/provider/team_role_resource.go:140-171 | a planned description that is null, unknown or empty never reaches a create or update body |
| `Provider.KnownPlanSentAsIs` | internal/provider/team_role_resource.go:167-171 | the server reads an update body built from a plan with every field known back as exactly the plan's values, an empty description included |
| `Cortex.TeamRole.ToCreateRequest` | internal/cortex/team_roles.go:107-115 | the create request copies tag, name, description and the flag unchanged; it has no id field |
| `Cortex.TeamRole.ToUpdateRequest` | internal/cortex/team_roles.go:148-157 | the update request copies all five fields, the id included, unchanged |
| `Cortex.CreateRequestForgetsOnlyId` | internal/cortex/team_roles.go:100-115 | two entities give the same create request if and only if they differ at most in their id |
| `Cortex.UpdateRequestKeepsAll` | internal/cortex/team_roles.go:140-157 | two entities give the same update request if and only if they are equal |
| `Cortex.CreateBody` | internal/cortex/team_roles.go:100-105 | `tag` and `name` are always present. `description` is absent if and only if it is `""`. `notificationsEnabled` is absent if and only if it is false. There is no `id` and no other member. |
| `Cortex.UpdateBody` | internal/cortex/team_roles.go:140-146 | `id`, `tag` and `name` are always present. `description` is absent if and only if it is `""`. `notificationsEnabled` is absent if and only if it is false. There is no other member. |
| `Cortex.CreateBodyRoundTrip` | internal/cortex/team_roles.go:100-105 | decoding a create body with zero defaults gives back the request, so omitting members loses nothing |
| `Cortex.UpdateBodyRoundTrip` | internal/cortex/team_roles.go:140-146 | decoding an update body with zero defaults gives back the request |
| `Cortex.ListQuery` | internal/cortex/team_roles.go:67-72 | `page`, `size` (from PerPage) and `query` appear only when non-zero or non-empty, with their decimal or string values. Nothing else appears. The query is empty if and only if the parameters are nil or all zero. |
| `Cortex.ListQueryRoundTrip` | internal/cortex/team_roles.go:67-72 | reading the list query back with zero defaults gives the parameters |
| `Cortex.DeleteQuery` | internal/cortex/team_roles.go:183-192 | the delete query holds exactly one parameter, `ID`, whose decimal value reads back as the id |
| `Cortex.CollectionRoute` | internal/cortex/team_roles.go:83 | the route with an empty id names the `teams_roles` collection |
| `Cortex.MemberRoute` | internal/cortex/team_roles.go:50 | a member route is never the collection, and its `%d` id text parses back to the id |
| `Cortex.MemberRouteInjective` | internal/cortex/team_roles.go:163 | two ids give the same member route if and only if they are equal |
| `Cortex.GetRequest` | internal/cortex/team_roles.go:47-50 | GET on the member `id`, with no body and no query |
| `Cortex.ListRequest` | internal/cortex/team_roles.go:79-83 | GET on the collection, with no body and the list parameters as query |
| `Cortex.CreateRequest` | internal/cortex/team_roles.go:117-121 | POST on the collection with the create body and no query |
| `Cortex.UpdateRequest` | internal/cortex/team_roles.go:159-163 | PUT on the member `req.ID` with the update body and no query |
| `Cortex.DeleteRequest` | internal/cortex/team_roles.go:187-192 | DELETE on the member `id`, with no body and the id again as query parameter |
| `Cortex.RequestExamples` | internal/cortex/team_roles_test.go:32-117 | the routes and the query of the client's tests: ids 1 and 2 render as `"1"` and `"2"`, and empty list parameters give an empty query |
| `Cortex.Get` | internal/cortex/team_roles.go:47-61 | the error is nil exactly when the request was delivered. The decoded, possibly partial entity is returned on every path. Transport and status errors carry their messages. |
| `Cortex.List` | internal/cortex/team_roles.go:79-94 | a response value is returned exactly when delivered, and it is nil on every failure. The error is nil exactly when delivered. |
| `Cortex.Create` | internal/cortex/team_roles.go:117-134 | the error is nil exactly when delivered; the decoded entity is returned beside any error |
| `Cortex.Update` | internal/cortex/team_roles.go:159-176 | the error is nil exactly when delivered; the decoded entity is returned beside any error |
| `Cortex.Delete` | internal/cortex/team_roles.go:187-204 | no error exactly when there is no transport error and the status check passes; the response body plays no part |
| `Decimal.Digits` | internal/cortex/team_roles.go:50 | the rendering of a natural number is non-empty and all digits, with no leading zero |
| `Decimal.FormatInt` | internal/cortex/team_roles.go:192 | `%d` output is non-empty and starts with a minus sign exactly for negative numbers |
| `Decimal.ParseFormat` | internal/cortex/team_roles.go:163 | parsing the `%d` output gives back the integer |

## Left out

- HTTP transport through sling (`Client()`, `Receive`, `BodyJSON`, `QueryStruct`) and JSON decoding of responses are foreign libraries. The client calls take the outcome of sending their request as a parameter.
- `Route` and the path it builds (`/api/v1/teams/roles[/:id]`), `handleResponseStatus` and `ApiError` are not part of this model. A route is kept as its arguments, and the status check is folded into the outcome.
- Logging: `log.Printf` and the best-effort `json.Marshal` of the request on a failed create, update or delete are side effects only.
- The `omitempty` tags of `TeamRole` itself are not modelled: these files never encode a `TeamRole`; they only decode one from responses.
- `TeamRoleResourceModel.FromApiModel`: modelled as a function from the receiver before the call to the receiver after it, not as an update in place. It writes every field, so nothing else about the receiver is lost.
- The resource's `Schema`, `Metadata`, `Configure`, the `Read`/`Create`/`Update`/`Delete` callbacks and `ImportState` are glue over framework `State`, `Plan` and `Diagnostics`, which are not part of this model. The conversions those callbacks chain are covered by `Provider.UnsetDescriptionNotSent` and `Provider.KnownPlanSentAsIs`.
- Strings are modelled as sequences of characters, not Go's byte strings. `encoding/json` replaces invalid UTF-8 with U+FFFD, so `Cortex.CreateBodyRoundTrip` and `Cortex.UpdateBodyRoundTrip` hold only for valid text; every string here comes from Terraform or from JSON, which is valid text.
- The `context.Context` parameters are unused by this code.
- `TeamRolesListParams`: Go's `int` fields are modelled as unbounded integers, since nothing here does arithmetic on them.
- `internal/provider/team_role_resource_test.go` runs the resource against a live API and the Terraform host; it is not modelled.
