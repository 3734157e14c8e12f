# Microsoft SharePoint Online connector: profile builders and source binding

A Dafny model of two configuration-mapping components of the Amazon AppFlow
connector for Microsoft SharePoint Online (an AWS CDK construct library).

- **Profile** (`profile.dfy`, from `src/microsoftsharepointonline/profile.ts`):
  pure functions turning the OAuth settings of a connector profile into the
  non-secret *properties* record (fixed grant type `AUTHORIZATION_CODE`, token
  URL passed through) and the secret *credentials* record (access token or the
  placeholder `"dummyAccessToken"` when it is nullish, the three optional
  refresh-token-grant fields, fixed authentication type `OAUTH2`).
- **Source** (`source.dfy`, from `src/microsoftsharepointonline/source.ts`): a
  class with the source's fixed props and connector-type tag. `Bind` builds
  the source-flow record and, through `TryAddNodeDependency`, adds the edge
  flow → profile to the host's dependency graph (a class holding a set of
  edges) exactly when the profile value is truthy and not a string.
- **Scenario** (`scenario.dfy`): a refresh-token-grant profile and a source
  reading the `Documents` entity, bound to one flow.
- **Wrappers** (`wrappers.dfy`): `Option` (for `undefined` fields) and `Result`
  (for a thrown error).

Modelling choices:
- Deferred (`IResolvable`) values are opaque strings; construct identities are
  their paths (`NodeId`).
- The connector-type tag comes from `./type`, which is not part of this model:
  it is an opaque single-value datatype `ProfileConnectorType`.
- The grant-type and authentication-type enums are not part of this model;
  their values are the strings the AppFlow schema carries.
- The profile props follow the declared TypeScript interfaces
  (profile.ts:12-42): `endpoints` and `refreshTokenGrant` are required, so the
  optional chaining on `endpoints` at profile.ts:69 always takes the present
  branch.
- The value given to the dependency guard has the guard's declared parameter
  type (`IConstruct | string`, optional): `ProfileRef = Absent | ByString |
  Concrete`. `Absent` and `ByString` lie outside the declared source props
  (source.ts:17 declares a required profile object) and are modelled because
  the guard's parameter at source.ts:54 admits them. JavaScript truthiness is modelled (`Truthy`: `undefined` and `""`
  are falsy) and the guard is proved to hold exactly for `Concrete`. `Truthy`
  and `IsString` are the two halves of the guard at source.ts:55; their
  conjunction is `AddsDependency`, whose row in the table covers them.
- The connector-type tag is a single-value datatype, so "the record carries
  the SharePoint Online tag, the same on every bind" holds by the type of
  `SourceFlowConfig`; the corresponding clause of `FlowConfig` adds nothing
  beyond it.
- The source's `object` prop is the field `objectName` (`object` is a Dafny
  keyword).
- Both builders and the record part of `Bind` are Dafny functions, so they are
  total and deterministic by construction: equal props give equal records.

Two behaviours of the code worth noting:
- `connectorProfileName` is read as `profile.name` (source.ts:40). For a string
  profile value that property is `undefined`, so the record carries no name
  (`None`) rather than the string; for an `undefined` profile the read throws,
  modelled as `Failure(ProfileUndefined)` after the guard has left the graph
  unchanged.
- Profiles imported by name or ARN are construct objects in the code
  (profile.ts:46-52 return a profile object), so the guard adds an edge for
  them too; only a string or `undefined` value skips the edge.

## Model

| member | source | states |
|---|---|---|
| `Profile.BuildConnectorProfileProperties` | src/microsoftsharepointonline/profile.ts:58-73 | the grant type is `AUTHORIZATION_CODE` for every input, refresh-token flow or not; `tokenUrl` is `oAuth.endpoints.token` verbatim |
| `Profile.PropertiesDependOnlyOnTokenEndpoint` | src/microsoftsharepointonline/profile.ts:62-72 | two props give equal properties records if and only if their token endpoints are equal |
| `Profile.PropertiesIgnoreCredentials` | src/microsoftsharepointonline/profile.ts:58-73 | changing the access token or the flow leaves the properties record unchanged |
| `Profile.BuildConnectorProfileCredentials` | src/microsoftsharepointonline/profile.ts:75-92 | authentication type is always `OAUTH2`; a present access token is kept (the empty string included), an absent one becomes `"dummyAccessToken"`; with a flow the three fields equal the grant's, absent ones included; without a flow all three are absent |
| `Profile.AccessTokenIgnoresFlow` | src/microsoftsharepointonline/profile.ts:84 | the credentials' access token is the same whatever flow is configured |
| `Profile.CredentialsIgnoreEndpoints` | src/microsoftsharepointonline/profile.ts:80-91 | the credentials record does not depend on the token endpoint |
| `Profile.OnlyTokenEndpointConfigured` | src/microsoftsharepointonline/profile.ts:82-89 | with only the token endpoint set, the credentials are exactly the placeholder token, three absent fields and `OAUTH2` |
| `Profile.CredentialsEqualIff` | src/microsoftsharepointonline/profile.ts:82-89 | two props give equal credentials if and only if their access tokens agree up to the placeholder and their refresh-token grants agree, no flow counting as an all-absent grant |
| `Profile.CredentialsNotInjective` | src/microsoftsharepointonline/profile.ts:84 | there are props with no access token whose credentials equal those of the same props with the access token set to the placeholder literal: the placeholder is indistinguishable from no access token |
| `Source.AddsDependency` | src/microsoftsharepointonline/source.ts:55 | the guard "truthy and not a string" holds if and only if the value is a profile object |
| `Source.ProfileName` | src/microsoftsharepointonline/source.ts:40 | reading `name` fails exactly for `undefined`, gives the profile's name for an object and nothing for a string |
| `Source.EdgesAfterBind` | src/microsoftsharepointonline/source.ts:54-58 | no edge is removed; the only edge that can appear is scope → profile, and it is present afterwards whenever the value is a profile object |
| `Source.EdgeAddedIff` | src/microsoftsharepointonline/source.ts:55-56 | the edge set changes if and only if the value is a profile object not yet depended on; for a string or `undefined` it is unchanged |
| `Source.NewEdgeCount` | src/microsoftsharepointonline/source.ts:54-58 | at most one new edge; exactly one for a profile object not yet depended on; none for a string or `undefined` |
| `Source.EdgesAfterBindIdempotent` | src/microsoftsharepointonline/source.ts:36 | running the guard a second time for the same scope and value changes nothing |
| `Source.DependencyGraph.AddDependency` | src/microsoftsharepointonline/source.ts:56 | the graph gains the edge from → to and nothing else |
| `Source.SharepointOnlineSource.constructor` | src/microsoftsharepointonline/source.ts:30-32 | the source keeps its props and carries the SharePoint Online connector-type tag |
| `Source.SharepointOnlineSource.BuildSourceConnectorProperties` | src/microsoftsharepointonline/source.ts:46-52 | the nested record's `entityName` is the `object` prop (and, by its type, its only field) |
| `Source.SharepointOnlineSource.FlowConfig` | src/microsoftsharepointonline/source.ts:38-43 | the record fails only for an `undefined` profile; otherwise it carries the fixed tag, the API version verbatim, the entity name, and the profile's name for a profile object (none for a string) |
| `Source.SharepointOnlineSource.TryAddNodeDependency` | src/microsoftsharepointonline/source.ts:54-58 | the graph afterwards is `EdgesAfterBind` of the graph before |
| `Source.SharepointOnlineSource.Bind` | src/microsoftsharepointonline/source.ts:34-44 | the graph gains the dependency edge as the guard decides; the returned record is `FlowConfig()`, a function of the props alone, whatever the graph held |
| `Source.BindTwice` | src/microsoftsharepointonline/source.ts:34-44 | binding twice returns equal records and leaves the graph as one bind does |
| `Scenario.RefreshTokenGrantSource` | src/microsoftsharepointonline/source.ts:34-52 | through `Profile.BuildConnectorProfileCredentials` (profile.ts:80-91), a refresh-token-grant profile yields placeholder token, `r1`, `c1`, `s1`; binding its source gives API version `v1`, entity `Documents`, the profile's name and the single edge flow → profile |

## Left out

- `fromConnectionProfileArn` and `fromConnectionProfileName` (profile.ts:46-52) and the profile constructor's `super(...)` call (profile.ts:54-56): they delegate to `ConnectorProfileBase` and the construct tree, which are not part of this model.
- The connector-type registry in `./type` (`MicrosoftSharepointOnlineConnectorType.instance`, `asProfileConnectorType`): not part of this model; the tag is an opaque constant.
- CDK synthesis, `IResolvable` token resolution and the real `node.addDependency`: the graph is an abstract set of edges.
- Props shapes outside the declared interfaces (an `undefined` `endpoints`, a `flow` without `refreshTokenGrant`, which would throw at profile.ts:85): the profile props follow the declared types.
- OAuth token exchange and credential validation: the code does neither.
