# Verified model of the Confluent Terraform provider

This project models the parts of the provider that carry state, arithmetic or parsing, and proves what
holds of them over all inputs and all runs.

- **Cluster links** (`ClusterLink*.dfy`, `ConfigLists.dfy`). The Kafka REST API is a map from (cluster id,
  link name) to a link with its settings; the Terraform state is a record with four optional cluster blocks.
  Create, read, update, delete and import are steps on both. Each step is a function; the class `Provider`
  carries it out branch by branch and is proved to do exactly that. Go map iteration is an arbitrary choice.
- **OAuth and STS tokens** (`GoNumbers.dfy`, `OAuth*.dfy`). Lifetimes in 64-bit nanoseconds, the buffer rule,
  the two-level refresh, and runs of fetches as a lease machine that both tokens refine.
- **Listings** (`Listing.dfy`, `SchemaRegistryClusters.dfy`, `Importers.dfy`). The page loop that the
  environment, Kafka cluster and schema registry listings share, lookups by display name, the listing over
  all environments, and the connector importer.
- **Catalog entity attributes** (`EntityAttributes*.dfy`). Partial updates of a server map the provider owns
  in part, over whole lives of the resource.
- **Certificate authorities** (`CertificateAuthorities.dfy`). Planning, requests and read-back around the
  placeholder the backend reports for an uploaded revocation list.
- **Ids and names** (`GoStrings.dfy`, `CompositeIds.dfy`, `Organizations.dfy`). Printers against parsers, with
  the exact conditions under which they undo each other.

## What the code does that its documentation or its other half does not say

- Validation lets a bidirectional inbound link have remote credentials; read-back drops them. Such a link is
  created, and from then on an apply is refused exactly when the link was read back since the last apply; the
  refused one saves its plan, after which, settings apart, the plan is empty until the next read
  (`ClusterLinkReapply.ReapplyLife`, with an instance in `QuirksExist`). It is the only accepted combination a
  read changes.
- Changing credentials on an inbound link fails once and then sticks: nothing is sent, but the state keeps them,
  and the provider itself logs in with the new near ones (`ClusterLinkReapply.InboundCredentialsStick`).
- An update that fails before its read is forgotten: the state keeps its plan, and applying it again succeeds and
  sends nothing (`ClusterLinkReapply.FailedUpdateIsForgotten`). So rotated credentials whose API call fails are
  lost (`ClusterLinkLogins.FailedRotationIsLost`), and settings whose removal was refused come back
  (`ClusterLinkReapply.RefusedRemovalIsForgotten`).
- Validation asks for far credentials on outbound source and destination links but not on outbound
  bidirectional ones, which may then log in with an empty key (`ClusterLinkProperties.AcceptedLinkLogsIn`,
  with an instance in `ClusterLinkReapply.QuirksExist`).
- A longer `expires_in` may mean a shorter use, and one too long for 64-bit nanoseconds may mean no use at all
  (`OAuthRuns.LongerPromiseLongerUse` says exactly when, `OAuthRuns.UsedAtAll`).
- After the first STS token the configured lifetime is never asked for again
  (`OAuthRuns.ExchangesAskForLastGrant`).
- A revocation list URL dropped from the configuration is sent again from the state
  (`CertificateAuthorities.SentUrl`).

## Assumptions

- An API call does what it is for or fails without effect; a batch of settings is taken whole or not at all,
  overlays the settings it names, and marks them as dynamic overrides. A partial update of an entity overlays
  the attributes it names.
- When an update returns an error, Terraform keeps the planned values in the state, as its plugin SDK does
  unless told otherwise. An in-place update leaves attributes that force replacement as they were
  (`ClusterLinkRuns.InPlace`). Settings that are not configured, or configured as none, are planned from the
  state, and a resource whose plan is empty is left alone (`ClusterLinkReapply.PlannedAgain`, `VisitStep`).
- `extractPageToken` is a parameter that never yields an empty token; `toValidTerraformResourceName` is a
  parameter.
- For certificate authorities, Terraform plans prior values for computed attributes that are unset or set to
  the empty string, as its plugin SDK does, and over runs the backend reports no URL but the placeholder and
  those of requests it accepted (`CertificateAuthorities.Honest`). That an applied configuration settles also
  rests on the reports the schema describes (`CertificateAuthorities.Reports`).
- Clocks, environment variables, issuer answers and failures of calls are inputs.

## Model

| member | source | states |
|---|---|---|
| `ClusterLinkSchema.ValidateByRole` | internal/provider/resource_cluster_link.go:909-967 | over all schema-valid links, validation accepts exactly those with a REST endpoint on the near side, a bootstrap endpoint on the far side, and credentials as the roles demand; the two quirks (bidirectional far side, destination inbound) are part of the equivalence |
| `ClusterLinkSchema.ErrorsAreTrue` | internal/provider/resource_cluster_link.go:909-967 | a reported error is a fault of the block it names, and names a block of the right role |
| `ClusterLinkSchema.ClientIsNear` | internal/provider/resource_cluster_link.go:697-722 | the REST client of every mode is built from one and the same role, the near block |
| `ConfigLists.FromMap` | internal/provider/resource_cluster_link.go:541-554 | whatever order the map is walked in, the slice filled by index holds every entry once and nothing else |
| `ConfigLists.CollectedOfEnumeration` | internal/provider/resource_cluster_link.go:541-554 | a receiver storing the entries of any such list in turn ends up with the map |
| `ConfigLists.ListsMeans` | internal/provider/resource_cluster_link.go:738-746 | two enumerations appended have distinct names if and only if the maps have disjoint keys, enumerate the union then, and collect to the second over the first in any case |
| `ConfigLists.Filter` | internal/provider/utils.go:1463-1480 | keeps exactly the entries with the given names and repeats none |
| `ClusterLinkRequest.GeneratedAreNotEditable` | internal/provider/resource_cluster_link.go:39-53 | no generated entry bears a name a user may set |
| `ClusterLinkRequest.ConnectionNamesAreGenerated` | internal/provider/resource_cluster_link.go:556-691 | every entry built for any mode bears one of the generated names |
| `ClusterLinkRequest.ConfigForBidirectionalOutbound` | internal/provider/resource_cluster_link.go:556-599 | the map filled key by key is modes, protocols, near login and far login, for OAuth and for API keys |
| `ClusterLinkRequest.ConfigForBidirectionalInbound` | internal/provider/resource_cluster_link.go:601-607 | modes and far bootstrap endpoint only |
| `ClusterLinkRequest.ConfigForDestinationOutbound` | internal/provider/resource_cluster_link.go:609-638 | modes, protocol and far login, no near login |
| `ClusterLinkRequest.ConfigForDestinationInbound` | internal/provider/resource_cluster_link.go:640-646 | modes and far bootstrap endpoint only |
| `ClusterLinkRequest.ConfigForSourceOutbound` | internal/provider/resource_cluster_link.go:648-691 | modes, protocols, near login and far login, with the destination as far side |
| `ClusterLinkRequest.ConstructConnection` | internal/provider/resource_cluster_link.go:729-808 | the mode dispatch over the five builders agrees with the one role-based description of what a link needs |
| `ClusterLinkRequest.ConstructRequest` | internal/provider/resource_cluster_link.go:724-809 | the request names the far cluster under its role and lists the connection entries, then the user's settings |
| `ClusterLinkSecurity.OpeningLinkSays` | internal/provider/resource_cluster_link.go:556-691 | entry by entry, under the names on the wire: a link that opens its connection names its modes and the far bootstrap endpoint, logs in to the far cluster with the far credentials and, unless it is the destination, to the near cluster with the cluster id and credentials of the REST client, says inbound of the other side only if bidirectional, and says nothing else |
| `ClusterLinkSecurity.InboundLinkSays` | internal/provider/resource_cluster_link.go:601-646 | any other link names its modes and the far bootstrap endpoint and nothing else |
| `ClusterLinkSecurity.PlainJaasReadsBack` | internal/provider/resource_cluster_link.go:594-596 | reading the quoted strings of the login text finds the key as username and the secret as password if and only if neither holds a quote |
| `ClusterLinkSecurity.OAuthJaasReadsBack` | internal/provider/resource_cluster_link.go:581-587 | likewise for client id, scope, client secret, cluster id and identity pool of an OAuth login |
| `ClusterLinkProperties.RequestNamesDistinct` | internal/provider/resource_cluster_link.go:724-809 | for any map order, no name repeats in a request if and only if no user setting has a generated name |
| `ClusterLinkLifecycle.RequestEnumerates` | internal/provider/resource_cluster_link.go:724-809 | with editable settings the request is exactly the union of connection entries and settings, each once |
| `ClusterLinkProperties.AcceptedLinkIsBuildable` | internal/provider/resource_cluster_link.go:697-809 | an accepted link has a non-empty REST endpoint, and its request the id of the far block under that block's own name and no other, a non-empty bootstrap.servers of the far cluster and the state's own link and connection modes |
| `ClusterLinkProperties.AcceptedLinkLogsIn` | internal/provider/resource_cluster_link.go:909-967 | an accepted link that opens the connection logs in with the far cluster's key and secret, and the key is empty exactly for a bidirectional link without far credentials |
| `ClusterLinkProperties.CredentialsAreSentOutbound` | internal/provider/resource_cluster_link.go:365-368 | a credential update has entries to send if and only if the near side opens the connection |
| `ClusterLinkProperties.WrittenTwice` | internal/provider/resource_cluster_link.go:252-334 | blocks written from the strings extracted from written blocks are the same blocks, and the client is kept |
| `ClusterLinkProperties.ReadKeepsBlocks` | internal/provider/resource_cluster_link.go:252-334 | exactly which states a read leaves alone, over all states |
| `ClusterLinkProperties.ReadKeepsAcceptedBlocks` | internal/provider/resource_cluster_link.go:252-344 | a read is the identity on the blocks of an accepted link, credentials included, if and only if it is not bidirectional inbound with remote credentials |
| `ClusterLinkProperties.ReadTwice` | internal/provider/resource_cluster_link.go:177-250 | reading again changes nothing and ends alike, for every state, whether the link is there or gone and whichever call fails |
| `ClusterLinkLifecycle.Provider.AlterConfigs` | internal/provider/resource_cluster_link.go:1029-1031 | storing a list entry by entry overlays what the list collects to on one link and no other |
| `ClusterLinkLifecycle.Provider.LoadConfigs` | internal/provider/resource_cluster_link.go:975-995 | the map built in any listing order is exactly the dynamic overrides among the editable names |
| `ClusterLinkLifecycle.Provider.SetAttributes` | internal/provider/resource_cluster_link.go:252-334 | the attribute-by-attribute writes amount to one written state; when listing settings fails, blocks are written but settings and id are not |
| `ClusterLinkLifecycle.Provider.ReadAndSetAttributes` | internal/provider/resource_cluster_link.go:223-250 | a missing link clears the id of an old resource and is an error for a new one |
| `ClusterLinkLifecycle.Provider.Read` | internal/provider/resource_cluster_link.go:177-221 | performs the read step on server and state |
| `ClusterLinkLifecycle.Provider.Create` | internal/provider/resource_cluster_link.go:110-148 | validates, builds, sends in arbitrary order, names and reads back: the create step |
| `ClusterLinkLifecycle.Provider.Update` | internal/provider/resource_cluster_link.go:346-430 | performs the update step: immutable attributes, then credentials, then settings, then read |
| `ClusterLinkLifecycle.Provider.UpdateCredentials` | internal/provider/resource_cluster_link.go:351-381 | the credential part either sends exactly the credential entries or leaves the server alone |
| `ClusterLinkLifecycle.Provider.UpdateConfigs` | internal/provider/resource_cluster_link.go:383-428 | the settings part finds a removed setting in any iteration order before anything is sent |
| `ClusterLinkLifecycle.CredentialsOfRequest` | internal/provider/utils.go:1463-1480 | filtering a full request in any order gives the credential entries of the connection, none of the user's |
| `ClusterLinkLifecycle.Provider.Delete` | internal/provider/resource_cluster_link.go:432-454 | removes the link of the state's near cluster and no other |
| `ClusterLinkLifecycle.Provider.Import` | internal/provider/resource_cluster_link.go:456-539 | performs the import step; a wrong number of fields is refused |
| `ClusterLinkRuns.CredentialsKeepOverrides` | internal/provider/resource_cluster_link.go:351-381 | sending credentials leaves every editable setting and every other link as it was |
| `ClusterLinkRuns.UpdateOwns` | internal/provider/resource_cluster_link.go:346-430 | an update, failed or not, overlays all of its settings or none; when it succeeds, state and server agree |
| `ClusterLinkRuns.UpdateReadsBack` | internal/provider/resource_cluster_link.go:383-430 | from an agreeing state, a successful update reads back exactly the settings planned |
| `ClusterLinkRuns.RemovalIsRefused` | internal/provider/resource_cluster_link.go:394-403 | exactly when an update is refused for a removed setting; credentials may have been sent, every editable setting is unchanged |
| `ClusterLinkRuns.CreateOwns` | internal/provider/resource_cluster_link.go:110-148 | after creation the state agrees with the server, whose editable overrides are those the link was born with under the planned settings, and no other link is touched |
| `ClusterLinkRuns.RunOwns` | internal/provider/resource_cluster_link.go:346-430 | over every run of reads and updates with arbitrary failures, the server holds the settings that landed over the initial ones, and after each successful step the state agrees with it |
| `ClusterLinkRuns.RunNeverShrinks` | internal/provider/resource_cluster_link.go:394-403 | no run of reads and updates removes an overridden setting |
| `ClusterLinkRuns.LinkLife` | internal/provider/resource_cluster_link.go:110-454 | the whole life: creation, any run, deletion; agreement, the exact settings, no other link touched, and deletion restores the server |
| `ClusterLinkRuns.ReadsBackOverridesOnly` | internal/provider/resource_cluster_link.go:975-995 | exactly which settings and values a state shows after creation and any run: those that landed, those created with, and editable ones born with the dynamic source; no default is among them |
| `ClusterLinkRuns.CreatedShowsPlanned` | internal/provider/resource_cluster_link.go:975-995 | a link born without overrides, whatever its defaults, shows just the settings planned |
| `ClusterLinkRuns.CreateOutcome` | internal/provider/resource_cluster_link.go:110-148 | exactly when a creation succeeds, is refused or fails, and what is on the server and in the state then |
| `ClusterLinkRuns.ImmutableIsRefused` | internal/provider/resource_cluster_link.go:346-349 | an update is refused as immutable if and only if it changes name, link mode, connection mode or link id, and sends nothing then |
| `ClusterLinkRuns.VanishedLinkIsForgotten` | internal/provider/resource_cluster_link.go:223-250 | a refresh of a link not under its near cluster and name forgets the id and nothing else; for a new resource it is an error |
| `ClusterLinkReapply.SecondApply` | internal/provider/resource_cluster_link.go:336-381 | right after creation the plan is empty if and only if read-back dropped nothing and the link was born without overrides that configured settings leave out |
| `ClusterLinkReapply.ReapplyLife` | internal/provider/resource_cluster_link.go:110-430 | from creation through any refreshes and applies, with whatever settings and failures: the next apply is refused if and only if read-back drops credentials of the link and did so since the last apply; refused, it sends nothing and saves its plan; otherwise no credentials are sent and the plan is empty unless settings change |
| `ClusterLinkReapply.InboundCredentialsAreRefused` | internal/provider/resource_cluster_link.go:351-368 | for any state, plan and failures: an update is refused for want of credentials to send if and only if it changes some on a link the near side does not open, and then only the state changes |
| `ClusterLinkReapply.FailedUpdateIsForgotten` | internal/provider/resource_cluster_link.go:346-430 | an update that fails before its read saves its plan; applying it again succeeds, sends nothing and reads back the settings from before |
| `ClusterLinkReapply.RefusedRemovalIsForgotten` | internal/provider/resource_cluster_link.go:394-403 | so a refused removal of settings is undone by applying it again |
| `ClusterLinkReapply.InboundCredentialsStick` | internal/provider/resource_cluster_link.go:365-368 | so new credentials on a link the near side does not open fail once and then stay, unsent, and choose the client of every later call |
| `ClusterLinkReapply.QuirksExist` | internal/provider/resource_cluster_link.go:909-973 | a link whose remote credentials are dropped and one that logs in without a key are accepted and created |
| `ClusterLinkLogins.CreatedLinkIsConnected` | internal/provider/resource_cluster_link.go:110-148 | a created link holds every connection entry the read-back state calls for |
| `ClusterLinkLogins.UpdateKeepsLogin` | internal/provider/resource_cluster_link.go:351-381 | after any update, failed or not, the server logs in with the credentials of the state if and only if they changed and were sent or already held, or did not change and agreed before |
| `ClusterLinkLogins.RunKeepsLogin` | internal/provider/resource_cluster_link.go:346-430 | the same equivalence over every run, whatever fails in it: only the last change of credentials decides |
| `ClusterLinkLogins.RotationReconnects` | internal/provider/utils.go:1463-1480 | if the server held the whole connection of the old state, then after a credential update it holds the whole connection of the new one: what is sent leaves out no entry that changed |
| `ClusterLinkLogins.LoginLife` | internal/provider/resource_cluster_link.go:110-430 | from creation through any run, the server holds every connection entry the state calls for exactly as the last change of credentials decides, and always when that change was sent |
| `ClusterLinkLogins.FailedRotationIsLost` | internal/provider/resource_cluster_link.go:351-381 | after a failed sending, of an update with or without new settings, applying again succeeds without sending, and the server's entries stay the old ones |
| `ClusterLinkImport.ImportIdSplits` | internal/provider/resource_cluster_link.go:475-486 | the five fields are recovered if and only if none holds a slash |
| `ClusterLinkImport.CompositeIdSplits` | internal/provider/resource_cluster_link.go:693-695 | the id in the state splits into cluster and name if and only if neither holds a slash, and is then refused as an import id |
| `ClusterLinkImport.ImportSucceeds` | internal/provider/resource_cluster_link.go:475-539 | an import succeeds if and only if its id has four slashes, the link is there under the near id of its mode, and both reads succeed |
| `ClusterLinkImport.ImportThenRead` | internal/provider/resource_cluster_link.go:456-539 | after an import in any mode, a read uses the same client, keeps the composite id and changes nothing; each side has its id from the import id and its endpoints and credentials from the environment of its role, without credentials on the far side of an inbound link |
| `GoNumbers.Wrap64` | internal/provider/oauth.go:93-93 | the result fits 64 bits, is congruent to the exact value, and is that value when it fits |
| `GoNumbers.ParseOfItoa` | internal/provider/oauth.go:68-86 | a number survives being printed and parsed if and only if it has 32 bits, and is refused otherwise |
| `GoNumbers.Half` | internal/provider/oauth.go:96-96 | halving rounds toward zero on both sides of it |
| `OAuthTokens.Truncate` | internal/provider/oauth.go:205-205 | a float is truncated toward zero on both sides of it |
| `OAuthTokens.ParseExternalResponse` | internal/provider/oauth.go:176-214 | the field-by-field parse gives the token of the response with its receipt time plus the usable lifetime |
| `OAuthTokens.ParseSTSResponse` | internal/provider/oauth.go:84-101 | likewise for the STS token |
| `OAuthTokens.RequestNewSTS` | internal/provider/oauth.go:51-102 | what is sent, and that a malformed lifetime setting sends nothing |
| `OAuthTokens.Client.FetchExternal` | internal/provider/utils.go:1113-1121 | keeps a token in use, else replaces it, and keeps the old one on failure |
| `OAuthTokens.Client.FetchSTS` | internal/provider/utils.go:1123-1157 | performs the two-level step; a fresh external token survives a failed exchange |
| `OAuthTokens.Initialize` | internal/provider/provider.go:832-880 | the first pair of tokens, static or fetched, or none at all |
| `OAuthRuns.PromptnessIsExact` | internal/provider/oauth.go:92-98 | every use of a token is strictly before the issuer's expiry if and only if the answer took less than the part kept back |
| `OAuthRuns.CachedTokensAreLive` | internal/provider/oauth.go:43-49 | over any run with prompt answers, no token handed out from the cache has expired at its issuer |
| `OAuthRuns.NextComesAfterUse` | internal/provider/oauth.go:227-236 | a new token is received only after the usable lifetime of the one before |
| `OAuthRuns.UsesDoNotOverlap` | internal/provider/oauth.go:104-110 | the usable lifetimes of all tokens but the last sum to strictly less than the span from first to last receipt |
| `OAuthRuns.UsableForHalfASecond` | internal/provider/oauth.go:202-211 | a whole number of seconds is usable for half a second or more if and only if it is positive |
| `OAuthRuns.RequestsAreBounded` | internal/provider/oauth.go:92-98 | n further answers take more than n half seconds |
| `OAuthRuns.UsedAtAll` | internal/provider/oauth.go:202-211 | a token is ever used if and only if its counted lifetime is not negative; ten thousand million seconds wrap to a negative one |
| `OAuthRuns.LongerPromiseLongerUse` | internal/provider/oauth.go:92-98 | for all lifetimes and buffers, the longer of two lifetimes is used no shorter if and only if both lie on one side of the buffer or the longer makes up for it; the buffers are three minutes and one; 61 seconds are used for one, 60 for thirty |
| `OAuthRuns.ExternalIsALease` | internal/provider/oauth.go:104-110 | fetching the external token refines the lease machine |
| `OAuthRuns.STSIsALease` | internal/provider/utils.go:1123-1157 | fetching the STS token refines the lease machine |
| `OAuthRuns.ExternalTokenIsLive` | internal/provider/utils.go:1113-1121 | after any run of fetches, failures included, the external token is the one started with or one answered in the run, and every use of it is strictly before the expiry of its own grant |
| `OAuthRuns.STSTokenIsLive` | internal/provider/utils.go:1123-1157 | likewise for the STS token under the two-level refresh |
| `OAuthLives.ExternalRunIsALease` | internal/provider/utils.go:1113-1121 | any run of fetches of the external token is a run of the lease machine: what is held, which fetches fail, which answers are taken |
| `OAuthLives.ExternalRequestsAreBounded` | internal/provider/oauth.go:104-110 | n further answers of the external issuer take more than n half seconds |
| `OAuthLives.STSRunIsALease` | internal/provider/utils.go:1123-1157 | any run of calls for the STS token is a run of the lease machine, whatever the external token goes through |
| `OAuthLives.STSAnswersAreObtained` | internal/provider/utils.go:1123-1157 | the answers taken in such a run are the grants the lease machine obtains, in order |
| `OAuthLives.STSRequestsAreBounded` | internal/provider/oauth.go:43-49 | n further answered exchanges take more than n half seconds |
| `OAuthLives.ExchangePresentsALiveToken` | internal/provider/utils.go:1123-1157 | over any run with prompt external answers, an exchange is sent only when the STS token is used up, and presents a token obtained in that very call or one that has not reached the expiry of its grant |
| `OAuthLives.LifeOfSTSToken` | internal/provider/provider.go:832-880 | from initialization through any run: no STS token is used past its expiry, every exchange asks for the lifetime granted last, and answered exchanges are bounded in rate |
| `OAuthLives.LifeOfExternalToken` | internal/provider/provider.go:832-880 | from initialization through any run of fetches: no fetched external token is used past its expiry, and answers are bounded in rate |
| `OAuthLives.ConfiguredSettingsStay` | internal/provider/provider.go:832-880 | over the whole life both tokens are asked for with the client, endpoint, scope and identity pool of the OAuth block |
| `OAuthRuns.AsksAsConfigured` | internal/provider/oauth.go:62-70 | a configured lifetime is asked for as it is when it has 32 bits, refused before anything is sent when it has not or is no number, and none is asked for when none is configured |
| `OAuthRuns.ExchangesAskForLastGrant` | internal/provider/utils.go:1132-1157 | over any run every exchange asks for exactly the lifetime granted last, and the setting never fails to parse |
| `OAuthRuns.GrantsNeverGrow` | internal/provider/utils.go:1132-1157 | with an issuer that grants no more than asked, lifetimes never grow back |
| `OAuthRuns.StaticTokenIsNeverReplaced` | internal/provider/provider.go:853-869 | for a century every exchange presents the configured static token |
| `Listing.LoadAll` | internal/provider/data_source_environment.go:98-128 | the token-following loop returns everything the pages hold, or nothing |
| `Listing.TerminatesUnlessLinksRepeat` | internal/provider/data_source_environment.go:98-128 | the loop ends if and only if the links never lead back to a page |
| `Listing.FailsOnAnyBadPage` | internal/provider/data_source_environment.go:104-126 | no list is returned if and only if some page on the way cannot be had or has a non-empty link without a token |
| `Listing.PagesDoNotMatter` | internal/provider/data_source_environment.go:98-136 | for any cutting into pages linked by URLs that hold the next token, the last without a link or with an empty one, the result is the concatenation in order |
| `Listing.ListingIsServed` | internal/provider/data_source_environment.go:98-136 | a listing succeeds if and only if there are such pages, and is what they hold |
| `Listing.HasMultiple` | internal/provider/data_source_environment.go:172-180 | the counter exceeds one exactly when two places bear the name |
| `Listing.FindByName` | internal/provider/data_source_environment.go:82-95 | duplicates are reported before a match is returned |
| `Listing.FoundWhenUnique` | internal/provider/data_source_environment.go:74-96 | an item is returned exactly when no other place bears its name |
| `Listing.NotFoundOrAmbiguous` | internal/provider/data_source_environment.go:74-96 | nothing is found if and only if no place bears the name, and duplicates are reported if and only if two do |
| `Listing.LookupIgnoresOrder` | internal/provider/data_source_environment.go:74-96 | the outcome is invariant under permutation of the listing |
| `Listing.LookupIgnoresPages` | internal/provider/data_source_kafka_cluster.go:142-164 | two servers holding the same items in any pages and order answer alike |
| `Listing.ReadByDisplayName` | internal/provider/data_source_kafka_cluster.go:142-164 | list, refuse duplicates, find |
| `SchemaRegistryClusters.LoadAllClusters` | internal/provider/data_source_schema_registry_clusters.go:165-195 | the appending loop over environments, with one failure spoiling all |
| `SchemaRegistryClusters.AllIsEachAlone` | internal/provider/data_source_schema_registry_clusters.go:165-195 | with no environment given, the result is each environment loaded alone, end to end, and fails if and only if one of those does |
| `SchemaRegistryClusters.ReadCluster` | internal/provider/data_source_schema_registry_cluster.go:105-169 | the id, name and sole-cluster dispatch: without either, success needs a listing of exactly one and a successful read of it |
| `Importers.RecordCluster` | internal/provider/importers.go:58-61 | the innermost loop records one id per connector |
| `Importers.RecordEnvironment` | internal/provider/importers.go:41-63 | the loop over clusters returns what was met before a failure |
| `Importers.LoadAllConnectors` | internal/provider/importers.go:33-65 | the nested loops with early returns record exactly the connectors met, in order |
| `Importers.InstanceIdsDiffer` | internal/provider/importers.go:59-59 | ids tell triples apart when environment and cluster ids have no slash, whatever connector names hold |
| `Importers.InstanceIdSplits` | internal/provider/importers.go:59-59 | the id splits into environment, cluster and connector, in this order, if and only if none has a slash |
| `Importers.InstanceIdsMeet` | internal/provider/importers.go:59-59 | sharpness of that: among all triples, one shares its id with another if and only if one of its fields has a slash |
| `Importers.InstancesMatchConnectors` | internal/provider/importers.go:58-61 | the instances are one to one with the connectors met, each under its own name |
| `Importers.WalkMeetsWhatIsThere` | internal/provider/importers.go:33-65 | a walk without failure meets a connector if and only if its environment, its cluster there and its name there are listed |
| `Importers.FailureOnlyLoses` | internal/provider/importers.go:40-51 | the ids recorded before a failure are among those of the run in which the failing calls succeed, for any ids; they stand for the same names when environment and cluster ids have no slash; and nothing is lost when nothing failed |
| `EntityAttributes.ParseImportAttributes` | internal/provider/resource_catalog_entity_attributes.go:410-427 | the loop tracks exactly the trimmed, non-empty names but the qualified one |
| `EntityAttributes.Provider.FilterAttributes` | internal/provider/resource_catalog_entity_attributes.go:332-347 | in any iteration order, exactly the tracked names with the server's values or blank |
| `EntityAttributes.Provider.ResetAttributes` | internal/provider/resource_catalog_entity_attributes.go:349-353 | in any iteration order, every attribute blank and none lost |
| `EntityAttributes.Provider.PartialUpdate` | internal/provider/resource_catalog_entity_attributes.go:107-120 | the entity named by type and qualified name is overlaid, no other |
| `EntityAttributes.Provider.Create` | internal/provider/resource_catalog_entity_attributes.go:79-128 | performs the create step |
| `EntityAttributes.Provider.Read` | internal/provider/resource_catalog_entity_attributes.go:130-194 | performs the read step; a missing entity clears the id of an old resource |
| `EntityAttributes.Provider.Update` | internal/provider/resource_catalog_entity_attributes.go:242-297 | performs the update step; unchanged attributes are not sent |
| `EntityAttributes.Provider.Delete` | internal/provider/resource_catalog_entity_attributes.go:196-240 | performs the delete step |
| `EntityAttributes.Provider.Import` | internal/provider/resource_catalog_entity_attributes.go:355-408 | performs the import step |
| `EntityAttributesRuns.RunHolds` | internal/provider/resource_catalog_entity_attributes.go:242-297 | over any run with failures, the entity is what it was under all that landed, with its qualified name, and no other entity is touched |
| `EntityAttributesRuns.DeleteBlanksTracked` | internal/provider/resource_catalog_entity_attributes.go:196-240 | deletion blanks exactly what the state tracks; orphans stay |
| `EntityAttributesRuns.AllNamedIsLast` | internal/provider/resource_catalog_entity_attributes.go:253-275 | the value that counts is that of the last update naming the attribute |
| `EntityAttributesRuns.LifeOfAttributes` | internal/provider/resource_catalog_entity_attributes.go:79-297 | create, updates, delete: how each attribute of the entity ends, exactly |
| `EntityAttributesRuns.ImportIgnoresForm` | internal/provider/resource_catalog_entity_attributes.go:410-427 | two comma-joined lists import alike if and only if they hold the same trimmed names, apart from empty ones and the qualified name |
| `EntityAttributesRuns.ImportIgnoresOrder` | internal/provider/resource_catalog_entity_attributes.go:410-427 | a permuted list imports alike |
| `EntityAttributesRuns.ImportIgnoresRepetition` | internal/provider/resource_catalog_entity_attributes.go:410-427 | repeated names import once |
| `EntityAttributesRuns.ImportIgnoresPadding` | internal/provider/resource_catalog_entity_attributes.go:410-427 | names padded with any spaces import alike |
| `EntityAttributesRuns.PaddingIsIgnored` | internal/provider/resource_catalog_entity_attributes.go:420-420 | a padded name is the name |
| `EntityAttributesRuns.ImportOfJoinedNames` | internal/provider/resource_catalog_entity_attributes.go:410-427 | parsing undoes joining if and only if every name is trimmed, non-empty, free of commas and not the qualified name |
| `EntityAttributesRuns.ImportTracksTheList` | internal/provider/resource_catalog_entity_attributes.go:355-408 | import and every later read track exactly the listed names, whatever the server holds |
| `EntityAttributesRuns.ImportReadsTheEntity` | internal/provider/resource_catalog_entity_attributes.go:355-408 | importing cluster, type, name and list succeeds if and only if that entity can be read, and gives its type, name and id and the values the server has, or none |
| `EntityAttributesRuns.VanishedEntityIsForgotten` | internal/provider/resource_catalog_entity_attributes.go:130-194 | a refresh of an entity gone from the server forgets the id and nothing else; for a new resource it is an error |
| `EntityAttributesRuns.ImmutableIsRefused` | internal/provider/resource_catalog_entity_attributes.go:242-252 | an update is refused as immutable if and only if it changes type or name, and sends nothing then |
| `EntityAttributesRuns.EntityIdSplits` | internal/provider/resource_catalog_entity_attributes.go:299-301 | the id in the state splits into type and name if and only if neither holds a slash |
| `GoStrings.SplitOfJoin` | internal/provider/resource_business_metadata_binding.go:345-348 | splitting recovers joined fields if and only if none holds the separator |
| `GoStrings.JoinOfSplit` | internal/provider/resource_business_metadata_binding.go:345-348 | joining undoes splitting, always |
| `GoStrings.SplitCounts` | internal/provider/resource_business_metadata_binding.go:345-348 | there is one field more than separators |
| `CompositeIds.MetadataIdRoundTrip` | internal/provider/resource_business_metadata.go:327-337 | a printed id imports as its name when neither field has a slash, and is refused in all other cases |
| `CompositeIds.BindingIdRoundTrip` | internal/provider/resource_business_metadata_binding.go:339-364 | a printed id imports as its binding when no field has a slash, and is refused in all other cases |
| `CompositeIds.ImportAcceptsByCount` | internal/provider/resource_business_metadata_binding.go:345-348 | the arity checks accept exactly the ids with one and with three slashes |
| `CompositeIds.ImportedBindingPrintsBack` | internal/provider/resource_business_metadata_binding.go:339-381 | an accepted id is printed again if and only if it named the provider's own cluster |
| `CompositeIds.BuildAttributeDefs` | internal/provider/resource_business_metadata.go:348-369 | the slice filled by index maps every definition |
| `CompositeIds.BuildTfAttributeDefs` | internal/provider/resource_business_metadata.go:371-384 | likewise on the way back |
| `CompositeIds.AttributeDefRoundTrips` | internal/provider/resource_business_metadata.go:348-384 | exactly which definitions survive each round trip |
| `Organizations.StripUndoesAppend` | internal/provider/data_source_organization.go:83-89 | stripping undoes appending if and only if what was appended holds no environment mark |
| `Organizations.SlashFreeIdsStrip` | internal/provider/data_source_organization.go:79-89 | so for every id without a slash, whatever precedes it |
| `Organizations.OrganizationOfEnvironment` | internal/provider/data_source_organization.go:59-72 | both the organization's resource name and its id are recovered from an environment's name |
| `CertificateAuthorities.ResourceDiff.Customize` | internal/provider/resource_certificate_authority.go:124-152 | the customized plan, set by set |
| `CertificateAuthorities.Provider.Apply` | internal/provider/resource_certificate_authority.go:154-193 | the request built setter by setter, logged, and the state read back |
| `CertificateAuthorities.Provider.Read` | internal/provider/resource_certificate_authority.go:242-280 | read-back overwrites all but the two chains |
| `CertificateAuthorities.RequestsAreClean` | internal/provider/resource_certificate_authority.go:298-318 | in every interleaving of read, plan and apply, with a backend that reports only what it accepted, no request carries the placeholder, an empty field, or a list that is not required, and every URL sent was configured by that change or an earlier one or stood in the state or with the backend at the start |
| `CertificateAuthorities.NoUrlUnlessConfigured` | internal/provider/resource_certificate_authority.go:124-171 | a life without any URL in the configuration never sends one, though read-back puts the placeholder into the state |
| `CertificateAuthorities.DocumentedRunsAreHonest` | internal/provider/resource_certificate_authority.go:92-106 | every run in which the backend reports what the schema describes of the request accepted last is one with an honest backend |
| `CertificateAuthorities.SentUrl` | internal/provider/resource_certificate_authority.go:311-318 | exactly which URL is sent: the configured one, or the state's when none is configured |
| `CertificateAuthorities.RequestCarriesConfiguration` | internal/provider/resource_certificate_authority.go:154-171 | every other field of a request is the configured one, the uploaded list only while lists are required and it is not empty |
| `CertificateAuthorities.PlanOfList` | internal/provider/resource_certificate_authority.go:124-152 | exactly when source, date and URL of the list are planned as unknown, as empty, or as they are |
| `CertificateAuthorities.StateShowsAnswer` | internal/provider/resource_certificate_authority.go:242-280 | after apply or refresh the state shows the answer, and both chains as configured or as they were |
| `CertificateAuthorities.AppliedStaysApplied` | internal/provider/resource_certificate_authority.go:90-152 | after apply and read, the next plan is empty if and only if the list is not required or the URL is unset or as reported |
| `CertificateAuthorities.OnlyContradictionsDrift` | internal/provider/resource_certificate_authority.go:90-152 | with the documented backend, exactly two contradictory configurations drift for ever |

## Left out

- HTTP, JSON, logging, contexts, sleeps, retries and the SDK clients: API calls are steps on a map that may fail.
- OAuthTokens.ParseExternalResponse: takes `expires_in` as a number that fits 64 bits once truncated; what Go does with other floats, and its panic on a value that is no number, are not modelled.
- OAuthTokens.RequestNewSTS: a missing HTTP client is not modelled.
- OAuthTokens.Client.FetchExternal: the REST clients that store the token unconditionally, and so keep none after a failure, are not modelled; the provider's own client is.
- ClusterLinkLifecycle.Provider.Delete: waiting for the link to disappear is not modelled.
- ClusterLinkRequest.AddLogin: the login entries of one side are written once for all builders, where the source repeats them in each.
- Importers.RecordEnvironment and Importers.RecordCluster: the inner loops of one source function are methods of their own here; the JSON rendering that only feeds a log line is left out.
- The Kafka cluster importer and the other importers: the same walk with fewer levels.
- The page loops of Kafka clusters and schema registry clusters: the loop of environments, on other items.
- Reads by id of environments and Kafka clusters, and the attributes a data source copies from an item: one call and plain copies.
- EntityAttributes.Provider.Read: attribute values are strings, and the type name in the answer is the one asked for.
- EntityAttributes.Provider.PartialUpdate: storing the connection settings of the resource itself (credentials, endpoint) is not modelled.
- Updates of business metadata and of bindings, and finding a binding in a list: plain requests.
- CertificateAuthorities.Provider.Apply: create and update are one method, their requests being built alike; fingerprints, expiration dates and serial numbers are plain copies. The guard of update against changes of other attributes rests on how the plugin SDK compares computed values and is not modelled.
- CertificateAuthorities.BasePlan: how Terraform merges configuration and state is assumed, not part of this repository.
- Schema declarations, registration of resources, acceptance modes and environment variables: data.
