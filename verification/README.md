# MCP Center, verified

A Dafny model of the parts of MCP Center whose behaviour spans many operations, with proofs about all their runs.

- **OAuth grants and token families** (`OAuthTables`, `OAuthEndpoints`, `TokenFamilies`, `GrantRuns`, `FamilySafety`,
  `Provenance`, `GrantFlows`, `GrantAnswers`, `TokenAnswers`, `RevocationAnswers`, `CodeProvenance`, `GrantExamples`,
  `AuthorizationServer`): tables, the requests on them, and runs in which every request may stop after any of its
  commits. The three modules of answers say of every request what it is told and which rows it leaves, in terms of the
  call and the tables alone. `AuthorizationServer.Server` is the program's form, tables that methods update in place;
  each of its methods performs a plan of commits, the safety theorems are about runs of these plans, and `Served`
  brings them back to the object. The rules followed are section 4.1.2 and section 6 of RFC 6749, section 4.14.2 of
  RFC 9700, section 2.1 of RFC 7009 and section 2.2 of RFC 7662.
- **Scopes, consent, signing keys, client assertions** (`ScopeRegistry`, `ScopeTexts`, `ConsentPolicy`, `SigningKeys`,
  `ClientAssertions`; section 3 of RFC 7523). Granted names are joined, stored and split again: `ScopeTexts` says what
  comes back.
- **The offline verifier** (`RevocationFeed`, `RevocationDelivery`, `ProbeCopies`, `DeliveryExamples`, `UsageReports`,
  `OfflineVerifier`): a deny list that follows the server's revocations over lossy, overlapping polls, from the request
  that revokes to the token that is refused, and counters that are swapped out, sent and put back.
- **The rate limiter** (`SlidingWindow`, `RequestLimits`, `RateLimiter`): pruned lists against full histories, and how
  much the rules let through and hold.
- **The Docker argv policy** (`Regex`, `ArgvPolicy`, `DockerFlags`, `ImageRefs`, `Text`, `LaunchedArguments`,
  `PolicyMeaning`, `DockerMeaning`): a validator and a separate interpreter that must read the same settings, across a
  round trip through the database and up to the launch.
- **The orchestrator** (`PortAllocator`, `Launch`, `Orchestration`, `OrchestrationAnswers`, `OrchestrationExamples`,
  `Orchestrator`): start, stop and reconcile over rows, a set in memory and a runtime that can fail at each stage.

`dafny verify dfyconfig.toml` checks everything.

## Where the code falls short of its description

Each with its exact condition and a concrete input.

- An assertion may be accepted twice: the signature check allows ten seconds after `exp`, the replay cache forgets at
  `exp` (`ClientAssertions.ReplayAcceptedIff`, `ClientAssertions.LeewayAdmitsReplay`).
- A replayed code revokes its family only while its row is kept, for an hour after its expiry; refresh tokens live for
  days (`FamilySafety.CodeReplayKills`, `FamilySafety.ReplayAfterCleanupRevokesNothing`,
  `GrantExamples.CleanedUpCodeReplayRevokesNothing`).
- A refresh replay that names another resource, or comes from another client, is refused without revoking the family
  (`FamilySafety.RefreshReplayKills`, `GrantExamples.ReplayForAnotherServerRevokesNothing`).
- Revoking a client revokes its tokens and not its codes: approved again in time, it may redeem them
  (`GrantFlows.ReapprovalRevivesCodes`, `GrantExamples.ReapprovedClientRedeems`).
- A scope name may hold white space other than a blank. Granted by default, it is stored as text and read back as
  several scopes, which need not exist and may be outside the server's allow-list (`ScopeTexts.GrantsReadBackIff`,
  `ScopeTexts.ConsoleReadsBackIff`, `ScopeTexts.TabIsTwoScopes`, `GrantExamples.TabGetsPastTheAllowList`).
- A verifier forgets a revocation when the token expires, but a probe copy of the token may live two minutes longer and
  then passes (`ProbeCopies.LateCopyPassesIff`, `DeliveryExamples.CopyOfRevokedPasses`).
- A verifier that saw more than a thousand distinct tokens between two flushes never reports them again
  (`UsageReports.OversizedBatchIsStuck`, `UsageReports.ThousandAndOneAreStuck`).
- The allocator keeps a process on its own port even if another row holds it too (`PortAllocator.SharedExactlyWhen`,
  `PortAllocator.OwnPortCanBeShared`).
- The clean-up after a port timeout attempts the removal only if the stop did not raise: one handler covers both
  (`Orchestration.StartOutcomes`, `OrchestrationExamples.FailedStopSkipsRemoval`).
- A probe that raises ends reconcile before the remaining rows (`Orchestration.ReconcileSettles`,
  `OrchestrationExamples.RaisingProbeSkipsTheRest`).
- The catalog schema offers the stdio transport, bridged like a user's own command; the policy refuses every such entry,
  because a catalog entry brings no command (`OrchestrationAnswers.CatalogStdioNeverStarts`,
  `OrchestrationExamples.StdioEntryIsRefused`).
- The advised wait can be negative, when the second reading of the clock is a second or more past the block
  (`RequestLimits.RetryAfterIsAdvice`, `RequestLimits.AdviceCanBeNegative`).

## Model

| member | source | states |
|---|---|---|
| `Text.SplitJoin` | src/marketplace/argv_policy.py:124-126 | Splitting a joined list of words gives the list back; white space inside a token is what would break it. |
| `Text.SplitJoinIff` | src/marketplace/argv_policy.py:124-126 | It comes back exactly when its elements are words. |
| `Text.SplitOfJoin` | src/oauth/service.py:447-452 | Whatever is joined, splitting it gives the words of each element, in order. |
| `ScopeRegistry.RequestGrantedIff` | src/oauth/service.py:304-336 | A non-blank request is granted, unchanged, exactly when every scope exists, the client may ask for it and the server admits it or declares it. |
| `ScopeRegistry.DefaultsGranted` | src/oauth/service.py:332-336 | A missing or blank request never fails and gets exactly the default scopes that obey the same bound. |
| `ScopeRegistry.EffectiveIsGrantable` | src/oauth/service.py:294-301 | What the console lists for a server is what a token for it may carry when no client limits the request. |
| `ScopeRegistry.GrantedWithinCeiling` | src/oauth/service.py:304-336 | Whatever is granted lies within registry, client limit and server limit. |
| `ScopeRegistry.NamesStayDisjoint` | src/api/oauth_admin_routes.py:163-239 | Over every run of console operations no server declares a global name, so merging the registries overwrites nothing. |
| `ScopeRegistry.ScopeConsole.UpsertScope` | src/api/oauth_admin_routes.py:170-183 | A global upsert is refused for a bad name or one a server owns, else saved; disjointness is kept. |
| `ScopeRegistry.ScopeConsole.UpsertServiceScope` | src/api/oauth_admin_routes.py:208-224 | A server upsert is refused for an unknown server, a bad name or a global one, else saved; disjointness is kept. |
| `ScopeRegistry.ScopeConsole.DeleteScope` | src/api/oauth_admin_routes.py:185-193 | Deleting removes the one global scope, or reports it missing and changes nothing. |
| `ScopeRegistry.ScopeConsole.DeleteServiceScope` | src/api/oauth_admin_routes.py:227-239 | Deleting removes the one server scope, or reports it missing and changes nothing. |
| `ScopeRegistry.ConsoleAnswers` | src/api/oauth_admin_routes.py:163-239 | Every console operation, lookup by lookup: when it is refused and why, and otherwise the one entry that changes - no other scope, server or allow-list does. |
| `ScopeTexts.JoinedIsCarried` | src/oauth/service.py:336 | In whatever order granted names are joined, splitting the string gives the words they carry. |
| `ScopeTexts.CarriedIsItselfIff` | src/oauth/service.py:447-448 | Names read back as themselves exactly when each is a word. |
| `ScopeTexts.GrantReadsBackIff` | src/oauth/service.py:322-336 | What is read from a granted string is what was granted exactly if the request named its scopes or every default it may be granted is a word; then it is within the bound. Otherwise it is within what the bound carries. |
| `ScopeTexts.GrantsReadBackIff` | src/oauth/service.py:304-336 | For every client, server and request what is granted reads back as granted, exactly when all default scopes of the registry are words. |
| `ScopeTexts.ConsoleReadsBackIff` | src/api/oauth_admin_routes.py:163-239 | Over any run of console operations that holds all along exactly if every default scope it saves is a word, which the name check does not ask for. |
| `ScopeTexts.SeededIsWords` | db/seed.py:15-21 | The seeded scopes are words. |
| `ScopeTexts.ScannerAsksForWords` | src/oauth/service.py:46 | The scanner's scope text has exactly its four words, all of them seeded. |
| `ScopeTexts.TabIsTwoScopes` | src/api/oauth_admin_routes.py:163-167 | The console accepts a default scope with a tab in its name; a request without a scope is granted it, and it reads back as two scopes that do not exist. |
| `GrantExamples.TabGetsPastTheAllowList` | src/oauth/service.py:332-336 | A run in which a token for a server carries a global scope outside its allow-list, by way of the server's own default scope with a tab in it. |
| `TokenFamilies.PutTokenKeepsLive` | src/oauth/service.py:619-631 | Issuing a token leaves at most one unrevoked refresh token in each family. |
| `TokenFamilies.PutTokenKeepsChain` | src/oauth/service.py:655-673 | Issuing a token keeps the scopes along a family non-increasing. |
| `TokenFamilies.RevokeFamilyRetires` | db/crud.py:779-792 | Revoking a family only stamps rows that were not stamped: time and reason are write-once, no row is lost. |
| `TokenFamilies.RevokeByClientRetires` | db/crud.py:794-806 | The same of revoking by client. |
| `TokenFamilies.DropTokensRetires` | db/crud.py:814-820 | Deleting expired rows changes no surviving row. |
| `TokenFamilies.CommitKeepsInv` | db/crud.py:709-820 | Every single commit that its request is entitled to make keeps the whole invariant. |
| `GrantRuns.RedeemGuarded` | src/oauth/service.py:592-635 | Redeeming marks the code used first and issues into an empty family, so each of its commits is safe on its own. |
| `GrantRuns.RefreshGuarded` | src/oauth/service.py:638-677 | Refreshing revokes first, so its successor is the only live refresh token at every commit. |
| `GrantRuns.PlanIsGuarded` | src/oauth/service.py:363-892 | Every endpoint, in any state that keeps the invariant, makes only safe commits. |
| `GrantRuns.RunKeepsInv` | src/oauth/service.py:363-892 | The invariant holds after every run of requests, each cut off after any of its commits. |
| `FamilySafety.OneLiveRefreshToken` | src/oauth/service.py:592-677 | In every reachable state, also between the commits of one grant, a code-born family has at most one unrevoked refresh token. |
| `FamilySafety.CodeRedeemedOnce` | src/oauth/service.py:599-602 | In the commits of any run each code is marked used at most once, and a spent one never again. |
| `FamilySafety.FamilyFixesTokens` | src/oauth/service.py:443-467 | Every token of a family carries its client, subject and audience; its scope lies within the code's, the request's and the bound recorded for the family. |
| `Provenance.OnlyAuthorizePutsRequests` | src/oauth/service.py:363-406 | No endpoint but /authorize stores a request, and what it stores names the client that asked, the audience it asked for and the bound of that moment. |
| `Provenance.FamilyComesFromAuthorize` | src/oauth/service.py:363-472 | Over any run: behind every family lies an earlier /authorize that stored its request, and a later approval, or the skipped consent of that same call, that fixed its user and scope. |
| `Provenance.TokenComesFromAuthorize` | src/oauth/service.py:304-336 | Whatever a code-born token carries goes back to that call: its client, the audience asked for, the user who decided, and words within the ticked ones, the requested ones and what that client's bound carried then; within the bound itself if the grant reads back. |
| `FamilySafety.ScopesOnlyShrink` | src/oauth/service.py:655-673 | Whatever a family issues after a refresh token carries no more scope than it. |
| `FamilySafety.RevocationIsFinal` | db/crud.py:771-792 | No later run changes the time or reason of a revocation, and a deleted row never comes back. |
| `FamilySafety.CodeReplayKills` | src/oauth/service.py:596-602 | A redemption revokes a family exactly when the client may use the grant and the code's row is on record and used; the family is dead afterwards, before the error is returned. |
| `FamilySafety.ReplayAfterCleanupRevokesNothing` | db/crud.py:623-629 | A clean-up keeps a code's row exactly for an hour after its expiry; once it is gone, its replay changes nothing in any later run, and the family's live refresh token lives on. |
| `FamilySafety.ForgottenCodeRevokesNothing` | src/oauth/service.py:596-598 | A code once issued whose row is gone never comes back, and presenting it changes nothing. |
| `GrantExamples.CleanedUpCodeReplayRevokesNothing` | src/scheduler/cleanup_scheduler.py:89-95 | A run from the start in which a used code is cleaned up and replayed, and its refresh token stays live; before the clean-up the same replay kills it. |
| `FamilySafety.RefreshReplayKills` | src/oauth/service.py:638-653 | A refresh request revokes a family exactly when it is a replay that passes the checks before it; the family is dead afterwards. |
| `GrantExamples.ReplayForAnotherServerRevokesNothing` | src/oauth/service.py:645-653 | A run in which a rotated token is presented for another server: refused, with the live successor left unrevoked. |
| `FamilySafety.RevokingRefreshKills` | src/oauth/service.py:708-710 | The commits that revoke a row and, for a refresh token, its chain kill the family; cut off after the first the family is already barren if the token was live. That both revocation endpoints make these commits is in `RevocationAnswers`. |
| `FamilySafety.RevokingClientKills` | src/api/oauth_admin_routes.py:115-130 | Revoking a client deactivates it and leaves no live token of it: every family it redeemed is dead. |
| `GrantFlows.UnusedCodesKeepTheirWorth` | src/oauth/service.py:592-635 | At any point of any run that has not redeemed a code and kept its row, the code yields tokens exactly if its client may use the grant then and presents it in time with its redirect URI, verifier and audience. |
| `GrantFlows.ReapprovalRevivesCodes` | src/api/oauth_admin_routes.py:100-130 | So a code is refused while its client is revoked, and worth what it was once the client is approved again, whatever requests come between. |
| `GrantExamples.ReapprovedClientRedeems` | src/api/oauth_admin_routes.py:100-130 | A run in which a client is revoked before it redeems its code, approved again, and gets access and refresh token. |
| `FamilySafety.DeletingSparesTokens` | src/api/oauth_admin_routes.py:133-146 | A deleted client's token is reported active to other resource servers as before, until its own revocation or expiry, and no revocation by client finds it; a revoked client's token is not. |
| `FamilySafety.BarrenForever` | src/oauth/service.py:592-677 | No later run issues a token into a family whose code is spent and which has no live refresh token. |
| `FamilySafety.DeadForever` | db/crud.py:779-792 | Once every token of a family is revoked, no later run of any length has an unrevoked one in it. |
| `FamilySafety.DeletedNeverVerifies` | db/crud.py:814-820 | After cleanup deleted a row, nothing signed under its jti verifies any more, neither the token nor a probe copy. |
| `FamilySafety.RevokedNeverActive` | src/oauth/service.py:715-735 | A revoked recorded token is never reported active again: no caller, no later time, no probe copy, not even after its row is deleted. |
| `FamilySafety.LiveIsActive` | src/oauth/service.py:715-754 | A recorded token is reported active to a resource server exactly while its row is unrevoked and unexpired, its client deleted or not. |
| `GrantFlows.AuthorizeStoresBoundedRequest` | src/oauth/service.py:363-406 | An accepted authorization request is stored with the audience asked for and with words that the limits of that moment carry; within these limits if the grant reads back. |
| `GrantFlows.ApprovalFixesFamily` | src/oauth/service.py:443-472 | Approval creates one unused code whose family is fixed by request, user and ticked scopes; the request is decided. The code's own columns are in `GrantAnswers.ApprovalAnswers`. |
| `GrantFlows.OthersDoNotRedeem` | src/oauth/service.py:603-618 | No request but the client's own, with its credentials, redirect URI and PKCE verifier, marks an unused code as used; any other redemption fails and changes nothing. |
| `GrantFlows.OnlyItsClientRedeems` | src/oauth/service.py:592-635 | So over any run without such a request the code is never redeemed and its row stays as issued. |
| `GrantFlows.CodeIsHonoured` | src/oauth/service.py:592-635 | A code redeemed in time by its client, with PKCE or as a confidential client without it, yields a live access token for exactly what was approved, and a live refresh token exactly when the client has that grant. |
| `GrantFlows.ClientTokensAreBounded` | src/oauth/service.py:680-693 | A client-credentials token speaks for the client itself and carries no more than the server admits and the client may ask for, if the grant reads back. |
| `GrantFlows.PersonalTokensAreBounded` | src/oauth/service.py:821-836 | A personal token speaks for its user, for the configured number of days at most, and carries no more than the server admits, if the grant reads back. |
| `GrantFlows.ScannerIsBounded` | src/oauth/service.py:863-892 | The scanner's token speaks for the scanner for two minutes, within what the server admits - always if the server has no allow-list, else if the grant reads back. |
| `GrantFlows.RefreshRotates` | src/oauth/service.py:638-677 | A live refresh token is replaced by one live successor, narrowed to the scope asked for, and becomes the replay trap. |
| `GrantAnswers.UnfitClientsGetNothing` | src/oauth/service.py:231-269 | At the token, revocation and introspection endpoints a client that is unknown, revoked, not approved, not itself or not registered for the grant gets exactly the error that is due and changes nothing, whatever it presents. |
| `GrantAnswers.AuthorizeAnswers` | src/oauth/service.py:363-406 | /authorize is accepted exactly when client, redirect URI, PKCE, target and scope are in order; it stores the request as asked for, and asks the user unless signed in and either trusted client or all remembered: then the code is there at once, with the redirect URI and the challenge of the call. |
| `GrantAnswers.AuthorizeRefuses` | src/oauth/service.py:363-392 | Any other call is refused and changes nothing: an unknown client, one not approved, an unknown target and a scope out of bounds each with its own error. |
| `GrantAnswers.ApprovalAnswers` | src/oauth/service.py:443-472 | An approval leaves one code, for what was asked and ticked, with the redirect URI and the challenge of the request; the request is decided; the consent grows if it should be remembered; nothing else changes. |
| `GrantAnswers.DenialAnswers` | src/oauth/service.py:475-481 | A denial decides the request and does nothing else. |
| `GrantAnswers.DecidedOnce` | src/oauth/service.py:409-416 | A request that was approved or denied is not decided again, after any run in which its id is not given to a new one. |
| `CodeProvenance.CodeIsWorthWhatWasAsked` | src/oauth/service.py:363-472 | Over any run from the start: behind every code lies one /authorize call whose redirect URI and challenge it carries, and one decision of its user. If the call gave a digest, the code is redeemed only with the text it is the digest of, and is redeemed with it; without a challenge, only by a client with a secret that need not use PKCE. |
| `TokenAnswers.RedeemGives` | src/oauth/service.py:592-635 | A code presented in time by its client, with redirect URI, verifier and target: exactly the access row and, if the client may refresh, the refresh row of what was approved, for the configured lifetimes, and the code is used. |
| `TokenAnswers.RedeemRefuses` | src/oauth/service.py:603-618 | Presented otherwise it is refused, for the grant or for the target, and nothing changes. |
| `TokenAnswers.RefreshGives` | src/oauth/service.py:655-677 | A live refresh token becomes rotated, and its two successors carry the scope asked for, or all that was held, in the same family. |
| `TokenAnswers.RefreshRefuses` | src/oauth/service.py:638-660 | A refresh with a foreign, stale, wrong or unrecorded token, for another target, or for more scope is refused with the error that is due, and nothing changes. |
| `TokenAnswers.OwnTokenGives` | src/oauth/service.py:680-693 | A client's own token: exactly one row, for the client as its own subject, the target asked for and the words granted. |
| `TokenAnswers.PersonalTokenGives` | src/oauth/service.py:821-836 | A personal token: exactly one row, for its user and server, for the days asked for, at least one and at most the configured number. |
| `TokenAnswers.ProbeAnswers` | src/oauth/service.py:839-860 | A probe copy is signed exactly for an access token or PAT on record that is unrevoked, unexpired and for that audience; it lives 120 seconds and carries the row's subject and scope. Otherwise refused, and nothing changes. |
| `TokenAnswers.ScannerAnswers` | src/oauth/service.py:863-892 | The scanner asks for its four scopes, or for the defaults where the server has an allow-list; what is granted is signed for 120 seconds, and recorded nowhere. |
| `RevocationAnswers.RevokeTokenAnswers` | src/oauth/service.py:696-712 | RevokeToken as a call: a verified own token on record is stamped, with the reason of the client; for a refresh token exactly the unrevoked rows of its family are, and the family is dead. No other row changes. |
| `RevocationAnswers.ForeignTokensAreIgnored` | src/oauth/service.py:696-707 | A token that does not verify, is another client's or is not on record is answered alike and changes nothing. |
| `RevocationAnswers.AdminRevokeAnswers` | src/api/oauth_admin_routes.py:298-310 | The same for the administrator's call, on any recorded row; an unknown one is reported. |
| `RevocationAnswers.IntrospectAnswers` | src/oauth/service.py:715-754 | Reported active exactly: verified within ten seconds of its expiry, the caller's own or asked by a resource server, and, while its row is kept, unrevoked and unexpired. |
| `RevocationAnswers.RevokeClientAnswers` | src/api/oauth_admin_routes.py:115-130 | The client is inactive and exactly its unrevoked rows are stamped; a built-in or unknown one is refused. |
| `RevocationAnswers.DeleteClientAnswers` | src/api/oauth_admin_routes.py:133-146 | Client, requests, codes and consents go; token rows stay, without a client. |
| `RevocationAnswers.CleanupAnswers` | src/scheduler/cleanup_scheduler.py:89-103 | What is kept: requests not expired, codes for an hour after their expiry, token rows for seven days after theirs. |
| `AuthorizationServer.Server.Serve` | src/api/oauth_routes.py:95-265 | Any request on the tables performs its plan, which keeps the tables reachable and safe at every commit on the way. |
| `AuthorizationServer.Server.PerformedIsServed` | src/api/oauth_routes.py:95-265 | A method that performs its plan, as each of them promises, keeps the invariant and reachability at every prefix of its commits, cut off or not. |
| `AuthorizationServer.Server.TablesAreSafe` | src/oauth/service.py:592-677 | What reachable tables hold: one live refresh token in a family at most, and every token within its family's scope. |
| `AuthorizationServer.StampRows` | db/crud.py:779-806 | The update loop of a bulk revocation: every listed row stamped once, no other row touched, their number returned. |
| `AuthorizationServer.Server.AuthorizationCodeGrant` | src/oauth/service.py:592-635 | The method over the tables performs exactly the commits of the redemption plan, in order, and gives its answer. |
| `AuthorizationServer.Server.RefreshTokenGrant` | src/oauth/service.py:638-677 | The same for the refresh grant. |
| `AuthorizationServer.Server.ClientCredentialsGrant` | src/oauth/service.py:680-693 | The same for the client-credentials grant. |
| `AuthorizationServer.Server.Authorize` | src/oauth/service.py:363-406 | The same for /authorize, including consent that is skipped. |
| `AuthorizationServer.Server.ApproveRequest` | src/oauth/service.py:443-472 | Code, remembered consent and decision are committed in this order, as the plan has them; what the rows hold is in `GrantAnswers.ApprovalAnswers`. |
| `AuthorizationServer.Server.DecideAuthorization` | src/api/oauth_routes.py:147-164 | The same for the user's decision. |
| `AuthorizationServer.Server.RevokeToken` | src/oauth/service.py:696-712 | The method performs exactly the commits of the revocation plan; what they come to is in `RevocationAnswers.RevokeTokenAnswers`. |
| `AuthorizationServer.Server.AdminRevokeToken` | src/api/oauth_admin_routes.py:298-310 | The administrator's revocation: the row, and for a refresh token the family. |
| `AuthorizationServer.Server.RevokeClient` | src/api/oauth_admin_routes.py:115-130 | Refused for built-in clients; else the client is deactivated and its tokens revoked. |
| `AuthorizationServer.Server.ApproveClient` | src/api/oauth_admin_routes.py:100-112 | Approval approves and reactivates the client. |
| `AuthorizationServer.Server.DeleteClient` | src/api/oauth_admin_routes.py:133-146 | Refused for built-in clients; else the client goes with its requests, codes and consents, and its tokens stay without a client. |
| `AuthorizationServer.Server.DeleteConsent` | src/api/oauth_admin_routes.py:323-333 | The consent is forgotten, or reported missing. |
| `AuthorizationServer.Server.MintPersonal` | src/oauth/service.py:821-836 | A personal token is recorded for a registered server with a scope bounded by it, for the days asked for, raised to one and cut to the configured maximum. |
| `AuthorizationServer.Server.MintScanner` | src/oauth/service.py:863-892 | A scanner's token is signed for one server, registered or not, with the scope resolved for it, and recorded nowhere. |
| `AuthorizationServer.Server.Introspect` | src/oauth/service.py:715-754 | Introspection writes nothing in this model and answers as its plan says. |
| `AuthorizationServer.Server.MintProbe` | src/oauth/service.py:839-860 | A probe copy is signed only for an unrevoked, unexpired, non-refresh row of that audience. |
| `AuthorizationServer.Server.RevokeRow` | db/crud.py:771-777 | A row is stamped, and committed, only the first time. |
| `AuthorizationServer.Server.RevokeChain` | db/crud.py:779-792 | Every unrevoked row of the chain is stamped in one commit. |
| `AuthorizationServer.Server.UpsertConsent` | db/crud.py:840-851 | The remembered scopes become the union of the stored and the new ones. |
| `AuthorizationServer.Server.Cleanup` | src/scheduler/cleanup_scheduler.py:89-103 | Three bulk deletes in three commits; the returned number is how many rows went. |
| `ConsentPolicy.ConsentsAreTheUnion` | db/crud.py:840-874 | Over any run the table holds for every (user, client, audience) the union of the scopes remembered since it was last forgotten. |
| `ConsentPolicy.SkippedExactlyWhenRemembered` | src/oauth/consent_policy.py:33-40 | Consent is skipped exactly for console-registered clients, or when something stands remembered that covers every requested scope. |
| `SigningKeys.UsedKeysStayPublished` | src/oauth/signing_keys.py:55-89 | Over any run of signing and rotating at most one key is active and every kid that ever signed is still published. |
| `SigningKeys.RotationTakesEffect` | src/oauth/signing_keys.py:71-73 | After a rotation the next token is signed with the new key. |
| `SigningKeys.CreatedKeepsKeys` | db/crud.py:503-515 | A new key leaves every other one published and inactive, with the time it was first retired; it is the one active key. |
| `SigningKeys.KeyStore.Create` | db/crud.py:503-515 | The loop retires every active key, keeps earlier rotation times, and adds the new key: one active key afterwards. |
| `SigningKeys.KeyStore.EnsureActive` | src/oauth/signing_keys.py:64-68 | An active key is returned, created only when there is none. |
| `ClientAssertions.ReplayCache.RememberJti` | src/oauth/client_assertion.py:129-139 | The purge drops exactly the entries that are over; the pair is accepted exactly when it is not held. |
| `ClientAssertions.EntrySurvives` | src/oauth/client_assertion.py:129-139 | No purge in any run drops an entry before its expiry. |
| `ClientAssertions.ReplayRefused` | src/oauth/client_assertion.py:199-206 | A (client, jti) accepted once is refused at every later time up to the assertion's expiry. |
| `ClientAssertions.ReplayAcceptedIff` | src/oauth/client_assertion.py:174-206 | Exactly when a second presentation is accepted: it still passes the checks and the cache is read after the expiry. |
| `ClientAssertions.LeewayAdmitsReplay` | src/oauth/client_assertion.py:129-139 | Such a second acceptance exists, within the leeway after the expiry. |
| `ClientAssertions.EntriesAreShortLived` | src/oauth/client_assertion.py:199-200 | Every stored expiry is that of an accepted assertion, the client's own, within 310 s of the clock read when it was accepted. |
| `ClientAssertions.VerifyAnswers` | src/oauth/client_assertion.py:174-206 | An assertion is accepted exactly if it is the client's own, genuine, within ten seconds of its expiry, good for at most 310 s, has an id, and that id is not remembered; then it is remembered, and otherwise the cache is as before, less what is over. |
| `ClientAssertions.ForeignIsRefused` | src/oauth/client_assertion.py:197-198 | An assertion whose issuer or subject is another's is refused and leaves no trace. |
| `RevocationFeed.RunKeepsInv` | examples/mcp_center_hooks.py:139-149 | Over every interleaving of issuing, delayed commits and overlapping or lost polls, what a cursor skips is covered already. |
| `RevocationFeed.AnswerMeans` | db/crud.py:749-759 | The feed carries exactly the access tokens and PATs revoked at or after the cursor and not over at the query, under their expiry. |
| `RevocationFeed.PollCatchesUp` | src/oauth/service.py:757-774 | After an applied poll the verifier holds every access token and PAT whose revocation was visible before the query and which no applied poll found expired. |
| `RevocationFeed.RevocationTakesEffect` | db/crud.py:749-759 | A token revoked more than 5 s before the query, and not expired then, is on the deny list after the poll. |
| `RevocationFeed.DenialsAreJust` | examples/mcp_center_hooks.py:143-149 | The deny list holds revoked tokens only, under their real expiry, and forgets only expired ones. |
| `RevocationDelivery.PlanStampsNow` | db/crud.py:771-806 | Every revocation of every endpoint is stamped with the clock of its request. |
| `RevocationDelivery.QueriedIsAnswered` | db/crud.py:749-759 | The query over the token table, with rows cleaned up or not, is that of the feed protocol. |
| `RevocationDelivery.EventsKeepInv` | src/oauth/service.py:757-774 | Over every interleaving of requests of all kinds with polls the invariants of the tables and of the feed hold, and the feed follows the tables. |
| `RevocationDelivery.RevocationReachesVerifier` | examples/mcp_center_hooks.py:139-149 | Whatever request revoked an access token or PAT, after the next applied poll whose query ran later the verifier denies it for as long as it has not expired, whatever happens. |
| `RevocationDelivery.DeniedWasRevoked` | examples/mcp_center_hooks.py:143-149 | And it denies only what was issued and revoked, under the expiry it was issued with. |
| `ProbeCopies.OnlyLateCopiesPass` | examples/mcp_center_hooks.py:87-101 | After that poll nothing signed under the jti passes the verifier but a probe copy, once the token itself has expired and for two minutes at most. |
| `ProbeCopies.LateCopyPassesIff` | src/oauth/service.py:839-860 | Some continuation lets a copy pass exactly if the copy expires later than its token. |
| `DeliveryExamples.CopyOfRevokedPasses` | src/oauth/service.py:849-855 | A run in which the copy of a revoked token passes a verifier that has just polled. |
| `UsageReports.UsageIsConserved` | examples/mcp_center_hooks.py:151-165 | Per jti: verified plus counted twice equals pending, in flight, reported and unknown, over every interleaving; the row's counter is the reported sum and the server's max(1, count) changes nothing. |
| `UsageReports.CleanFailuresCountExactly` | examples/mcp_center_hooks.py:158-165 | The count is never too low, and exact when failed posts left the server untouched. |
| `UsageReports.OversizedBatchIsStuck` | src/oauth/service.py:788-789 | More than a thousand jtis between two flushes are never reported by any later run: they stay together, their held counts never fall, and what is reported falls short by them. |
| `UsageReports.ThousandAndOneAreStuck` | examples/mcp_center_hooks.py:96-100 | A run from the start in which 1001 tokens are seen once each: no run after it reports that sight. |
| `UsageReports.DeliveredIsReported` | examples/mcp_center_hooks.py:151-165 | Over any run in which a post succeeds, every count it carries is taken by the server, into the row if the row is there all along. |
| `UsageReports.DeliverableIff` | src/oauth/service.py:788-789 | A post under way can still succeed exactly if it carries a thousand jtis at most. |
| `UsageReports.FailConserves` | examples/mcp_center_hooks.py:160-164 | Putting a batch back loses no count, whatever was verified meanwhile. |
| `UsageReports.PutBackMeans` | examples/mcp_center_hooks.py:160-164 | A batch that comes back is added to what was counted meanwhile, and the later sighting is kept. |
| `OfflineVerifier.UsageServer.ReportUsage` | src/oauth/service.py:780-814 | Callers that are no resource server and oversized or malformed lists are refused; else every event before the first malformed one is folded and unknown jtis are returned. |
| `OfflineVerifier.ListingTotals` | examples/mcp_center_hooks.py:156-157 | The events sent for a batch report each counter once. |
| `OfflineVerifier.ListingLatest` | examples/mcp_center_hooks.py:156-157 | They carry each jti's last sighting, which a row takes over if it is later than its own. |
| `OfflineVerifier.ItemsMakeTheStep` | examples/mcp_center_hooks.py:143-149 | Applying a reply item by item, then purging, is the step of the feed protocol. |
| `OfflineVerifier.ExtendedMeans` | examples/mcp_center_hooks.py:143-147 | The last item for a jti tells how long it is denied, without an expiry for an hour; all others keep theirs. |
| `OfflineVerifier.MCPCenterVerifier.VerifyToken` | examples/mcp_center_hooks.py:87-101 | A genuine token is accepted exactly when its jti is not on the deny list, and only then counted. |
| `OfflineVerifier.MCPCenterVerifier.PollRevoked` | examples/mcp_center_hooks.py:139-149 | The two loops update the deny list to the extended and purged one and move the cursor back by the overlap. |
| `OfflineVerifier.MCPCenterVerifier.Restore` | examples/mcp_center_hooks.py:160-164 | The put-back loop adds counts and keeps the later sighting. |
| `OfflineVerifier.MCPCenterVerifier.FlushUsage` | examples/mcp_center_hooks.py:151-165 | A whole flush: the counters move to the server, and each row's last use up to the sighting reported, exactly when it accepts; otherwise the counters are as before, or folded and put back when only the reply was lost. |
| `SlidingWindow.AfterAfter` | src/middleware/rate_limiter.py:83-84 | Pruning early never matters for a later window. |
| `SlidingWindow.AfterMembers` | src/middleware/rate_limiter.py:83-84 | A window holds exactly the recorded stamps later than its start. |
| `SlidingWindow.SlidingWindowCounter.AddRequest` | src/middleware/rate_limiter.py:78-89 | The returned count is that of the full history in the window that ends now. |
| `SlidingWindow.SlidingWindowCounter.GetCount` | src/middleware/rate_limiter.py:91-96 | The same for reading, which records nothing. |
| `SlidingWindow.SlidingWindowCounter.Cleanup` | src/middleware/rate_limiter.py:98-105 | Afterwards only live stamps are held and no empty list, and every list still stands for its history. |
| `RequestLimits.StepKeepsInv` | src/middleware/rate_limiter.py:146-177 | Every decision keeps the bounds on both histories, whatever limit the request's path has. |
| `RequestLimits.AllowedWithinLimits` | src/middleware/rate_limiter.py:146-177 | After any run an allowed request is one of at most its path's limit allowed in the last minute, and of the hour limit in the last hour. |
| `RequestLimits.TwelveOversAnHour` | src/middleware/rate_limiter.py:171-175 | Over-limit requests are a block apart, so at most twelve fit in an hour. |
| `RequestLimits.ListsAreBounded` | src/middleware/rate_limiter.py:78-89 | After any run the minute list holds at most the largest limit plus one, the hour list at most the hour limit plus twelve. |
| `RequestLimits.MinuteBlockEndsClean` | src/middleware/rate_limiter.py:164-168 | The first request after a minute block passes the minute check on any path with a positive limit. |
| `RequestLimits.QuietHourIsForgiven` | src/middleware/rate_limiter.py:146-177 | A client not blocked and quiet for an hour is let through exactly by positive limits. |
| `RequestLimits.RetryAfterIsAdvice` | src/middleware/rate_limiter.py:148-150 | The advised wait is not negative exactly when the second clock reading is less than a second late, and falls short of the block by less than a second. |
| `RequestLimits.AdviceCanBeNegative` | src/middleware/rate_limiter.py:148-150 | Two requests from an unseen client, the second advised to wait for minus one second. |
| `RequestLimits.JudgedByRules` | src/middleware/rate_limiter.py:129-177 | After any history: let through exactly if not blocked, below the minute limit in the last sixty seconds and below the hour limit in the last 3600; else told to wait for the block, or blocked for 60 or 300 seconds. |
| `RateLimiter.JudgedByConfig` | src/middleware/rate_limiter.py:157-177 | The same of the configuration: the minute limit is the path's own where it names one, `requestsPerMinute` on every other path; the hour limit is `requestsPerHour`. |
| `RateLimiter.RateLimiter.IsAllowed` | src/middleware/rate_limiter.py:129-177 | Exempt requests change nothing; any other is judged by the configured limits of its path on the client's full history - let through exactly below them, and then one of at most so many - and leaves all other clients alone. |
| `RateLimiter.RateLimiter.GetStats` | src/middleware/rate_limiter.py:179-187 | The statistics are the counts of the full histories; asking changes no client. |
| `RateLimiter.RateLimiter.HeldListsAreBounded` | src/middleware/rate_limiter.py:70-89 | The bounds hold for the lists the counters actually hold, for every client at all times. |
| `Regex.MatchMentions` | src/marketplace/argv_policy.py:42-62 | A match of a pattern holds only characters the pattern mentions. |
| `Regex.AnyOfMatch` | src/marketplace/argv_policy.py:42-49 | A choice of words matches exactly those words. |
| `ArgvPolicy.ValidateDockerArgs` | src/marketplace/argv_policy.py:76-120 | The walk accepts exactly the lists that parse into allowed settings, returns them unchanged, and otherwise reports the first objection. |
| `ArgvPolicy.AcceptedExactlyWhenSpelt` | src/marketplace/argv_policy.py:76-120 | A list is accepted exactly when it spells a list of allowed settings, and no other settings spell it. |
| `ArgvPolicy.RefusedForFirstObjection` | src/marketplace/argv_policy.py:88-118 | A refused list spells allowed settings up to the first thing that is wrong, and that is reported: a token that spells no flag of the policy, a flag at the end without its value, or a value that does not match. |
| `ArgvPolicy.ParseSound` | src/marketplace/argv_policy.py:76-120 | What was read from an accepted list is allowed and spells the list. |
| `ArgvPolicy.ParseComplete` | src/marketplace/argv_policy.py:76-120 | Every spelling of allowed settings is accepted and read back as them. |
| `ArgvPolicy.DockerIsStorable` | src/marketplace/argv_policy.py:34-49 | The allowed flags hold no = and no white space, take a value or not, and no allowed value holds white space. |
| `ArgvPolicy.ReadBackIsSplit` | src/orchestrator/launch_spec.py:90-109 | Whatever string is stored, the two round trips add nothing but the default flag and are idempotent. |
| `ArgvPolicy.AcceptedSurvivesStorage` | src/api/managed_routes.py:668-678 | An accepted list comes back from the database as it was, the empty one as --rm, and is accepted again with the same reading. |
| `ArgvPolicy.ValidateCommandTokens` | src/marketplace/argv_policy.py:123-134 | Accepted exactly when every element is a string of safe characters. |
| `ArgvPolicy.ValidateByoLaunch` | src/marketplace/argv_policy.py:137-160 | Accepted exactly when the command is on the list and every argument is safe; the result is command and arguments. |
| `ArgvPolicy.BridgeKeepsCommand` | src/orchestrator/runtime.py:41-52 | A validated command is one argument of the bridge, which splits back into it. |
| `ArgvPolicy.ByoCommandsAreWords` | src/marketplace/argv_policy.py:40-62 | The listed commands and every safe argument are words: not empty, no white space. |
| `DockerFlags.FlagsToKwargs` | src/orchestrator/docker_runtime.py:25-65 | The interpreter's loop, on any list, including the index error of a flag that misses its value; what it comes to on accepted lists, by the names of the arguments, is in `DockerMeaning.FlagsSayLiterally`. |
| `DockerFlags.ReadsWhatWasAccepted` | src/orchestrator/docker_runtime.py:25-65 | The interpreter consumes exactly the tokens of the accepted settings, whatever follows them. |
| `DockerFlags.DockerTablesAgree` | src/orchestrator/docker_runtime.py:37-43 | Policy and interpreter know the same flags without a value, and no flag both takes and lacks one. |
| `DockerFlags.DockerTablesAreSeparate` | src/orchestrator/docker_runtime.py:58-64 | No two flags set the same argument, and none sets what a switch or --pull sets. |
| `DockerFlags.AcceptedIsWalkedToTheEnd` | src/orchestrator/docker_runtime.py:25-65 | On an accepted list the walk never runs off the end and applies the settings the policy read. |
| `DockerFlags.AcceptedMeansItsSettings` | src/orchestrator/docker_runtime.py:25-65 | The same in terms of what is meant: last values, switches, and known arguments only. |
| `DockerFlags.EffectsMean` | src/orchestrator/docker_runtime.py:34-64 | Each argument gets the last value of its flag, each switch is on exactly if a setting turned it on, and the image is pulled exactly if the last --pull says always. |
| `DockerFlags.StoredFlagsMeanTheirSettings` | src/orchestrator/docker_runtime.py:25-65 | From the stored string to the arguments: same settings, known arguments only. |
| `DockerFlags.FormsAreInterchangeable` | src/orchestrator/docker_runtime.py:50-57 | Any two spellings that differ only in --flag=value against --flag value are both accepted and read alike. |
| `LaunchedArguments.ConfigurationFits` | src/marketplace/argv_policy.py:34-62 | The configured policy, the interpreter's tables and the command list fit together. |
| `LaunchedArguments.LaunchedIsUnderstood` | src/orchestrator/manager.py:230-306 | In any run from an empty table, whatever is written past the application, the flags of everything launched are read to the end as the settings that were vetted, and a stdio command survives the bridge. What the settings mean by name is in `DockerMeaning`. |
| `LaunchedArguments.StoredFlagsAreUnderstood` | src/api/managed_routes.py:668-678 | An accepted list is read back as it was stored, the empty one as --rm, and understood as accepted. |
| `DockerMeaning.FlagsSayLiterally` | src/orchestrator/docker_runtime.py:25-65 | On every list the policy accepts: mem_limit is the last --memory, network the last --network, nano_cpus the last --cpus; auto_remove is on exactly with --rm, stdin_open with -i or -it, tty with -t or -it, init with --init; pulled exactly if the last --pull says always; nothing else is passed. |
| `DockerMeaning.StoredFlagsSayLiterally` | src/api/managed_routes.py:668-678 | The same after the round trip through the database, where an empty list becomes removal alone. |
| `DockerMeaning.LaunchedFlagsSayLiterally` | src/orchestrator/manager.py:264-306 | The same of everything any run launches. |
| `PolicyMeaning.AllowedMeans` | src/marketplace/argv_policy.py:34-49 | The allow-list spelt out: five bare flags, and four flags with their values, character by character. |
| `PolicyMeaning.CommandMeans` | src/marketplace/argv_policy.py:39-62 | Five launchers, and arguments of safe characters only. |
| `PolicyMeaning.TagMeans` | src/marketplace/argv_policy.py:57-58 | A tag is at most 128 letters, digits, _, - and ., the first of them neither - nor a point. |
| `PolicyMeaning.NameMeans` | src/marketplace/argv_policy.py:52-55 | A part of an image name is lower-case letters and digits with single separators between them. |
| `ImageRefs.ColonThenSlash` | src/marketplace/argv_policy.py:52-55 | In a valid image name every : has a / after it. |
| `ImageRefs.DockerImagesAreUnambiguous` | src/marketplace/argv_policy.py:52-58 | Tags hold neither : nor /, so the last : decides. |
| `ImageRefs.TaggedImageIsAccepted` | src/marketplace/argv_policy.py:177-189 | A valid image with a valid tag is accepted and split into exactly the two. |
| `ImageRefs.BareImageIsAccepted` | src/marketplace/argv_policy.py:177-189 | A valid image alone, registry port or not, is accepted and never split. |
| `ImageRefs.AcceptedReferences` | src/marketplace/argv_policy.py:177-189 | Accepted is a valid image, or an image and a tag: never both, and in one way only. |
| `ImageRefs.PortedImageIsValid` | src/marketplace/argv_policy.py:52-55 | Images behind a registry with a port are among the valid ones. |
| `PortAllocator.Allocate` | src/orchestrator/port_allocator.py:69-99 | For any range: the least port that is not skipped and not listening; fails exactly when there is none. |
| `PortAllocator.SharedExactlyWhen` | src/orchestrator/port_allocator.py:79-97 | The port given is another row's exactly when the process's own port is set, in range, not listening and held by another row, and every port before it is listening or held. |
| `PortAllocator.OwnPortCanBeShared` | src/orchestrator/port_allocator.py:79-90 | That case exists: a manual row with the port of an automatic one. |
| `Launch.CheckArgv` | src/orchestrator/manager.py:262-283 | The policy at the execution boundary: the request to hand over, or the first objection. |
| `Launch.VetMeansVetted` | src/orchestrator/manager.py:262-299 | A request that passed satisfies the policy as it stands, by its own fields. |
| `Orchestration.NothingUnvettedIsLaunched` | src/orchestrator/manager.py:230-306 | In no run, whatever is written to the table past the application, is anything launched but requests that satisfy the policy. |
| `Orchestration.StartOutcomes` | src/orchestrator/manager.py:194-371 | A start that succeeds is active and recorded on the port it was launched on; one that fails never changes the port; a refused one reaches the runtime at most to stop what it was going to replace; after a port timeout the process is inactive and the stop was the last thing attempted, the removal exactly when it did not raise. No start touches another process. |
| `OrchestrationExamples.FailedStopSkipsRemoval` | src/orchestrator/manager.py:435-439 | A port timeout whose stop raises: no removal is attempted and the row says stopped. |
| `Orchestration.AutomaticPortsAreDistinct` | src/orchestrator/manager.py:213-220 | Over all runs no two automatic rows hold the same port, whatever ports are set by hand. |
| `Orchestration.ReconcileSettles` | src/orchestrator/manager.py:153-190 | Reconcile ends early exactly when a probe raises; other rows are untouched in any case. |
| `OrchestrationExamples.RaisingProbeSkipsTheRest` | src/orchestrator/manager.py:163-190 | Two wanted rows and a first probe that raises: both stay unsettled. |
| `Orchestration.WantedIsSettled` | src/orchestrator/manager.py:153-190 | After a reconcile that ran to the end every row that wants to run is active or marked failed, and no other row changed. |
| `OrchestrationAnswers.StopAnswers` | src/orchestrator/manager.py:424-448 | A stop of a known process succeeds: not active, the row stopped without container ids, its port, orders and other columns as before; the last calls are stop and removal of its container, or the stop alone exactly if that raised; no other row or process is touched. An unknown id is reported and changes nothing. |
| `OrchestrationAnswers.HaltStops` | src/orchestrator/manager.py:142-145 | The same as a step of a run. |
| `OrchestrationAnswers.StoppedUntilStarted` | src/orchestrator/manager.py:424-448 | After a stop the process stays inactive over any run that neither starts nor reconciles it. |
| `OrchestrationAnswers.StartAnswers` | src/orchestrator/manager.py:194-371 | A start, outcome by outcome: refused with nothing done, or with the replaced instance stopped; else exactly one request is launched, on the least port it may take or the one set by hand, saying what the row and its source say, and each later failure leaves exactly what it leaves. |
| `OrchestrationAnswers.StartSucceedsIff` | src/orchestrator/manager.py:194-371 | It succeeds exactly when row, source and port are there, the policy accepts, and launch, port, probe and service do their part. |
| `OrchestrationAnswers.TargetAnswers` | src/orchestrator/manager.py:164-190 | One target of a reconcile: a live instance is adopted and its row left alone, any other is started, and a start that fails is written into the row. |
| `OrchestrationAnswers.CatalogStdioNeverStarts` | src/orchestrator/manager.py:267-277 | A catalog entry whose transport is not http is never launched: the policy is asked about an empty command. |
| `OrchestrationExamples.StdioEntryIsRefused` | src/marketplace/schema.py:62-65 | Such an entry, on a host where everything would work: refused, with nothing done. |
| `Orchestrator.Orchestrator.UpdateState` | db/crud.py:941-966 | A column left out stays, an empty string clears it, each on its own; other rows stay. |
| `Orchestrator.Orchestrator.StopLocked` | src/orchestrator/manager.py:424-448 | The stop over the table, the set and the runtime leaves what `StopAnswers` says, and keeps that only vetted requests were launched and that automatic ports are distinct. |
| `Orchestrator.Orchestrator.StartLocked` | src/orchestrator/manager.py:194-371 | The start, stage by stage, leaves what `StartAnswers` says and keeps the same two. |
| `Orchestrator.Orchestrator.Reconcile` | src/orchestrator/manager.py:153-190 | The loop over the targets is the machine's reconcile and keeps the same two. |

## Left out

- Requests interleaving inside one grant: the program takes no row lock; requests run one at a time, each possibly cut off after any commit.
- The clock inside one request: a request of the grant machine reads it once; the assertion cache and the rate limiter are modelled with every reading.
- Cryptography: a JWT is the record of its claims, hashes and thumbprints are injective, codes, jtis and kids are fresh. A JWT is handed out only when its row was committed.
- URLs: redirect URIs are opaque strings; audiences come normalised, and servers are identified by their audience.
- Users and services that are deleted while grants refer to them; client self-registration and its validation.
- Re-running the seeding while the console is used: it does not consult the servers' own scopes. Runs start from a seeded registry.
- The usage columns `last_used_at` and `use_count` during grants and introspection; they are modelled in the usage reports only.
- RevocationDelivery.RevocationReachesVerifier: a request's commits are visible when it ends; commits delayed by up to five seconds are in `RevocationFeed`.
- Fetching a client's JWKS and picking its key.
- Whitelist entries that are networks: whether an address is inside one is a parameter of `IsAllowed`.
- Proxies and headers that decide a client's address; excluded paths.
- DockerFlags.FlagsToKwargs: `nano_cpus` keeps the text of `--cpus`; the float arithmetic on it, which overflows on a value of several hundred digits that the policy accepts, is not modelled.
- Manual ports: taken as given, they may collide with each other and with automatic ones.
- Container names: built from the first eight characters of the id, not shown distinct.
- Sockets, warm-up requests, log lines, progress and audit records, encrypted environment variables, and the service row a start creates, of which only the id or the failure is kept.
- Database failures in the orchestrator's own updates.
- OrchestrationAnswers.StartAnswers: does not say which of its objections the policy raises; their order is in `Launch.CheckArgv`.
- The process runtime's pid files and the real Docker calls: the runtime's answers are parameters of each step.
- AuthorizationServer.Server.Introspect: does not write the usage event and the last-used time of the token, which no property here depends on.
- OfflineVerifier.MCPCenterVerifier.FlushUsage: one flush from swap to put-back without interleaving; the interleavings are in `UsageReports`.
- RevocationFeed.PollCatchesUp: expiry is judged when the server runs its query, which is at or after the truncated time the reply carries.
