# An authorization server, proved

A Dafny model of an OAuth 2.1 authorization server whose users identify
themselves with pairing codes. Clients register, a person approves a request by
entering a code (or through a browser session), may be asked to enroll
credentials or to pick one value of an allowed set, and the client redeems the
authorization code for an access token and a rotating refresh token. The model
keeps the branches, the error paths and the constants of the source and proves
what holds of single requests, of whole conversations, and of every run.

## How it is built

| file | contents |
|---|---|
| `Wrappers`, `Text`, `Identity` | small result types; trimming, splitting, joining, ordering of strings; bindings and grants |
| `PairingCode` | the printer and the tolerant parser of pairing codes |
| `BindingChoice` | allowed sets and the choices that narrow them |
| `Enrollment`, `EnrollView`, `EnrollSecrets` | descriptors, the form rendered from one and read back, and what never shows |
| `AuthorizeForm` | posted forms, hidden inputs, the request and the decoder of the flow's state |
| `Audience`, `Tokens`, `Discovery` | allowed audiences, tokens over ideal signatures, metadata routes |
| `MapStore`, `MapStoreSchedules`, `MapStoreOverlap` | the stored map as an object, its locked steps under any schedule of threads, and when several stores may share a document |
| `Stores`, `Principals` | clients, codes, refresh tokens, sessions, principals, as objects |
| `Authorize` | what one request does, as functions on the state of the server |
| `Server` | the handlers as methods on the store objects, proved to do exactly that |
| `Promises` | the words in which the results below speak of a request and its grant |
| `Handlers` | what each handler answers and stores, in the words of the request: exact conditions for every outcome |
| `AuthorizeFacts`, `AuthorizeFlow` | what single requests and whole conversations guarantee |
| `Lifecycle`, `ServerSteps` | the world: any interleaving of requests, callbacks, administration and time; handlers are made of its steps |
| `GrantLines`, `Redemptions`, `Provenance` | codes and tokens over every run: single use, who may redeem what, and where each comes from |
| `People`, `CodesInForce`, `Removal`, `SessionHistory` | the other laws of every run: pairing codes, names and bindings, removal, sessions |
| `AfterRemoval`, `LateRenewal`, `LateIssue` | what outlives a removal: the exact conditions, and a run |

`Authorize` computes; what it computes is said a second time, in other words.
`Handlers`, `Redemptions` and `CodesInForce` state each outcome by the fields of the
request and the stores, handing over to each other where handlers do, and the laws of whole runs speak of scopes, audiences
and projected bindings through `Promises`, not through the functions that compute them.

Two granularities are used. `MapStoreSchedules` splits one store call into lock,
load, apply, save and unlock steps of any number of threads and shows the calls
linearizable. `Lifecycle` then takes a store operation as one step, but splits a
token request into taking its grant, minting, and storing the next refresh
token, and an enrollment into the steps before and after its callback. Anything
may happen between those steps.

## Assumptions

- Random tokens and pairing codes that are drawn never repeat an earlier draw;
  a draw may fail instead.
- The secret store keeps each document under a key of its own.
- The clock never goes backwards, and one request reads it once on each side of
  the enrollment callback.
- Signing is ideal: a token verifies exactly under the key that matches its
  signing key. The challenge hash is an arbitrary function.
- The operations of the secret store are atomic and have no effect when they
  report an error.
- Principal names are non-empty, which `AddPrincipal` does not check. Only the
  results that say so need it.
- One configuration holds throughout a run. Every enrollment descriptor has
  passed `Validate`; for those of `EnrollmentForResource` that is the host's
  duty.
- A nil stored binding is the same as an empty one.
- Each purge of `RemovePrincipal` is one atomic step. It runs through a store
  object of its own and so under a mutex of its own; `OverlapLosesUpdate` shows
  what an overlap with a locked writer of the same document can do, and
  `UndisturbedExplained` that nothing is lost without one.
- A server signs its tokens, as every server that New builds does; only the results
  about requests that outlive a removal need it.
- The part of an authorize request before its callback is one step, and so is
  the part after it. What a removal between identifying the person and issuing
  would lead to is in `LateIssue`: the answer is the same (`IdentifiedAnswers`),
  and a session it starts works again once the name is added, exactly until it
  expires (`LateSessionReturns`). The unlocked load of the candidate codes is one read.
- Text is ASCII where case is folded.
- The request multiplexer is a parameter. Of a mux that takes plain paths as they
  are written (`ReadsPlainly`: it accepts them, and two conflict, or one handles a
  request for the other, only when equal) more is proved; plain are clean paths
  without escapes, wildcards or white space (`PlainPath`). How a mux reads other
  patterns is not modelled.
- A browser posts back the hidden inputs of a page unchanged, and of the visible
  inputs any selection, with any values.
- The token library checks issuer and audience for equality.

## Where the code does less than it says

Each of these has a lemma with a concrete input and a lemma with the exact
condition: the promise holds if and only if the condition does.

- A token request that has taken its grant goes on when its principal is
  removed: it mints, and stores a refresh token that no purge sees any more
  (`RefreshOutlivesRemoval`, a run; `DescentExactly`: exactly when such a request
  was under way at the purge; `PurgeHoldsExactly`: or a code could be redeemed).
- A hyphen shields outer white space other than the plain space from trimming, so
  inserting one can change what a code normalises to (`TabShieldedByHyphen`;
  `SeparatorInsertion`, for every input).
- A body that itself begins with MCP loses those letters when typed without the
  prefix (`SomeBodyStartsWithPrefix`; `BodyAloneNormalizes`).
- Underscores in mode keys can make two enrollment inputs share a name
  (`UnderscoresCollide`; `NamesDistinctExactly`).
- A requested resource `/` is not the empty request (`BareSlashDiffers`;
  `TrailingSlashExactly`).
- A resource outside the public URL can share a metadata route with one under it,
  and then registering the routes fails at start (`SharedRouteFails`;
  `SharedRouteExactly`, `RegistrationExactly`). So can two resources under it, if
  the mux reads an escape as its character (`EscapedRouteFails`;
  `RegisteredExactly`, for every mux).
- A name without a binding for a resource is enrolled first, but what is then
  picked from an allowed set is not looked at again: a projection that reads values
  can show nothing of the pick (`PickIssuesUnbound`; `UnboundExactly`, for every
  submission; `NoTokenUnbound`, over every run).
- Two store objects over one document can lose an update (`OverlapLosesUpdate`). A
  schedule of any threads over any store objects is right at every moment,
  whatever a call's function would make of documents it never sees, if and only if
  each mutate takes effect on a document that is still what it loaded
  (`UndisturbedExactly`; `EveryChoiceExactly`, for all choices of functions).

## Model

| member | source | states |
|---|---|---|
| `AuthorizeFlow.FlowRefinesRememberingServer` | authorize.go:52-97 | For a conversation that starts with a GET of p, over any number of approval, enrollment, choice and chooser rounds in arbitrary states with arbitrary callbacks, each submission is read as the phase that rendered its page, and every response and store is that of a server which remembers p and the phase and reads only visible inputs |
| `AuthorizeFlow.RoundRefines` | authorize_step.go:31-42 | One round: the post parses to the conversation's request and classifies to its phase, does what the remembering server does, and a page shown hides exactly what that server goes on to remember |
| `AuthorizeFlow.CodeCarriesFirstRequest` | authorize.go:206-225 | Every code issued in such a conversation, and its redirect, carries the client id, redirect URI, state and challenge of the first GET, its scope or the first scope of the server when it names none, and its audience or the default |
| `Promises.ResolvesAsked` | server.go:215-224 | A request resolves to the audience it asks for, trailing slashes aside, when that is allowed, to the default when it asks for none, else to nothing |
| `AuthorizeFlow.ChosenNamesClear` | enroll_view.go:11-13 | No descriptor key and no binding key can make an input whose name is a hidden one or a marker |
| `AuthorizeFlow.HiddenNames` | choose_page.go:129-139 | Pages hide the eight request inputs and markers only; the enroll_mode marker only on the choice page, none on the approval page |
| `AuthorizeFlow.NotShadowed` | authparams.go:33-55 | Whatever is filled in, a hidden input of the page reads back as hidden |
| `AuthorizeFlow.PostedAlike` | authorize.go:64-97 | The POST handler on hidden and visible inputs equals the remembering one on the visible inputs |
| `AuthorizeForm.RequestRoundTrip` | authparams.go:18-46 | The request survives any page that carries it, whatever else the page hides and whatever is filled in under other names |
| `AuthorizeForm.RenderHidden` | choose_page.go:180-180 | Hidden inputs written in key order after the visible ones read back as the hidden map, shadowed only by visible inputs of the same name |
| `GrantLines.SingleUse` | grant.go:27-62 | Over every interleaving of any number of requests: code, live refresh tokens that descend from it, and requests in flight with its grant number at most one; no code or refresh token is ever redeemed twice |
| `GrantLines.ProjectedOnce` | grant.go:67-94 | Along chains of any length every access token has client, scope, audience and name of the original code; its binding is the code's own when there is no projection, else what the projection makes of that, applied once |
| `GrantLines.LinesNeverRevive` | refresh.go:29-76 | A line held or minted on later was held before: once given up it never comes back |
| `GrantLines.AlwaysSound` | authcode.go:40-62 | Every step of every run keeps the keys, exclusivity, single redemption and faithfulness of all grants |
| `GrantLines.TakeStepSound` | refresh.go:63-76 | Taking a code or refresh token moves its line into the request and leaves it nowhere else |
| `GrantLines.RenewStepSound` | refresh.go:29-41 | Storing the next refresh token moves the line from the request to that token |
| `GrantLines.PostIssuesOne` | authorize.go:206-225 | A submission issues nothing or exactly one code, under the freshly drawn token, and touches no other grant |
| `GrantLines.FinishIssuesOne` | enroll_flow.go:133-165 | The same of an enrollment that finishes |
| `Redemptions.RedeemedByOwnClient` | grant.go:27-62 | In every run each code was redeemed by the client and for the redirect URI it was issued to, and each refresh token by the client of its line or by one that did not say |
| `Redemptions.TakeCodeExactly` | grant.go:27-42 | A token request gets hold of the grant of a code if and only if the code is live and unexpired, client and redirect URI are those of the grant and the verifier proves the challenge; the code is gone in any case |
| `Redemptions.TakeRefreshExactly` | grant.go:45-62 | The same of a refresh token: live, taken out by a working store, and the client named is its own or none; gone whenever the store works |
| `Redemptions.CodeFaults` | grant.go:27-42 | Every other code request is an invalid grant |
| `Redemptions.RefreshFaults` | grant.go:45-62 | Every other refresh is an invalid grant with the token gone, or a server error with the token kept, exactly when the store failed |
| `Redemptions.IssueTokensExactly` | grant.go:67-94 | Tokens are issued exactly when the server signs, a token is drawn and the store works: the access token with each claim of what is held and the binding projected, the refresh token with the binding as it was |
| `Provenance.EveryGrantTraces` | authorize.go:30-97 | In every reachable world each live code, refresh token, request in flight and minted token traces to one authorize POST that passed the gates for a registered client, one of its redirect URIs, a non-empty S256 challenge and an allowed audience; all but the codes also to a matching verifier |
| `Provenance.EveryBindingGranted` | authorize.go:182-199 | Every code issued in every run has the binding its approval allows: of an enrollment the one stored just after the merge, of any other a narrowing of the one stored at the POST |
| `Provenance.NoneUnbound` | authorize.go:166-172 | In every run a code issued without enrolling, to a name with an enrollment for the resource, was for a name whose stored binding, projected for this resource, was not empty |
| `Provenance.NoTokenUnbound` | authorize.go:166-172 | Nor does any token of such a line show an empty binding, when the stored one holds no sets or only its keys decide what the projection empties |
| `Provenance.TokensGoodOnlyWhereAsked` | token.go:137-184 | In every run each unexpired access token ever minted, by a code or any chain of refresh tokens, is accepted by a verifier of the server's key if and only if its approved request asked for the verifier's audience, and then reads as that client, the scope asked for, the approved name and the projected binding |
| `Provenance.ClientsKeepIds` | clients.go:34-45 | In every reachable world clients are registered under their own ids |
| `Provenance.AlwaysTraced` | grant.go:27-42 | Every step keeps that trace |
| `Provenance.LineTraces` | authorize.go:229-257 | What the gates established still holds of the client as registered now |
| `People.CodesIdentify` | principal.go:207-253 | In every run from an empty store, the operator code is the stored one, or on first use the one then drawn and stored; the acceptable codes are distinct after normalisation; each, however typed, is recognized as its own identity, anything else, retired codes and blank input among it, as nobody; only a failing store or draw gives no answer |
| `People.RetiredForGood` | principal.go:129-141 | Over every run a code once replaced or removed never comes into use again |
| `CodesInForce.ReplacedForGood` | principal.go:129-141 | In every run the code that a rotation, an addition over an existing name or a removal replaces is retired by that very step and in every later world |
| `CodesInForce.RecordsExactly` | principal.go:63-141 | Each administrative operation, spelled out: the record has the code drawn or kept and the binding given, kept or merged, and no other record changes |
| `CodesInForce.OperatorExactly` | pairing.go:44-64 | The stored operator code changes exactly when a rotation, or its first use, can draw and store one |
| `CodesInForce.StoredCodeIsOperator` | pairing.go:44-51 | In every state the stored operator code, however typed, is recognized as the operator when the stores can be read, and entering any code leaves it as it is |
| `CodesInForce.FirstUse` | pairing.go:44-51 | Without one, entering a code makes it if it can be drawn and stored; else nobody is recognized and nothing changes |
| `CodesInForce.OperatorCodeStays` | pairing.go:44-64 | Over every run the operator code stays until a rotation replaces it |
| `CodesInForce.PurgesExactly` | principal.go:182-187 | A purge takes exactly the refresh tokens, or the sessions, of its name, and no other operation takes any |
| `CodesInForce.RegistersExactly` | clients.go:34-45 | Registration stores exactly the client with its redirect URIs and name, or nothing |
| `People.AlwaysCodes` | pairing.go:44-79 | Every step keeps all codes in use printed and pairwise different |
| `People.NextMembers` | principal.go:63-141 | In one step only AddPrincipal creates a name; a binding key goes only by setting, adding with a binding or removing; merging keeps the code and rotating the binding |
| `People.OnlyAddCreates` | principal.go:84-98 | Over every run a name without a record gets one only from AddPrincipal |
| `People.BindingKeysStay` | principal.go:102-124 | Over every run a record and its binding keys stay until the binding is set, or the record is added again with one or removed |
| `Removal.RemovedIsGone` | principal.go:170-189 | After RemovePrincipal, with anything interleaved between its three store operations, and until the name is added again, no code and no cookie is recognized as that name |
| `Removal.OldSessionsStayDead` | session.go:86-121 | Sessions from before the removal are dead in every later world, also after a re-add |
| `Removal.LaterTokensWereUnderWay` | refresh.go:45-59 | Every token minted for the name after the purge belongs to a line authorized before the removal, and held at the purge by its unredeemed code or a request in flight |
| `AfterRemoval.DescentExactly` | grant.go:27-94 | From the purge on, whatever happens until a re-add, every token minted for the name descends from a code unredeemed at the purge, if and only if no token request of the name was under way then |
| `AfterRemoval.PurgeHoldsExactly` | refresh.go:45-59 | No refresh token of the name is ever stored again until a re-add, whatever happens, if and only if at the purge no token request of it was under way and none of its codes was unexpired with a verifier that passes |
| `AfterRemoval.StaysStuck` | grant.go:27-42 | Over every run a line held by nothing but a code that is expired or has no verifier stays so |
| `AfterRemoval.CodeRenews` | grant.go:27-42 | From any world with a redeemable code a run stores a live refresh token for its name |
| `AfterRemoval.NothingComesBack` | principal.go:170-189 | With neither a code nor a request of the name at the purge, no later world before a re-add holds a refresh token, request or code of it, and none mints for it |
| `AfterRemoval.RemovalLeavesNothing` | principal.go:170-189 | The same at the removals of every run |
| `AfterRemoval.RemovalClears` | refresh.go:45-59 | The purge of every removal leaves such a world |
| `AfterRemoval.FlightRenews` | grant.go:67-94 | From any world with a request under way a run stores a live refresh token for its name |
| `AfterRemoval.FlightMints` | grant.go:67-94 | And a run mints a token on its line |
| `LateRenewal.RefreshOutlivesRemoval` | grant.go:67-94 | A run from an empty store, for every plain configuration: all operations of a removal succeed, and a refresh token of the removed name is live afterwards |
| `Removal.RemovalTouchesOnlyTheName` | principal.go:170-189 | Whatever fails, the operator, clients, codes and everything of other names stay as they were |
| `Removal.StaysAbsent` | enroll_flow.go:133-165 | While a name has no record no session starts for it and no code is issued to it, over every run |
| `Removal.SessionsStayDead` | session.go:52-69 | Over every run a session token once drawn is stored later only if it is now, and with the same record |
| `AuthorizeFacts.EnrollmentFailsClosed` | enroll_flow.go:133-165 | For every callback result and whatever happened to the stores meanwhile: a code is issued exactly on success; on error, choice, empty result, vanished principal or failing store nothing changes; on success the code carries the binding stored just after the merge |
| `AuthorizeFacts.IssuedCodesAreNarrowed` | authorize.go:182-199 | A code issued outside the enrollment finish to a named principal carries the stored keys, a member of each stored set, every other value as stored, and no set-valued key |
| `AuthorizeFacts.RecognizedIsCurrent` | session.go:105-121 | Whoever is recognized by code or session is the operator or holds the binding stored right now |
| `AuthorizeFacts.PostShape` | authorize.go:64-97 | Past refusal, a POST passed every gate and either shows a page changing nothing, issues one code to the recognized person, or calls the callback changing nothing |
| `Handlers.SubmissionExactly` | authorize.go:64-97 | What every submission does: the answer of the gates, an error page, the form again, or the handling of whoever was recognized |
| `Handlers.GatesExactly` | authorize.go:30-47 | A request passes if and only if it names a registered client and one of its redirect URIs, asks for a code with an S256 challenge and for an allowed audience; each other request with which answer, and only one with a registered redirect URI is answered there |
| `Handlers.GateFaults` | authorize.go:229-244 | Which error page the other requests get |
| `Handlers.SessionIdentifies` | session.go:105-121 | Whom a cookie identifies, for every state and failure |
| `Handlers.CodeWins` | authorize.go:103-108 | When a code is entered neither cookie nor sessions play a part |
| `Handlers.GetExactly` | authorize.go:52-58 | The form carries the request, greets whoever the session names and offers an update exactly where there is something to enroll |
| `Handlers.DivertsExactly` | authorize.go:147-173 | An approval shows the enrollment page if and only if the name is one with an enrollment for the resource and the binding a token for this request would show is empty, or an update was asked for |
| `Handlers.IssuesOrChooses` | authorize.go:182-199 | Any other approval is issued a code for the binding as it is without sets, else for what was picked, exactly when every pick is offered |
| `Handlers.UnboundExactly` | authorize.go:147-199 | The tokens of a code so issued show nothing if and only if the binding held sets and what was picked shows nothing |
| `Handlers.PickIssuesUnbound` | authorize.go:147-199 | A pick with which that happens |
| `Handlers.IssueExactly` | authorize.go:206-225 | Issuing, field by field: a session exactly when one is due, for its time; a code for a minute that repeats the request; the answer with state and cookie; or the error page that keeps the session |
| `Handlers.FieldsAskExactly` | enroll_flow.go:79-98 | The callback is asked if and only if every required field of the posted mode is filled, and receives for exactly the mode's fields what was typed, trimmed, secrets included; else the form names what is missing |
| `Handlers.ChoiceAsksExactly` | enroll_flow.go:103-119 | The callback is asked if and only if something was chosen, and receives the choice and its own state, and no values |
| `Handlers.UnknownMode` | enroll_flow.go:68-74 | A post that addresses no mode asks nobody and shows the form |
| `Handlers.AsksWhatWasPosted` | authorize.go:64-97 | Whichever POST asks the callback came from a round of the enrollment of its resource, and asks what was posted |
| `Handlers.FinishExactly` | enroll_flow.go:133-165 | What every result of the callback leads to: the form with its message, its options, an internal error, or the merged record stored and a code for it |
| `Handlers.StepsExactly` | authorize_step.go:31-42 | The four steps, also of forms no page would post |
| `EnrollSecrets.SecretsDoNotShow` | enroll_flow.go:79-98 | Two enrollment posts that differ only in secret values, with the same required secrets blank, end in the same state and response for the same callback error |
| `EnrollSecrets.NamesTellSecrets` | enrollment.go:143-152 | Unique field keys keep non-secret inputs from sharing a name with secret ones |
| `EnrollView.SecretsStayHidden` | enroll_view.go:57-71 | What is echoed and reported missing does not depend on secret values |
| `EnrollView.CollectReadsBack` | enroll_view.go:36-71 | With distinct names, what is typed into the rendered form comes back trimmed under the right key of the right mode, secrets outside the echo, blanks reported when required |
| `EnrollView.RenderedReadsBack` | enroll_view.go:36-71 | Posting the rendered page back returns non-secret values trimmed and secrets blank |
| `EnrollView.NamesDistinctExactly` | enroll_view.go:11-13 | Names of a validated descriptor are distinct exactly when no key pair swallows another; mode keys without underscore suffice |
| `EnrollView.CollisionExactly` | enroll_view.go:11-13 | Exactly which two (mode, field) pairs share an input name |
| `EnrollView.UnderscoresCollide` | enroll_view.go:11-13 | A validated descriptor whose names collide |
| `EnrollView.MissingLabelsExactly` | enroll_view.go:57-71 | The labels reported are exactly those of blank required fields |
| `EnrollView.ValuesExactly` | enroll_view.go:57-71 | The callback's values hold each field's trimmed input, the echo the same without secret fields |
| `EnrollView.CollectModeFields` | enroll_view.go:57-71 | The one loop computes values, echo and missing labels |
| `EnrollView.EnrollModeViews` | enroll_view.go:36-52 | The nested loops build one view per mode and field |
| `Handlers.ViewsExactly` | enroll_view.go:36-52 | Each mode and field in order, under its input name, with its texts and no secret value |
| `Enrollment.ValidateExactly` | enrollment.go:124-155 | Validate accepts exactly descriptors with a callback, at least one mode, fields in each, and unique non-empty keys |
| `Enrollment.Validate` | enrollment.go:124-155 | The loops with seen-key sets report the first problem |
| `Enrollment.ReportsTruly` | enrollment.go:124-155 | The problem reported is one the descriptor has |
| `Enrollment.ModeLookupInverse` | enrollment.go:159-169 | The key rendered with a mode leads back to it, an unknown key to none, the empty key to the only mode |
| `Enrollment.FindMode` | enrollment.go:159-169 | The search loop finds the first mode with the key |
| `BindingChoice.ResolvedNarrows` | choose_page.go:64-86 | A resolution narrows the stored binding, and resolving again changes nothing |
| `BindingChoice.NarrowingsAreChoices` | choose_page.go:64-86 | The narrowings of a binding are exactly what choices can reach |
| `BindingChoice.ResolvedReadsStoredKeys` | choose_page.go:64-86 | Only choices for stored keys matter |
| `BindingChoice.MembersExactly` | choose_page.go:35-46 | Members are exactly the non-blank trimmed pieces, and none is itself a set |
| `BindingChoice.MembersInOrder` | choose_page.go:35-46 | In the order of the pieces, repetitions and all, each trimmed |
| `Text.JoinSplit` | choose_page.go:35-46 | Joining the pieces with the separator gives the text back |
| `Text.TrimExactly` | choose_page.go:35-46 | Trimming takes exactly the outer white space |
| `Text.LexExactly` | choose_page.go:50-59 | The order of the sorted keys is that of the first difference |
| `BindingChoice.BindingSet` | choose_page.go:35-46 | The splitting loop: a set has at least two members |
| `BindingChoice.SetValuedKeys` | choose_page.go:50-59 | Exactly the set-valued keys, sorted, whatever the map order |
| `BindingChoice.ResolveBindingChoices` | choose_page.go:64-86 | The loop over the map in any order gives the one resolution |
| `PairingCode.NormalizeCode` | pairing.go:68-98 | Normalising a printed code gives back its 25-character body |
| `PairingCode.CodeDeterminesBits` | pairing.go:68-79 | Two draws print the same code, and normalise alike, exactly when their first 125 bits agree |
| `PairingCode.NormalizeIsCanonical` | pairing.go:92-98 | The parser as one canonical form, for every input |
| `PairingCode.SameTyping` | pairing.go:92-98 | Inputs that keep the same characters after trimming and stripping, up to case and swaps of 0/O or 1/I/L, normalise alike |
| `PairingCode.SwapsInvisible` | pairing.go:92-98 | Case and swaps of 0/O and 1/I/L are invisible in every input, whatever white space is around |
| `PairingCode.SeparatorInsertion` | pairing.go:92-98 | For every input and place: inserting a hyphen or space is invisible if and only if it is not a hyphen that shields outer white space other than plain spaces |
| `PairingCode.TabShieldedByHyphen` | pairing.go:92-98 | A hyphen in front of a leading tab does |
| `PairingCode.BodyAloneNormalizes` | pairing.go:92-98 | The prefix may be dropped exactly when the body does not begin with MCP |
| `PairingCode.SomeBodyStartsWithPrefix` | pairing.go:68-79 | Such a body can be drawn |
| `PairingCode.BlankMatchesNothing` | pairing.go:92-98 | Exactly blank input and a bare prefix normalise to nothing, and nothing matches no printed code |
| `PairingCode.GeneratePairingCode` | pairing.go:68-79 | The grouping loop prints the code of the draw |
| `MapStoreSchedules.LinearizableFromStart` | mapstore.go:19-69 | Any schedule of get and mutate over one store equals the calls one at a time in lock order: same document, each started call taking effect at most once, between its start and its return, each delivered answer that of its own call's effect, no call lost, failed and unchanged calls without trace |
| `MapStoreSchedules.EffectsAnswered` | mapstore.go:33-45 | Every effect belongs to exactly the one call that was, or is about to be, answered with its answer |
| `MapStoreSchedules.UndisturbedExplained` | principal.go:182-187 | Several store objects over one document: the same while no save falls between another's load and save |
| `MapStoreOverlap.UndisturbedExactly` | mapstore.go:33-45 | For any schedule of any threads over any store objects: it is explained at every moment, with the function of any call replaced by one that agrees on what the call loaded, if and only if each mutate takes effect on a document that is still what it loaded |
| `MapStoreOverlap.EveryChoiceExactly` | principal.go:182-187 | A shape of schedule is explained at every moment for every choice of update functions if and only if none of the choices is ever disturbed |
| `MapStoreOverlap.EffectExplained` | mapstore.go:33-45 | After the step in which a mutate takes effect the run is explained if and only if the effect is the sequential one on the document stored then |
| `MapStoreOverlap.StaleIsWrong` | mapstore.go:33-45 | A mutate that takes effect on another document than it loaded is wrong for some function that does the same on the loaded one |
| `MapStoreOverlap.SwapRun` | mapstore.go:33-45 | A schedule runs alike with the function of a call replaced by one that agrees on what the call loaded |
| `MapStoreSchedules.OverlapLosesUpdate` | principal.go:182-187 | A schedule of two store objects in which an acknowledged removal is undone |
| `MapStoreSchedules.StepOneInside` | mapstore.go:33-45 | The mutex is held by exactly the one thread inside |
| `MapStore.JsonMapStore.Mutate` | mapstore.go:33-45 | Load, apply, save: an error or an unchanged result leaves the document as it was |
| `MapStore.JsonMapStore.Get` | mapstore.go:19-29 | The value of the key in the document, an error only when the read fails |
| `MapStore.JsonMapStore.Load` | mapstore.go:47-61 | An absent entry reads as the empty map |
| `MapStore.JsonMapStore.Save` | mapstore.go:63-69 | The whole document is replaced, or on failure kept |
| `SessionHistory.NeverPruningAnswersAlike` | session.go:52-121 | In every reachable world a server that never pruned answers every GET, every submission and every callback's result alike, with the same effect on everything else and the same sessions begun |
| `SessionHistory.PruningNeverShows` | session.go:52-121 | In every reachable world whoever is recognized, by code or session, is whoever would be had no session ever been pruned |
| `Stores.PruningUnobservable` | session.go:52-82 | Over every run a lookup answers exactly as a store that never prunes |
| `Stores.IssueIsLawful` | session.go:52-69 | The pruning of an issue drops only what is expired then |
| `Stores.SessionStore.Issue` | session.go:52-69 | Expired records go and the new one is stored in one write, or nothing changes |
| `Stores.SessionStore.Lookup` | session.go:73-82 | The unexpired record of the token |
| `Stores.SessionStore.RemoveForPrincipal` | session.go:86-100 | The deleting loop removes exactly the sessions of the name |
| `Stores.RefreshStore.Issue` | refresh.go:29-41 | The grant is stored under the drawn token, or nothing changes |
| `Stores.RefreshStore.Exchange` | refresh.go:63-76 | A token is handed out exactly when it was taken out in the same write |
| `Stores.RefreshStore.RemoveForPrincipal` | refresh.go:45-59 | The deleting loop removes exactly the tokens of the name |
| `Stores.AuthCodeStore.Issue` | authcode.go:40-50 | The grant is stored with its expiry under the drawn code |
| `Stores.AuthCodeStore.Consume` | authcode.go:54-62 | The code is gone in any case and redeems only while unexpired |
| `Stores.ClientRegistry.Register` | clients.go:34-45 | A client is stored under its own fresh id, or nothing changes |
| `Principals.FirstMatchEstablishes` | principal.go:207-253 | The first match of the candidate list is the operator, else the least matching name |
| `Principals.EachCodeItsOwnGrant` | principal.go:207-226 | With distinct codes each code establishes its own grant and anything else none |
| `Principals.MergesCommute` | principal.go:114-124 | Merging twice changes nothing; two merges commute exactly when they agree on shared keys |
| `Principals.Pairing.VerifyPrincipal` | principal.go:207-226 | The loop without early exit yields the established identity |
| `Principals.Pairing.Candidates` | principal.go:237-253 | Operator code first, then all names in sorted order |
| `Principals.Pairing.AddPrincipal` | principal.go:63-79 | A fresh code; an absent binding keeps the stored one |
| `Principals.Pairing.MutateExisting` | principal.go:84-98 | Edits an existing record and never creates one |
| `Principals.Pairing.SetPrincipalBinding` | principal.go:102-106 | Replaces the binding of an existing record and keeps its code |
| `Principals.Pairing.MergePrincipalBinding` | principal.go:114-124 | Overlays the patch and returns the stored result |
| `Principals.Pairing.RotatePrincipal` | principal.go:129-141 | A fresh code for an existing record, its binding kept |
| `Principals.Pairing.RemovePrincipal` | principal.go:170-189 | The three documents and both results after each operation in order, up to the one that fails |
| `Principals.Pairing.PurgeGrants` | principal.go:182-187 | Refresh tokens, then sessions, through stores of its own |
| `Principals.RemovingRemoves` | principal.go:170-189 | On success exactly the record, refresh tokens and sessions of the name are gone; whatever happens, those of other names are untouched |
| `ServerSteps.RemoveFrom` | principal.go:170-189 | On the stores of a server it is the three events of the world, up to the one that fails |
| `Principals.Pairing.GetCode` | pairing.go:44-51 | The stored operator code, or on first use a fresh one that is stored |
| `Principals.Pairing.Rotate` | pairing.go:55-64 | A fresh operator code replaces the stored one, or nothing changes |
| `Audience.AudiencesExactly` | server.go:148-160 | No duplicates, default first, exactly the wanted members, none with a trailing slash |
| `Audience.DefaultExactly` | server.go:148-160 | The default is the configured resource without trailing slashes, or the public URL when that leaves nothing |
| `Audience.ResolveExactly` | server.go:215-224 | Nothing requested is the default; anything else resolves exactly when it is allowed without its trailing slashes, to just that |
| `Audience.BuildAudiences` | server.go:148-160 | The loop of New builds that list; a blank public URL is refused |
| `Audience.AudiencesGrow` | server.go:156-160 | Further configuration only appends |
| `Audience.ResolveIdempotent` | server.go:215-224 | Resolution lands in the list, is idempotent and reaches every member |
| `Audience.BareSlashDiffers` | server.go:215-224 | A server that resolves the empty request but not a slash |
| `Audience.TrailingSlashExactly` | server.go:215-224 | A trailing slash makes no difference exactly unless it is all there is |
| `Tokens.AudienceIsolation` | token.go:137-184 | An unexpired token minted for one resource is accepted at another exactly when both requests resolve alike, and then carries the granted identity |
| `Tokens.AcceptsExactly` | token.go:163-184 | A verifier accepts exactly tokens of its algorithm and key, issuer and audience that have not expired, and reads out their claims |
| `Tokens.DelegateNeverMints` | token.go:137-140 | A verify-only issuer mints nothing, and no token outlives its lifetime |
| `Discovery.HostAndDelegateAgree` | resource.go:42-62 | For every allowed resource under the public URL a delegate starts and challenges toward the resource's route, and a host that registers serves it there; when the list's routes are plain paths, the host registers if and only if no entry is the path of another, which holds when all entries start with the public URL, and a request for the route is handled for exactly that resource |
| `Discovery.ResourceServerExactly` | resource.go:42-62 | When a resource server starts, and the issuer, audience, route and challenge it then has |
| `Discovery.RegistrationExactly` | server.go:248-255 | The routes of an allowed list with plain paths register if and only if no entry is the path of another |
| `Discovery.SharedRouteFails` | server.go:248-255 | A configuration New accepts whose routes register with no mux |
| `Discovery.EscapedRouteFails` | server.go:248-255 | Another, under a mux that reads an escape as its character |
| `Discovery.SuffixExactly` | protect.go:40-45 | The base has no path, with or without a slash behind it; what is not under it is its own |
| `Discovery.UnderBaseNeverShares` | protect.go:40-54 | Different resources under the base never share a route |
| `Discovery.SharedRouteExactly` | protect.go:40-54 | Exactly which two resources share a route |
| `Discovery.RegisteredTable` | server.go:248-255 | The finished table serves exactly each entry's own route |
| `Discovery.RegisteredExactly` | server.go:248-255 | For every mux, registration succeeds if and only if it accepts each route and no two are equal or conflict |
| `Discovery.RegisterResources` | server.go:248-255 | The loop registers the routes in list order |
| `LateIssue.IdentifiedAnswers` | authorize.go:64-97 | Past identification the page, code or callback of a submission is the same whatever happened to the stores |
| `LateIssue.LateSessionReturns` | authorize.go:206-225 | Issuing after the name is removed and before it is added again: the session is recognized as the name if and only if one is started and has not expired |
| `Server.New` | server.go:141-210 | Refuses exactly a blank public URL, an invalid enrollment or a missing key; else a valid server with the audiences and defaults, an issuer that signs for the public URL, and the stores as they are |
| `Server.Server.constructor` | server.go:192-210 | Every server made from a serviceable configuration and distinct store keys is valid |
| `Server.Server.Submit` | authorize.go:64-97 | The POST handler on the store objects does to all six stores, and answers, what its function says |
| `Server.Server.Form` | authorize.go:52-58 | The GET handler, gates and greeting included |
| `Server.Server.CheckRequest` | authorize.go:30-47 | The shared gates in their order, each with its own response |
| `Server.Server.ValidateClientRedirect` | authorize.go:229-244 | A registered client and one of its redirect URIs, or the fitting error page |
| `Server.Server.Identify` | authorize.go:103-108 | An entered code wins, else the session; looking for the operator code may create it |
| `Server.Server.SessionPrincipal` | session.go:105-121 | The operator, or the current grant of the recorded name |
| `Server.Server.DivertToEnrollment` | authorize.go:147-173 | Which submissions stop at enrollment, with what reply, leaving the stores alone |
| `Server.Server.ResolveSetBindings` | authorize.go:182-199 | The narrowed grant, or the chooser |
| `Server.Server.IssueAndRedirect` | authorize.go:206-225 | Session first, then the code; a failing draw leaves the session |
| `Server.Server.MaybeStartSession` | session.go:126-145 | A session starts only after an entered code, and the flow goes on without one |
| `Server.Server.Finish` | enroll_flow.go:133-165 | Routes the callback's result; persists by merging, then issues with the merged binding |
| `Server.Server.SubmitFieldsOf` | enroll_flow.go:79-98 | Unknown mode, missing fields, or a call with every value and an echo without secrets |
| `Server.Server.SubmitChoiceOf` | enroll_flow.go:103-119 | Unknown mode, nothing selected, or a call with the choice and state |
| `Server.Server.GrantAuthCode` | grant.go:27-42 | The code is consumed in any case; client, redirect and verifier must match |
| `Server.Server.GrantRefresh` | grant.go:45-62 | The token is consumed even when the client does not match |
| `Server.Server.IssueTokenPair` | grant.go:67-94 | Mints over the projected binding and stores the original one |
| `ServerSteps.CodeGrantIsThreeSteps` | grant.go:27-42 | An uninterrupted code grant is three steps of the world |
| `ServerSteps.RefreshGrantIsThreeSteps` | grant.go:45-62 | And so is an uninterrupted refresh |

## Left out

- HTML templates, HTTP writers, headers, cookie attributes and URL encoding; a
  response is a page with its hidden inputs, a redirect, an error or a token pair.
- JWT encoding, HMAC, Ed25519, SHA-256, key loading and constant-time timing.
- The JSON text of stored documents; encoding and decoding are inverse.
- The operating system's keyring and `DeleteAll`.
- `validRedirectURI` and URL parsing, including the error page for a registered
  redirect URI that does not parse.
- Event delivery, metadata documents, register responses and the verified
  identity in a request context; they only report what is modelled.
- Concrete projections: `BindingForResource` is an arbitrary pure function.
- Handlers are atomic between the points listed under Assumptions; the finer
  steps inside one store call are in `MapStoreSchedules` only.
- Rotation does not end sessions or refresh tokens, removal does not void
  outstanding codes or unexpired access tokens, and an enrollment's own binding
  is not narrowed: the code promises none of these, and the model follows it.
