# truenas-mcp: verified model

A Dafny model of truenas-mcp, a server that offers a TrueNAS appliance to MCP clients: its JSON-RPC client, its OAuth
authorization server, its session lifecycle, and the algorithms of its read tools. `dafny verify dfyconfig.toml` checks
the whole project. Nothing here runs the Go program; every statement is about the model, for all inputs and all runs.

## What is modelled

**The JSON-RPC client** (`client_core.dfy`, `client.dfy`, `protocol*.dfy`). One WebSocket is shared by callers,
subscribers, the goroutines that unsubscribe, the read loop and `Close`. `ClientCore` is the state under `Client.mu` with
one function per critical section; `ClientObject.Client` is the object itself, with one method per critical section, each
proved equal to its function. `Protocol` puts everybody together as a step system: one step per critical section, channel
operation, write, or move of the target, with FIFO queues in both directions; any enabled step may come next. The
invariant of `protocol_invariant.dfy` holds in every reachable state, and `protocol_theorems.dfy` draws the consequences:
at most one stream for a source, no stream leaked, no send on a closed channel, replies never crossed, no waiter
stranded. The other files read the present off the steps that led to it: `protocol_wire.dfy` what was sent is read or
under way, `protocol_answers.dfy` how each call ends, `protocol_delivery.dfy` and `protocol_endings.dfy` what each
subscriber got and why it ended, `protocol_history.dfy` what the flags say and who gets a call or a subscription.
`protocol_turns.dfy` is the part of the invariant that outlives the read loop.

**The authorization server** (`oauth*.dfy`, `replay.dfy`, `single_redemption.dfy`, `base64.dfy`, `octets.dfy`,
`text.dfy`, `clock.dfy`).
Registration, authorization, code and refresh grants (RFC 6749 sections 4.1.3, 5.1 and 6; RFC 7636 section 4.6), and the
unwrapping of access tokens, as a protocol of steps in which clients may send anything at any time. Every accepted access
token is traced back through its refreshes to one redemption and one authorization. Sealed values are bytes and what is
presented is text, read as Go's `base64.RawURLEncoding` reads it. The replay cache is proved against a log of all its
claims, and single redemption is proved with its exact condition.

**Sessions** (`sessions.dfy`, `session_theorems.dfy`). Providers that open a session on first use and replace it when it
dies, the manager that tracks sessions, and the handler that keeps one provider per credential.

**Algorithms.** The rewrite of boolean `items` in a JSON Schema, over objects overwritten in place, with the meaning of
schemas it preserves (`schema_*.dfy`); text detection on a file cut at any byte, against UTF-8 as RFC 3629 defines it
(`utf8.dfy`, `text_file.dfy`); the bounded log collector over any interleaving of events (`log_collector.dfy`); the lazily
pruned task registry (`tasks.dfy`); the read dispatch from arguments to parameters to a shaped result (`dispatch.dfy`,
`dispatch_params.dfy`, `shared_options.dfy`, `shape.dfy`); and the redaction of secrets (`scrub.dfy`).

## Where the code does not do what it seems to promise

Each of these is proved, with the condition under which the promise does hold.

- A read error on a connection that stays open leaks the streams that were running: `failPending` empties both lists and
  leaves the socket open (`ReadFailureLeaksStream`). On an open socket a stream is held by exactly one list if and only
  if no read has failed (`StreamIsHeldIff`).
- `Call` does not look at the read error, so a call can be listed after the read loop has died
  (`PendingAfterReadFailure`), and gets no answer (`PendingAfterReadFailureIsNeverAnswered`). The calls that are stranded
  so are exactly those that began after the read error (`LateCallsAreStranded`).
- An authorization can yield tokens twice in two ways, and only in these (`DoubleRedemptionIff`). The replay cache is
  asked for the text of the code, but the decoder skips line breaks and spare bits, so a code has more than one text: its code, and
  its code followed by a line break, are both granted at one instant (`LineBreakIsGrantedToo`). When requests take no
  time, single use holds if and only if no sealed value has a second spelling (`GrantsOnceIff`). And one text is
  redeemed twice when a request is slower between its two clock readings and the lock than the code is old at its first
  claim; the comment on `Claim` rules that out.
- `Claim` reads its clock before it takes the lock, so a sweep can forget a claim that an earlier reading still needs
  (`SweepingShowsOutOfOrder`); for any readings it shows exactly when that happened (`SweepingIsInvisibleIff`). The task
  registry reads its clock under the lock and has no such case.
- Scrubbing can put a secret back together out of the replacement text; `CleanIff` says for exactly which secrets it
  cannot. For secrets without brackets, as API keys are, that is: not a part of the word "redacted".
- Rewriting boolean `items` also reaches into data, such as the value of `const` (`ConstIsPreservedIff`), and a reference
  that points into such a boolean starts to resolve (`WrittenObjectIsReferred`).
- `isText` accepts up to three arbitrary bytes at the end of a cut file (`GarbageTailIsAccepted`, `CutOfTextIff`).
- An operation that takes an identifier and anything else loses an argument: a call with an identifier carries all of
  its arguments if and only if it has no other (`IdentifierCarriesAllIff`). `LosslessIff` says for exactly which
  declarations none is lost; of the operations declared in `internal/tools/concerns.go`, the log tail is the one that
  would not qualify, and it is served by code of its own.

## Model

| member | source | states |
|---|---|---|
| ClientObject.Client.BeginCall | internal/truenas/client.go:374-383 | a fresh id with a fresh open channel is listed, unless the client is closed; the invariant of the lists is kept |
| ClientObject.Client.Forget | internal/truenas/client.go:414-418 | exactly this waiter leaves the list |
| ClientObject.Client.TakeWaiter | internal/truenas/client.go:166-169 | the waiter of an id leaves the list before anything is sent to it |
| ClientObject.Client.Send | internal/truenas/client.go:171-173 | the answer goes into an open empty channel that no list mentions; no panic |
| ClientObject.Client.FailPending | internal/truenas/client.go:180-197 | three in-place loops close every listed waiter, subscription and cleanup exactly once and leave all three lists empty |
| ClientObject.Client.NewSub | internal/truenas/client.go:244-247 | a subscription starts open, empty and unregistered |
| ClientObject.Client.TryRegister | internal/truenas/client.go:249-271 | one turn of the registration loop: refused when closed, dead or open already, told to wait when the source is being unsubscribed, else registered |
| ClientObject.Client.Unregister | internal/truenas/client.go:327-340 | a subscription that is still registered is closed with its reason and, if asked, becomes a cleanup; any other changes nothing |
| ClientObject.Client.Dispatch | internal/truenas/client.go:300-317 | an event is buffered, or a full subscription ends with the overflow error; an event for nobody changes nothing |
| ClientObject.Client.FinishCleanup | internal/truenas/client.go:355-360 | a cleanup that is still listed leaves the list and its `done` closes, once |
| ClientObject.Client.MarkClosed | internal/truenas/client.go:474-485 | Close sets `closed` and nothing else |
| ProtocolHistory.AliveIff | internal/truenas/client.go:468-472 | in every run, Alive holds exactly while nobody has called Close and no read has failed |
| ClientCore.FailPendingSound | internal/truenas/client.go:180-197 | after a read failure the lists are sound and every cleanup ever made is done |
| ClientCore.UnregisterSound | internal/truenas/client.go:327-340 | unregistering keeps the lists disjoint and their channels open |
| ClientCore.DispatchSound | internal/truenas/client.go:300-317 | dispatching keeps the lists sound, on a full buffer too |
| ProtocolInvariant.StepKeepsInv | internal/truenas/client.go:138-418 | every enabled step of every actor keeps the invariant of the whole connection |
| ProtocolInvariant.RunKeepsInv | internal/truenas/client.go:138-418 | the invariant holds after every step of every run |
| ProtocolTheorems.AtMostOneStream | internal/truenas/client.go:239-362 | the target never runs two streams for one source, in any reachable state |
| ProtocolTheorems.StreamIsHeldIff | internal/truenas/client.go:180-362 | in every reachable state with an open socket, a source that streams or has a subscribe on its way is held by exactly one of the two lists if and only if no read has failed |
| ProtocolTheorems.ReadFailureLeaksStream | internal/truenas/client.go:180-197 | a reachable state with an open socket and a stream that neither list holds, after a read failure |
| ProtocolTheorems.ReplacementWaits | internal/truenas/client.go:263-278 | in every reachable state, also after a failed read, a subscribe is written only when nothing of an earlier subscription is left and every earlier unsubscribe was answered with success |
| ProtocolTurns.RunKeepsTurns | internal/truenas/client.go:263-297 | while the socket is open, a registered subscription whose subscribe is not written finds its source free, after every step of every run, though a failed read takes the lists away |
| ProtocolTheorems.NeverPanicsNorBlocks | internal/truenas/client.go:166-197 | no interleaving sends on or closes a closed channel, and the read loop never blocks on a waiter |
| ProtocolTheorems.RepliesAreNeverCrossed | internal/truenas/client.go:365-412 | a call returns a reply only if the target decided that reply for its own id |
| ProtocolAnswers.AnswerIsReturned | internal/truenas/client.go:398-410 | in every run, a caller that receives after its answer was read returns that answer, and it is what the target decided for it |
| ProtocolAnswers.CallEndsAs | internal/truenas/client.go:385-411 | in every run, a call is lost exactly if its write failed or a read failed while it waited and its caller did not give up; given up exactly if its caller did; and else, and only then, returns the one answer read for it |
| ProtocolAnswers.AnswerIsKept | internal/truenas/client.go:166-173 | an answer once read for a waiting call is never lost: the read loop is about to send it, or it is in the call's channel, or the call has returned it |
| ProtocolAnswers.ListedIff | internal/truenas/client.go:166-189 | a call is listed from its beginning until it ends, its answer is read or a read fails |
| ProtocolHistory.CallsBeginIff | internal/truenas/client.go:374-383 | in every run, a step that begins a call begins one, with a new id and the request it is for, exactly if Close was not called before; no other step begins any |
| ProtocolHistory.RegistersIff | internal/truenas/client.go:249-278 | in every run, Subscribe is refused exactly after a Close or a failed read or beside a subscription to its source, waits exactly for the cleanup of its source, and is listed otherwise |
| ProtocolTheorems.IdsAreFresh | internal/truenas/client.go:379-382 | an id is never handed out again |
| ProtocolTheorems.NoCallerIsForgotten | internal/truenas/client.go:395-410 | a waiting caller is listed, can receive already, or is the one the read loop is about to answer |
| ProtocolTheorems.ListsStaySound | internal/truenas/client.go:225-235 | the lists share no source, a closed subscription is not registered, and a cleanup is done exactly when it is not listed |
| ProtocolTheorems.AfterReadFailure | internal/truenas/client.go:180-197 | after a read failure both lists are empty, every subscription past registration is closed, every waiting Subscribe can go on |
| ProtocolHistory.ReadFailureIsFinal | internal/truenas/client.go:184 | nothing in any run clears the read error |
| ProtocolHistory.OneDelivery | internal/truenas/client.go:166-188 | in every run a waiter's channel gets at most one answer or one close, never one after the other |
| ProtocolTheorems.CleanupFinishesAlone | internal/truenas/client.go:342-362 | a cleanup goroutine closes `done` within seven steps of its own, even if nobody else ever moves |
| ProtocolTheorems.NoWaiterIsStranded | internal/truenas/client.go:273-277 | whoever waits for a cleanup waits for one that finishes by itself |
| ProtocolDelivery.DeliveryHasNoGaps | internal/truenas/client.go:138-164 | in every run, what a subscriber received and has buffered is exactly the notifications for its source among the messages read between its registration and its end, in order |
| ProtocolWire.SentIsReadOrOnItsWay | internal/truenas/client.go:138-142 | and what was read, with what is still on its way, is exactly what the target has sent, in order |
| ProtocolWire.RequestedIsServedOrOnItsWay | internal/truenas/client.go:385-393 | every request whose write reached the target has been read by it or is on its way, in order |
| ProtocolEndings.EveryTakeTakesOne | internal/truenas/client.go:244-247 | every receive of a reader takes one event |
| ProtocolEndings.EndedAsIff | internal/truenas/client.go:225-235 | in every run, the error of a subscription is the reason for which a step ended it, and there is none before |
| ProtocolEndings.ReasonsAreTrue | internal/truenas/client.go:280-317 | a subscription ends with overflow only when an event for it meets a full buffer, interrupted only by a failed read, cancelled only after its caller cancelled an accepted stream, and otherwise because its request was refused or failed, as the reason says |
| ProtocolEndings.EndsLeaveCleanups | internal/truenas/client.go:319-340 | a subscription that ends leaves a cleanup for its source exactly unless the target refused it or the connection is gone |
| ProtocolEndings.CancelEnds | internal/truenas/client.go:288-296 | a cancelled stream has ended, or its own next step ends it |
| ProtocolEndings.SubscribeFailsFor | internal/truenas/client.go:249-278 | a Subscribe that is over without having been listed was turned away: it gave up waiting, or was refused |
| ProtocolEndings.OverflowLosesThatEvent | internal/truenas/client.go:300-317 | a subscription that overflowed got every event for its source that was read since its registration, up to the one that met the full buffer, which is lost |
| ProtocolHistory.SocketIsOpenIff | internal/truenas/client.go:342-353 | in every run, the socket is open until it is closed, by Close or by a cleanup |
| ProtocolHistory.CleanupClosesOnFailure | internal/truenas/client.go:348-353 | a cleanup closes the socket only when its unsubscribe was not accepted |
| ProtocolHistory.LateCallsAreStranded | internal/truenas/client.go:374-412 | after a failed read, in every run, exactly the unfinished calls that began later are listed, and a waiting caller can receive exactly if its call began before |
| ProtocolTheorems.PendingAfterReadFailure | internal/truenas/client.go:374-383 | a reachable state in which a call is listed after the read loop has died |
| ProtocolTheorems.PendingAfterReadFailureIsNeverAnswered | internal/truenas/client.go:374-410 | such a call cannot receive anything and never ends with a reply |
| OauthHandler.Handler.HandleRegister | internal/oauth/register.go:38-115 | a client_id is issued exactly when there are redirect URIs and each is absolute and https, or http to a loopback address |
| OauthHandler.Handler.ValidateRedirectUri | internal/oauth/client.go:87-94 | accepts exactly the registered URIs |
| Oauth.ParseAuthorizeRequest | internal/oauth/authorize.go:29-64 | no problem exactly when the response type, client, redirect and S256 challenge are all in order |
| OauthHandler.Handler.HandleAuthorizePost | internal/oauth/authorize.go:75-126 | a code is handed out exactly for a request in order and a key the validator accepted, and opens to that key, client, redirect and challenge until the last whole second of its minute |
| OauthHandler.Handler.HandleAuthorizationCodeGrant | internal/oauth/token_handler.go:35-85 | tokens are granted only for a code this request matches; they open to its credential as long as they live and as the answer says, the same text is granted nothing more until its claim ends, and a refusal says whether the request was incomplete |
| OauthHandler.Handler.HandleRefreshTokenGrant | internal/oauth/token_handler.go:87-107 | tokens are granted exactly for a refresh token that still opens, and open to its credential as long as they live and as the answer says; a refusal says why |
| OauthHandler.Handler.IssueTokens | internal/oauth/token_handler.go:109-133 | both tokens open to the credential at every instant of their truncated life and at none after it, expires_in in the answer is the time to live in whole seconds and overstates that life by less than one, and all that was sealed before still opens |
| OauthSingleUse.FailedAttemptsKeepCode | internal/oauth/token_handler.go:53-82 | in every run, however many requests failed a check before, a request gets tokens for a code exactly if it repeats its client and redirect, proves its challenge and is in time, unless one like it came before |
| Oauth.ExpiryIsExact | internal/oauth/code.go:36-58 | accepted at every instant up to one second before issue + ttl and at none from issue + ttl on; the exact last instant |
| Oauth.ExpiresInOverstatesByLessThanASecond | internal/oauth/token_handler.go:116-120 | the access token of an answer opens at every instant up to one second before the expires_in of that answer is over, and at none from the configured time to live on |
| OauthProvenance.RunTraced | internal/oauth/token_handler.go:35-133 | in every run, every sealed value and every client is traced to the steps that made it |
| OauthProvenance.RegisteredIsRecognised | internal/oauth/authorize.go:29-64 | an authorization request for an issued client_id is in order, in every later state, exactly if it asks for a code with an S256 challenge and for one of the redirects of that registration |
| Oauth.CredentialIff | internal/server/session.go:43-68 | the key of a request is that in the key header, if there is one, whatever else is presented; else that of the bearer token, an access token standing for the key it opens to and any other for itself; there is no credential exactly without either |
| Oauth.BearerTokenIff | internal/server/session.go:48-57 | a header presents a token exactly if it is the word bearer in any case, a space and the token, with further spaces around either |
| OauthProvenance.AcceptedTokenDescends | internal/server/session.go:43-68 | an access token that unwraps to a key, in whatever spelling, descends through any number of refreshes from a redemption with the right client, redirect and verifier of an authorization at which that key was accepted; its lifetime has not passed |
| OauthProvenance.RootIsAuthorized | internal/oauth/authorize.go:75-126 | the root of every lineage is an authorization the validator accepted, for a redirect its client had registered, which is https or a loopback address |
| OauthProvenance.SealsLast | internal/oauth/seal.go:24-73 | what was sealed opens the same way in every later state |
| OauthProvenance.GrantedTokenUnwraps | internal/oauth/token.go:27-52 | a granted access token unwraps to its key in every later state, at exactly the instants before the last whole second of its life |
| OauthProvenance.GrantedRefreshWorks | internal/oauth/token_handler.go:87-107 | a granted refresh token yields tokens in every later state, at exactly the instants before the last whole second of its life |
| OauthProvenance.CodeChecksOutIff | internal/oauth/token_handler.go:47-73 | a code passes the checks, in whatever spelling, exactly with its own client, redirect and verifier, before the last whole second of its minute |
| Replay.ReplayCache.Claim | internal/oauth/replay.go:32-45 | the sweep, then first claim or not, as one change of the map |
| Replay.ReplayCache.SweepLocked | internal/oauth/replay.go:47-53 | the in-place loop leaves exactly the claims whose time is not up |
| Replay.CacheContents | internal/oauth/replay.go:32-53 | whatever the readings, the cache holds exactly the accepted claims that no later reading outlived |
| Replay.AcceptedIff | internal/oauth/replay.go:32-45 | a claim is accepted exactly when no accepted claim to the id is remembered |
| Replay.SweepingIsInvisibleIff | internal/oauth/replay.go:32-53 | for any readings, Claim answers as a log that never forgets would if and only if no claim that blocks it was outlived by a reading in between |
| Replay.SweepingIsInvisible | internal/oauth/replay.go:32-53 | so it always does with readings in lock order |
| Replay.SweepingShowsOutOfOrder | internal/oauth/replay.go:33-35 | with a reading out of lock order it does not |
| SingleRedemption.SecondRedemptionIsSlow | internal/oauth/token_handler.go:53-82 | a second redemption of one text took longer than the code's age at the first plus the truncated part of a second |
| SingleRedemption.AtMostOneRedemption | internal/oauth/replay.go:32-53 | a code with one spelling is not redeemed again by a request without delay, or not slower than its age at its first claim |
| SingleRedemption.DoubleRedemptionIff | internal/oauth/token_handler.go:53-82 | double redemption is possible if and only if a request may be slower than that bound, or the code has a second spelling and can be claimed at that age at all |
| OauthSingleUse.ClaimStays | internal/oauth/replay.go:32-53 | over whole runs of the server, a claim lasts until a redemption reads a clock that has reached its end |
| OauthSingleUse.TextGrantsOnce | internal/oauth/token_handler.go:35-85 | in every run on one clock, a text of a code is granted at most once, unless a request is slower than the code's age at its first claim |
| OauthSingleUse.AuthorizationGrantsOnce | internal/oauth/token_handler.go:35-85 | so is an authorization whose code has one spelling |
| OauthSingleUse.GrantsOnceIff | internal/oauth/code.go:61-66 | when requests take no time, every authorization yields tokens at most once if and only if no sealed value has a second spelling |
| OauthSingleUse.LineBreakIsGrantedToo | internal/oauth/seal.go:48-52 | with the codec in use every code has one: a client that presents its code, and its code followed by a line break, at one instant is granted twice |
| Base64.EncodedIsDecoded | internal/oauth/seal.go:41-52 | the decoder reads back what the encoder wrote, for all bytes |
| Base64.LineBreaksAreSkipped | internal/oauth/seal.go:49 | and does not see line breaks, wherever they stand |
| Base64.SpareBitsAreIgnored | internal/oauth/seal.go:49 | nor the bits of the last digit that no byte uses |
| SessionTheorems.ReleasedSessionIsReplaced | internal/server/session.go:143-207 | in every run, releasing a provider's id closes its session and no other, and the provider's next call opens and tracks a new one, or fails and changes nothing |
| Sessions.SessionManager.CloseAll | internal/server/session.go:211-220 | exactly the tracked sessions are closed, each entry of the map visited once, and none stays tracked |
| Sessions.SessionProvider.Call | internal/server/session.go:184-207 | first use opens, a failed first open is final, a dead session is replaced and closed |
| SessionTheorems.CallAnswersOwnSession | internal/server/session.go:184-207 | in every run, the session a call answers with is alive, was opened with the provider's own key, is tracked under its id and is the only open session of that key; it is the one the provider had, if that was alive, else a new one |
| SessionTheorems.CallFailsIff | internal/server/session.go:184-207 | a call fails exactly if the provider's first call could not open a session, or it has none alive and cannot open one |
| SessionTheorems.AllAreReleased | internal/server/session.go:211-220 | in every run, CloseAll leaves no session open of all that were ever opened, and none tracked |
| Sessions.McpHandler.HandlerFor | internal/server/mcp.go:260-282 | one provider for each credential id, the same one every time |
| SessionTheorems.NoSessionIsLeaked | internal/server/session.go:143-220 | in every run, a session that is not closed is tracked under the id of its one provider, and no two providers share an id |
| SessionTheorems.OpensOnlyWhenNeeded | internal/server/session.go:184-207 | a session is opened only by a provider's first call or when its session is dead |
| SessionTheorems.FirstFailureIsFinal | internal/server/session.go:185-193 | after a failed first open every later call fails and changes nothing |
| SessionTheorems.OwnKeyIff | internal/server/mcp.go:260-287 | every caller is served by a provider of its own key if and only if credentialID has no collisions |
| SessionTheorems.SharedIdLeaks | internal/server/session.go:142-147 | two providers with one id would leak a session |
| SchemaRewriteInPlace.RewriteBooleanItems | internal/server/discovery_tool.go:120-138 | the recursive walk, overwriting map entries in place, turns the document in the heap into its rewrite and touches nothing else |
| SchemaRewriteInPlace.ReplaceItems | internal/server/discovery_tool.go:123-129 | exactly the boolean entry under "items" becomes the object that means the same |
| SchemaRewriteInPlace.RewriteEntries | internal/server/discovery_tool.go:130-132 | in whatever order the map yields them, every entry is rewritten once, the object just written entered as well |
| SchemaRewriteInPlace.RewriteElements | internal/server/discovery_tool.go:133-136 | every element of a list is rewritten |
| SchemaRewrite.NoneIsLeft | internal/server/discovery_tool.go:114-119 | no boolean stands under any "items" afterwards |
| SchemaRewrite.FixedIff | internal/server/discovery_tool.go:120-138 | a document is left alone exactly when it has no such boolean |
| SchemaRewrite.Idempotent | internal/server/discovery_tool.go:120-138 | rewriting twice is rewriting once |
| SchemaRewrite.ScalarsStay | internal/server/discovery_tool.go:117-119 | every other boolean, number, string and null stays where it is, and none appears anywhere else |
| SchemaMeaning.ObjectMeansBoolean | internal/server/discovery_tool.go:114-117 | `{}` accepts everything and `{"not": {}}` nothing, like the booleans they replace |
| SchemaMeaning.AcceptanceIsPreserved | internal/server/discovery_tool.go:91-99 | for every schema whose data positions are clean, every instance and every depth of references, acceptance is unchanged |
| SchemaMeaning.DocumentIsPreserved | internal/server/discovery_tool.go:91-138 | so is that of a whole document, its references resolved in it before and after, unless one points into a boolean "items" |
| SchemaMeaning.WrittenObjectIsReferred | internal/server/discovery_tool.go:123-129 | a reference into a boolean "items" leads nowhere before the rewrite and to the empty schema after it |
| SchemaRewrite.PlacesAreRewritten | internal/server/discovery_tool.go:120-138 | what stood at any place of a document stands there rewritten |
| SchemaMeaning.ConstIsPreservedIff | internal/server/discovery_tool.go:120-138 | a const is preserved if and only if its value holds no boolean under "items" |
| TextFile.ReadBounded | internal/truenas/download.go:66-76 | reading one byte more and cutting gives the first bytes up to the limit, and whether there were more |
| TextFile.IsText | internal/server/read_file.go:46-64 | true exactly for NUL-free bytes that are valid, or valid without one to three last bytes when truncated |
| TextFile.TextSurvivesTheCut | internal/server/read_file.go:43-64 | every NUL-free UTF-8 file, of any length and at any limit, is accepted with exactly its first bytes |
| TextFile.UncutIsExact | internal/server/read_file.go:46-64 | a file that is not cut is accepted if and only if it is text |
| TextFile.AcceptedIsTextAndThreeBytes | internal/server/read_file.go:43-64 | what is accepted is text and at most three bytes more, none of them NUL |
| TextFile.CutOfTextIff | internal/server/read_file.go:43-45 | data begins a text file exactly when it is text followed by part of a character; the test asks less |
| TextFile.GarbageTailIsAccepted | internal/server/read_file.go:58-62 | an accepted cut file that no text file begins with |
| Utf8.ValidIff | internal/server/read_file.go:52 | the syntax of RFC 3629 section 4 accepts exactly the encodings of section 3 |
| Utf8.EncodedIsValid | internal/server/read_file.go:52 | every encoding is valid and decodes to the characters it came from |
| Utf8.CutLeavesPrefix | internal/server/read_file.go:43-45 | a valid string cut anywhere is a valid string and fewer than four bytes of one character |
| LogCollector.CollectLogEntries | internal/server/log_collector.go:52-115 | for every sequence of ready events, the entries are the stream up to the first point that reaches a limit or does not fit, and the bound is the true cause |
| LogCollector.SnapshotIsUnique | internal/server/log_collector.go:52-115 | that promise leaves exactly one possible result |
| LogCollector.QuietAndEmptyIsClosed | internal/server/log_collector.go:62-67 | a quiet end without entries means that the stream closed |
| LogCollector.WithheldIff | internal/server/log_collector.go:95-99 | an entry is withheld exactly when the next one arrived and did not fit |
| Tasks.TaskRegistry.Add | internal/server/tasks.go:96-109 | prunes, then the stamped task is under its id |
| Tasks.TaskRegistry.Get | internal/server/tasks.go:111-117 | prunes, then answers from the map |
| Tasks.TaskRegistry.Prune | internal/server/tasks.go:120-127 | the in-place loop leaves exactly the tasks within their time to live |
| Tasks.KeptIff | internal/server/tasks.go:96-127 | whatever the clock does, a task is kept exactly when it was added last under its id and no reading since outlived it |
| Tasks.FoundIff | internal/server/tasks.go:96-127 | on a clock that does not run backwards, get finds a task exactly when it was added and is not older than the TTL |
| Tasks.BackwardClockLosesTask | internal/server/tasks.go:120-127 | on a clock that does run backwards a young task can be gone |
| Dispatch.AcceptedArgs | internal/tools/dispatch.go:131-148 | every declared argument once, in the order of declaration |
| Dispatch.FirstOccurrencesAreDistinct | internal/tools/dispatch.go:131-148 | that list has no duplicates and loses nothing |
| Dispatch.FirstOccurrencesKeepOrder | internal/tools/dispatch.go:131-148 | and keeps the order in which arguments are first declared |
| Dispatch.Resolve | internal/tools/dispatch.go:155-208 | the first operation of that name, refused for exactly the unexpected arguments, else for exactly the missing ones |
| Dispatch.AnswerIsUnique | internal/tools/dispatch.go:155-208 | those promises leave one possible answer to a call |
| DispatchParams.DispatchInput.Args | internal/server/concern_tool.go:81-105 | exactly the arguments that are not empty, limit and full never among them |
| DispatchParams.SuppliedMeans | internal/server/concern_tool.go:81-105 | each under its own name, with its own value |
| DispatchParams.MiddlewareParams | internal/server/concern_tool.go:264-313 | an identifier alone, else the options, else the list of filters, else nothing |
| DispatchParams.Narrowing | internal/server/concern_tool.go:301-308 | one filter triple for each declared filter whose argument was supplied, in order |
| DispatchParams.FiltersSelect | internal/server/concern_tool.go:301-308 | a target that reads a filter as field, operator, operand selects a row exactly if, for every declared filter whose argument was supplied, the field of the row stands in the relation of the operator to that argument |
| DispatchParams.FiltersKeepOrder | internal/server/concern_tool.go:301-308 | each in its place in the order of declaration, and none besides |
| DispatchParams.FirstIdentifierIsSent | internal/server/concern_tool.go:267-279 | the first of id, name and path that the operation takes and the call supplies is all that is sent |
| DispatchParams.EffectiveLimit | internal/server/concern_tool.go:320-325 | the caller's limit when it is positive, and always positive |
| DispatchParams.LosslessIff | internal/server/concern_tool.go:264-313 | parameters carry every accepted argument exactly once and nothing else, for all inputs, if and only if the operation is declared losslessly |
| DispatchParams.SimpleIsLossless | internal/tools/dispatch.go:35-54 | one identifier and nothing else, or only filters with distinct arguments, is such a declaration |
| DispatchParams.IdentifierCarriesAllIff | internal/server/concern_tool.go:267-279 | for every operation, a call that sends an identifier carries all its arguments if and only if the identifier is the only one supplied |
| DispatchParams.ArgumentsCanBeReadBack | internal/server/concern_tool.go:264-313 | equal parameters come from equal arguments, when filters narrow distinct targets |
| DispatchParams.OptionsAreSent | internal/server/concern_tool.go:281-290 | options arrive as declared except for the caller's own limit inside query-options |
| SharedOptions.WithCallerLimit | internal/server/concern_tool.go:331-346 | a new object with the limit merged in; nothing that existed before is changed |
| SharedOptions.ServeAll | internal/server/concern_tool.go:281-290 | over any sequence of calls each gets the options as declared with its own limit |
| Shape.SmallerIff | internal/server/concern_tool.go:428-440 | comparing map sizes decides exactly whether a field was lost |
| Shape.ProjectFields | internal/server/concern_tool.go:428-440 | the item restricted to the fields, and whether that lost one |
| Shape.ProjectItems | internal/server/concern_tool.go:407-413 | each item in turn, and whether any lost a field |
| Shape.ShapeResult | internal/server/concern_tool.go:373-422 | count is the smaller of total and limit, truncated exactly when items were dropped, projected exactly when a returned item lost a field |
| Shape.NothingWithheld | internal/server/concern_tool.go:354-358 | a list answered without flags is the whole list, unreduced |
| Scrub.CleanIff | internal/truenas/client.go:458-463 | no scrubbed message contains the secret, for all messages, if and only if the secret is safe against the replacement text |
| Scrub.UnsafeShows | internal/truenas/client.go:458-463 | for every unsafe secret, a message that shows it |
| Scrub.SafeIsClean | internal/truenas/client.go:458-463 | none is formed across the boundaries of replacements either |
| Scrub.BracketFreeIsSafeIff | internal/truenas/client.go:458-463 | without brackets, safe means not a part of "redacted" |
| Scrub.PiecesAreKept | internal/truenas/client.go:458-463 | the message falls into pieces with the secret between them, leftmost match first, and the same pieces with the replacement between them are the scrubbed message |
| Scrub.PiecesAreUnique | internal/truenas/client.go:458-463 | those pieces are the only ones, so that fixes the result |
| Scrub.UnchangedIff | internal/truenas/client.go:458-463 | a message stays as it is exactly if it does not mention the secret, there is none, or it is the replacement text |

## Left out

- Channels and subscriptions of the client are cells of a store and pointers are indices into it, so that steps of many actors can be stated over one value; aliasing is then equality of indices.
- Request ids are unbounded: the wrap-around of a 64-bit counter is not modelled.
- The target is honest: it answers each request at most once and streams only what was subscribed. A caller that calls core.subscribe through Call directly, past Subscribe, is not modelled.
- The select of dispatchNotification has a branch for a subscription that is done; a registered one never is, which is part of the invariant.
- Dialing, login, TLS, HTTP, JSON coding and the MCP plumbing have no logic to prove. Error texts are reduced to which error it is.
- AES-GCM sealing and HMAC signing are ideal: open succeeds exactly on what was sealed for that purpose under the server's one key. SHA-256 of a code is injective.
- Client metadata is its list of redirect URIs. What url.ParseRequestURI makes of a URI is a parameter, and the URL built for the redirect is left out.
- Opening a session succeeds or not as an input. Provider calls, Release and CloseAll are atomic steps; a race inside sync.Once or between two sections of CloseAll is not modelled.
- Schema keywords other than applicators, and unevaluatedItems and unevaluatedProperties, are opaque assertions about the instance. References are followed to a bounded depth, which is any depth. That a reference text names a place in the document is a parameter: JSON pointers are not parsed.
- ReadBounded: does not model the overflow of max + 1 at the largest 64-bit limit, because the one caller passes a constant. Waiting for the download job is left out.
- The collector's timers are events that may fire once they are started; durations are not compared.
- Resolve answers with sets of names; sorting them and wording the message are left out.
- MiddlewareParams: takes the options as a value; that the shared object itself is never changed is proved on objects in SharedOptions. The clearing of the totals for operations with options is left out.
- IsText: utf8.Valid is modelled by the syntax of RFC 3629 rather than by its tables.
- Strings other than file contents are sequences of characters, not bytes.
- Denylists, describeTask, job polling, schema summaries, version parsing, probes, caveats and the write-tool tables would only add easy members.
