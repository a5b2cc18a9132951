# Verified model of headless-mcp

headless-mcp is a hub that puts many MCP servers ("backends") behind one endpoint. It talks to them
over HTTP or over the pipes of a child process, keeps their OAuth2 tokens fresh, recovers lost
sessions, merges their tools under namespaces and filters tool arguments. This project models the
parts of it that are hard to get right and proves what they are for.

`dafny verify dfyconfig.toml` checks everything.

## How concurrency is modelled

Three parts of the hub are protocols between tasks that interleave at await points: the token
manager, the session recovery of an HTTP backend, and request/response correlation over pipes. Each
is modelled twice.

- As a step system: every stretch of code between two await points is one step (`Tokens.Section`,
  `HttpSession.Section`, `Stdio.Next`), the state holds a program counter per caller, and a run is any
  sequence of enabled steps by any number of callers. Safety results quantify over all runs.
- As a class in the form of the source (`TokenManager`, `HttpBackend`, `StdioBackend`): methods that
  assign fields and loop. Their contracts say outright how a call that runs undisturbed ends, and lemmas
  beside them prove that the sections of the step system, run in order, end the same way, so both are
  made of the same pieces.

The registry, the SSE decoder and encoder, the nesting scanner, the argument policy, placeholder
expansion and the schema walk are sequential, and are classes or methods proved against a
specification about which the properties are then proved.

That a stretch between two await points is one step is an assumption: the runtime has several threads
(`crates/server/src/main.rs:64`), so tasks also interleave inside a stretch. It matters only where a
stretch touches several shared fields without holding a lock throughout, as when a finished handshake
advances the epoch and then flags the tools (`crates/backends/backend-http/src/lib.rs:290-294`).

What the outside world does is an input: provider replies, server answers, token lookups, timeouts,
lines from a child process, tool lists, the environment, the iteration order of maps and the clock
(one clock in whole seconds, advanced by its own step).

### Assumptions of the token results

- A write to the token store takes effect; the source swallows store errors
  (`crates/backends/backend-http/src/token_store.rs:65`).
- A reply of the provider reaches the manager, and a call that holds the refresh lock runs on. A
  restart happens while nobody holds the lock.
- The provider grants a refresh only for a token that is live, retires that token when it hands out
  another, and hands out new ones (section 6 of RFC 6749 lets it also hand out none or the same one).
- One manager per backend id, as `crates/server/src/main.rs:191-201` sets up. Results that speak of
  other processes allow any other writer of the store and user of tokens.

### Where a promise fails, and when it holds

- Each refresh token goes with the client it was issued to: false if a client is registered while
  another client's refresh token is cached and the grant brings no refresh token, be it refused or
  granted without one. A later refresh then presents the old token under the new id. It goes right if
  and only if the ids are equal or the grant brings a refresh token
  (`TokenClients.RefreshAfterRegistrationIff`), and a start on an expired stored token leads there
  (`TokenClients.RegistrationIsReached`).
- Calls in daemon mode that find no token share the grant of another call if and only if the cache
  starts empty, the client id is configured and the grant needs no user
  (`GrantFlight.DaemonsAreServedIff`). In particular, such a call fails if it comes between the
  registration of a client and the answer to its grant, although that grant is then given.
- Refresh requests present live tokens as long as other processes leave the manager's tokens live and
  store none that is not. While nobody refreshes, this condition on another process is exact
  (`TokenSafety.HarmlessIff`).
- Event names find their way back if and only if no backend shadows another: there is only one, or all
  have namespaces that do not start one another (`Namespaces.EventsReturnIff`). For one event and one
  order, exactly the backends before its own matter (`Namespaces.EventTargetIff`).
- Connecting backends to an empty index gives the same registry in every order if and only if no two
  of them claim the same exposed name (`Namespaces.OrderMattersIff`).
- An SSE event survives the wire exactly under the condition of `SseRoundTrip.LosslessIff`; a JSON-RPC
  message exactly when it is not an error with null data (`JsonRpc.RoundTripIff`).
- Placeholder expansion is simultaneous substitution exactly up to sixteen placeholders
  (`Placeholders.LoopIsSubstitutionIff`).
- A forwarded call meets the original `required` list exactly when it meets the advertised one and no
  required argument is denied without being pinned (`ArgPolicy.RequirementsAgree`).

The comment at `crates/backends/backend-http/src/lib.rs:310` says that the handshake sends no session
id. The code reads the recorded id again when it sends, so an answer to another request can have
recorded one in between; the model follows the code. The SSE decoder differs from the WHATWG format
in that it forgets `id` after each event and ends lines only at LF; the model follows the code there
too.

## Model

| member | source | states |
|---|---|---|
| TokenSafety.RefreshesPresentLiveTokens | crates/backends/backend-http/src/oauth2.rs:300-418 | In every run of any number of `get_token`, `adopt_persisted`, grant and restart steps, with other processes that use up none of the manager's tokens and store only live ones, every refresh request presents a token that is live when it arrives |
| TokenSafety.CacheAgreesWithStore | crates/backends/backend-http/src/oauth2.rs:811-849 | Whenever the refresh lock is free and nobody else writes, the cache has no token or exactly the stored access and refresh token, that refresh token is live, and the store does not expire it before the cache does |
| TokenSafety.RestartContinues | crates/backends/backend-http/src/oauth2.rs:152-172 | After any run, restarting and adopting the store gives back the access and refresh token that were cached, still live, and usable if it was |
| TokenSafety.AdoptInstalls | crates/backends/backend-http/src/oauth2.rs:158-172 | On an empty cache an undisturbed adoption installs any stored token that can be used or refreshed, and returns it if it can be used |
| TokenSafety.HarmlessIff | crates/backends/backend-http/src/oauth2.rs:76-77 | While nobody refreshes, all ways in which the manager can run on after a step of another process present only live tokens if and only if the step left the cached refresh token live and stored none that is not |
| TokenSafety.SectionKeepsSafe | crates/backends/backend-http/src/oauth2.rs:300-418 | Each uninterrupted stretch under the refresh lock keeps the invariant behind the previous results |
| TokenClients.RefreshesKeepTheirClient | crates/backends/backend-http/src/oauth2.rs:746-760 | With other processes, every refresh request carries the client id its token was issued to, and the configured id if there is one, unless a client is registered over another client's cached refresh token and gets none of its own |
| TokenClients.RegistrationKeepsPairingIff | crates/backends/backend-http/src/oauth2.rs:175-187 | After registration and any answer to the grant, the cached token is its client's if and only if no refresh token was cached, or the id is the same, or the grant brought a refresh token |
| TokenClients.RefreshAfterRegistrationIff | crates/backends/backend-http/src/oauth2.rs:512-631 | In every state where a client is about to be registered over a cached refresh token, and for any answer to its grant, the next refresh request is sent as the new client, and that is the token's client if and only if the old client is the same or the grant brought a refresh token |
| TokenClients.RegistrationIsReached | crates/backends/backend-http/src/oauth2.rs:300-402 | Every start on an expired stored token without a configured client id has a run that is about to register over that token |
| TokenAttempts.AtMostTwoRefreshesPerCall | crates/backends/backend-http/src/oauth2.rs:326-349 | With other processes, one call sends at most two refresh requests, the second only after a 400 or 401 and with another token that the store held during the run; a finished call whose last request was granted returns that access token |
| TokenAttempts.StoredTokenRescues | crates/backends/backend-http/src/oauth2.rs:406-418 | After a rejected refresh, a different stored token makes an undisturbed call succeed, in daemon mode too: without another request if it can be used, otherwise if it is live and its refresh is answered well; the token returned is cached and stored |
| SingleFlight.OneRefreshServesAll | crates/backends/backend-http/src/oauth2.rs:298-333 | Any number of calls on one expired token cause exactly one refresh request and all return its access token, if it succeeds and the token stays usable |
| GrantFlight.OneGrantServesAll | crates/backends/backend-http/src/oauth2.rs:360-402 | Any number of calls without a token and a refresh token send no refresh request and exactly one grant request, and all return its access token, if it is granted and stays usable |
| GrantFlight.DaemonsAreServedIff | crates/backends/backend-http/src/oauth2.rs:350-402 | That goes for calls in daemon mode if and only if the cache starts empty, the client id is configured and the grant needs no user |
| TokenReasons.CallsFailForReason | crates/backends/backend-http/src/oauth2.rs:326-402 | With other processes, a call asks for at most one grant and returns its token if it is given; an interactive call fails only if it could not ask, no client was registered, or its grant was not given |
| TokenManager.GetTokenRuns | crates/backends/backend-http/src/oauth2.rs:300-402 | The sections of an undisturbed call end with the token, cache and store that are said of the method |
| TokenManager.AdoptRuns | crates/backends/backend-http/src/oauth2.rs:158-172 | The same for adoption |
| TokenManager.ReturnedTokenIsCached | crates/backends/backend-http/src/oauth2.rs:793-853 | The token returned by an undisturbed call is the cached one, with more than 30 s left unless a provider has just granted it |
| TokenManager.OAuth2TokenManager.GetToken | crates/backends/backend-http/src/oauth2.rs:300-402 | How an undisturbed call ends, for every cache, store, configuration and reply: the token or the error, and what is cached and stored |
| TokenManager.OAuth2TokenManager.AdoptPersisted | crates/backends/backend-http/src/oauth2.rs:158-172 | A stored token that can be used or refreshed is taken into a cache without a token, and returned if it can be used; otherwise nothing changes |
| TokenManager.OAuth2TokenManager.DoRefresh | crates/backends/backend-http/src/oauth2.rs:741-791 | One refresh: a granted one is cached and stored, any other changes nothing and counts as rejected exactly for 400 and 401 |
| TokenManager.OAuth2TokenManager.RetryWithStored | crates/backends/backend-http/src/oauth2.rs:406-418 | A different stored token is taken over and used as it is, or refreshed once if it has expired |
| TokenManager.OAuth2TokenManager.Acquire | crates/backends/backend-http/src/oauth2.rs:360-402 | A cached token that has become usable is returned; otherwise one grant, with registration when no client id is configured, unless none can be asked for |
| TokenManager.OAuth2TokenManager.RunGrant | crates/backends/backend-http/src/oauth2.rs:540-575 | A given grant is cached and stored, any other changes nothing |
| TokenManager.OAuth2TokenManager.InstallPersisted | crates/backends/backend-http/src/oauth2.rs:132-150 | The cache becomes the stored token with its remaining life and the configured, stored or cached client id, in that order |
| TokenManager.OAuth2TokenManager.SetDynamicClientId | crates/backends/backend-http/src/oauth2.rs:175-187 | Only the cached client id changes; an empty cache gets an entry without a token |
| TokenManager.OAuth2TokenManager.CacheTokenResponse | crates/backends/backend-http/src/oauth2.rs:793-853 | The cache becomes the response's token, keeping the old refresh token and client id where it has none, and the store the same token |
| SessionProtocol.HandshakesAreShared | crates/backends/backend-http/src/lib.rs:284-308 | In every interleaving at most one handshake is started per epoch, the epoch counts finished handshakes, a call sends again only after the handshake of the epoch it read, and the registry is told to list tools exactly while a success is news |
| SessionProtocol.FailedHandshakesKeepSession | crates/backends/backend-http/src/lib.rs:289-306 | In every run without a successful handshake, a session id that was present is present whenever no handshake is running |
| SessionProtocol.PostsAreBounded | crates/backends/backend-http/src/lib.rs:255-430 | For every server, interleaving and moment a request has POSTed its body at most 3 times and made at most 6 POSTs; no second one if its first answer is neither a lost session nor a 401 acted on; at most 2 if it is not recoverable |
| SessionProtocol.CallsFollowProtocol | crates/backends/backend-http/src/lib.rs:255-430 | For every server and interleaving a finished request was sent again exactly if its first answer told of a lost session, it is recoverable and no handshake of its own failed; the 401 retry was made exactly where a token was found; it returned what the last answer to its own body says |
| SessionProtocol.SessionIsNewest | crates/backends/backend-http/src/lib.rs:289-306 | In every interleaving a recorded session id is the newest one that was recorded: a failed handshake never puts an old one over it |
| SessionProtocol.SectionFollows | crates/backends/backend-http/src/lib.rs:336-430 | Each stretch of a request keeps to what its position and its answers allow |
| HttpBackend.CallRuns | crates/backends/backend-http/src/lib.rs:255-334 | The sections of an undisturbed request, with any answers, leave the shared state that is said of the method and make its rounds |
| HttpBackend.Backend.SendRequest | crates/backends/backend-http/src/lib.rs:255-281 | For every server, what an undisturbed call returns, POSTs and records: after a lost session a handshake without the old id and, if that is good, the request once more |
| HttpBackend.Backend.Reinitialize | crates/backends/backend-http/src/lib.rs:284-308 | Nothing happens if the epoch has moved; else one handshake without a session id, a new epoch, the tools flagged on success, and on failure the old id back unless a new one came |
| HttpBackend.Backend.Handshake | crates/backends/backend-http/src/lib.rs:311-334 | One round of `initialize` and, exactly after a well-formed result, one notification |
| HttpBackend.Backend.SendRequestInner | crates/backends/backend-http/src/lib.rs:336-430 | One round: the second POST exactly after a 401 with a token, whether the deciding answer is good, and that only a first answer can tell of a lost session |
| Lines.ChunksDoNotMatter | crates/mcp-wire/src/sse.rs:110-133 | Feeding chunks leaves the state, the unread rest and the output of feeding their concatenation |
| Lines.DrainInTwo | crates/mcp-wire/src/sse.rs:110-133 | Cutting any input at any point changes nothing |
| Sse.SseDecoder.Feed | crates/mcp-wire/src/sse.rs:110-133 | The loop over the buffer reads every complete line of what has arrived, once and in order |
| Sse.SseDecoder.Dispatch | crates/mcp-wire/src/sse.rs:74-93 | A blank line yields the pending event if it has data, and always clears it |
| Sse.EncodeSseEvent | crates/mcp-wire/src/sse.rs:22-45 | The text is the event, id and data lines of the event and a blank line |
| Sse.FirstLine | crates/mcp-wire/src/sse.rs:14-19 | The result is the longest start of the input without a line break of either kind, and the input itself exactly when the input has none |
| SseRoundTrip.DecodeUndoesEncode | crates/mcp-wire/src/sse.rs:22-134 | For every list of events and every way of cutting their encodings into chunks, the decoder returns the events in order, normalised, and is left as new |
| SseRoundTrip.LosslessIff | crates/mcp-wire/src/sse.rs:21-45 | Normalisation changes nothing if and only if the names are single lines and no data line ends in CR |
| SseStream.StreamIsDecoded | crates/mcp-wire/src/sse.rs:54-134 | Every stream of lines with names, values with or without a space, comments, LF or CRLF, cut anywhere, is decoded to the events it denotes; what is left is the unfinished event and line |
| SseStream.EveryTextIsAStream | crates/mcp-wire/src/sse.rs:110-133 | Every text is such a stream and the start of a line |
| SseStream.EncodeWrites | crates/mcp-wire/src/sse.rs:22-45 | The encoder writes the event name, the id, a data line for each line of the payload and a blank line, in this order |
| Nesting.ExceedsMaxNesting | crates/mcp-wire/src/jsonrpc.rs:193-224 | The loop computes the scan of the whole text |
| Nesting.ScannerMeasuresDepth | crates/mcp-wire/src/jsonrpc.rs:193-224 | For every JSON text, with any whitespace and any escaping, and every limit, the scanner reports it exactly when its containers are nested deeper than the limit |
| Nesting.ScanString | crates/mcp-wire/src/jsonrpc.rs:199-208 | Brackets, quotes and backslashes inside a string never count |
| Nesting.StrayClosersDoNotCount | crates/mcp-wire/src/jsonrpc.rs:193-224 | Closing brackets that close nothing leave the depth of the texts after them as it is |
| JsonRpc.RoundTripIff | crates/mcp-wire/src/jsonrpc.rs:94-191 | A well-formed message survives encoding and decoding if and only if it is not an error with null data |
| JsonRpc.DecodedRoundTrips | crates/mcp-wire/src/jsonrpc.rs:249-351 | Whatever was decoded is well formed and survives encoding and decoding again |
| JsonRpc.DecodesToIff | crates/mcp-wire/src/jsonrpc.rs:249-351 | A value is decoded as a given message if and only if the message is well formed without null data and the value is an object each of whose members that the decoder reads is the message's |
| JsonRpc.DecodesIff | crates/mcp-wire/src/jsonrpc.rs:249-351 | Exactly the objects that carry some such message are decoded |
| JsonRpc.ErrorRoundTrip | crates/mcp-wire/src/jsonrpc.rs:42-49 | An error object is read back as it was, null data as absent |
| JsonRpc.EncodeWrites | crates/mcp-wire/src/jsonrpc.rs:94-191 | A message is written as an object with exactly the members of its kind, an error as an object with code, message and data if there is any |
| JsonRpc.RefusedFor | crates/mcp-wire/src/jsonrpc.rs:249-351 | For each ground of refusal, which values are refused on it |
| StdioSafety.AnswersReachTheirCallers | crates/backends/backend-stdio/src/lib.rs:444-472 | In every run a caller that got a response got the first one with its own id since it registered, and no line answers two callers |
| StdioSafety.IdsLeaveOnce | crates/backends/backend-stdio/src/lib.rs:141-148 | Every id leaves the pending table at most once and is never in it again |
| StdioSafety.NobodyWaitsInVain | crates/backends/backend-stdio/src/lib.rs:129-168 | A waiting caller is in the table or has its reply, so its channel never closes without one |
| StdioSafety.ExitFailsAllPending | crates/backends/backend-stdio/src/lib.rs:233-245 | When a reader exits, the table becomes empty, everything pending is failed and every waiting caller has a reply |
| StdioSafety.OutcomesAreFinal | crates/backends/backend-stdio/src/lib.rs:141-168 | What a caller returned is not changed by any later response, timeout or exit |
| StdioTrace.TableIff | crates/backends/backend-stdio/src/lib.rs:129-168 | An id is in the table exactly from its registration to the first of its answer, the end of a reader and its timeout with the table free; a failed write leaves it there |
| StdioTrace.OutcomesAreDecided | crates/backends/backend-stdio/src/lib.rs:141-168 | A reply is the line, or the disconnection, that first concerned the id since it was registered; a timeout or failed write is the caller's own and final |
| StdioTrace.SettledMeansReplied | crates/backends/backend-stdio/src/lib.rs:444-472 | A caller that still listens has that reply as soon as it has come |
| StdioTrace.ConnectedAsLastSaid | crates/backends/backend-stdio/src/lib.rs:233-245 | The backend counts as connected until its reader exits |
| StdioBackend.Backend.Begin | crates/backends/backend-stdio/src/lib.rs:129-139 | An id is taken, registered before the request is written, and left registered if writing fails |
| StdioBackend.Backend.Await | crates/backends/backend-stdio/src/lib.rs:141-168 | The reply if there is one, else a timeout that removes the entry unless the table is locked |
| StdioBackend.Backend.ReadResponses | crates/backends/backend-stdio/src/lib.rs:412-474 | The reader loop takes lines in order and completes pending requests by id |
| StdioBackend.Backend.ReaderDone | crates/backends/backend-stdio/src/lib.rs:233-245 | The drain loop fails every pending request once, in any order |
| RegistryIndex.IndexAgreesWithDefinitions | crates/registry/src/lib.rs:57-207 | After any operations each index key is its exposed, descriptor and namespaced downstream name, for a registered backend whose filter passes it, with a schema that shows no hidden argument |
| RegistryIndex.ConnectLeavesOthersAlone | crates/registry/src/lib.rs:161-194 | Connecting a backend, collision or not, changes no entry or handle of another |
| RegistryIndex.AddSucceedsIff | crates/registry/src/lib.rs:167-194 | Indexing fails if and only if an exposed name is taken or listed twice; otherwise every tool is routed |
| RegistryIndex.ConnectSucceedsIff | crates/registry/src/lib.rs:125-194 | Connecting succeeds if and only if the tools that the allow and deny lists let through have different names, none of which another backend has taken |
| RegistryIndex.ConnectIndexesTools | crates/registry/src/lib.rs:151-203 | After that exactly these tools are indexed for the backend, each under its exposed name with its name, description and schema but for the hidden arguments, and it is healthy |
| RegistryIndex.AddStops | crates/registry/src/lib.rs:164-194 | After a collision exactly the tools before it are indexed |
| RegistryIndex.FailedConnectKeepsHealth | crates/registry/src/lib.rs:125-207 | A failed connection changes neither health nor attempts |
| RegistryIndex.CallsFailIff | crates/registry/src/lib.rs:361-390 | After any operations a call fails before it is sent if and only if its name is not indexed or the policy rejects it |
| RegistryIndex.CallsReachTheirBackend | crates/registry/src/lib.rs:361-390 | After any operations a call of an indexed tool with advertised arguments, or none, is dispatched to a registered backend under the name its exposed name stands for, with pinned arguments set |
| RegistryClass.BackendRegistry.RegisterBackend | crates/registry/src/lib.rs:57-83 | A new id is added, unhealthy; a known one is refused; the index still agrees with the definitions |
| RegistryClass.BackendRegistry.UnregisterBackend | crates/registry/src/lib.rs:86-104 | The backend and exactly its entries go, also if disconnecting it then fails, which the result reports |
| RegistryClass.BackendRegistry.ConnectBackend | crates/registry/src/lib.rs:125-207 | The backend's entries are replaced up to the first collision; if there is none, every tool that is let through is routed and the backend healthy |
| RegistryClass.BackendRegistry.ConnectAll | crates/registry/src/lib.rs:107-122 | Exactly the eager backends are connected, in the order of the map, with a result for each |
| RegistryClass.BackendRegistry.RefreshTools | crates/registry/src/lib.rs:433-451 | The index is cleared and the healthy backends are connected again; only their tools are indexed afterwards |
| RegistryClass.BackendRegistry.RunHealthChecks | crates/registry/src/lib.rs:228-318 | A healthy backend stays so exactly if it answers; any other either connects or counts one more attempt; per-call backends are left alone |
| RegistryClass.ConnectEachIsOps | crates/registry/src/lib.rs:107-122 | Connecting backends one after the other is a run of registry operations, so what holds after any operations holds after it |
| Namespaces.CollisionPossibleIff | crates/registry/src/lib.rs:606-611 | Two namespaces can give the same exposed name if and only if one, with its dot, starts the other |
| Namespaces.OrderMattersIff | crates/registry/src/lib.rs:107-122 | From an empty index, connecting backends gives the same registry in every order if and only if no two of them claim the same exposed name |
| Namespaces.OrderDoesNotMatter | crates/registry/src/lib.rs:161-194 | From any sound index, backends that claim no name twice and none of another's give the same registry in every order |
| Namespaces.ApartInAnyOrder | crates/registry/src/lib.rs:606-611 | So do backends whose namespaces do not start one another, whatever tools they list |
| Namespaces.OwnerOfUnindexed | crates/registry/src/lib.rs:469-483 | If no namespace starts another, a name that is not indexed belongs in every order to the one backend whose namespace starts it, and to none if there is none |
| Namespaces.OwnerIsNamespace | crates/registry/src/lib.rs:469-483 | If every backend has a namespace, that goes for indexed names too |
| Namespaces.EventTargetIff | crates/mcp-server/src/session.rs:405-421 | An exposed event name is routed to its own backend under its original name if and only if every backend before it has a namespace and none of these starts the name |
| Namespaces.EventsReturnIff | crates/mcp-server/src/session.rs:388-424 | Every event of every backend is routed back if and only if no backend shadows another, whatever the order |
| Namespaces.EventsRouteBack | crates/mcp-server/src/session.rs:388-424 | A backend's events are routed back under their original names if nothing before it shadows it |
| Namespaces.EventsList | crates/mcp-server/src/session.rs:366-385 | The list holds exactly the exposed names of the events that the backends returned |
| Namespaces.BareBackendTakesAll | crates/mcp-server/src/session.rs:413-424 | A first backend without a namespace is sent every event request |
| ArgPolicy.StripHides | crates/registry/src/lib.rs:564-576 | The advertised schema offers and requires exactly the original names that are not hidden |
| ArgPolicy.ApplyArgPolicy | crates/registry/src/lib.rs:579-603 | The loops over denied and pinned arguments reject or forward any arguments, or none, as the policy says |
| ArgPolicy.StripKeepsRest | crates/registry/src/lib.rs:564-576 | Stripping changes nothing else in a schema, and no property that stays |
| ArgPolicy.KeepVisibleConcat | crates/registry/src/lib.rs:571-574 | The required list keeps its order |
| ArgPolicy.OfferedArgumentsPass | crates/registry/src/lib.rs:559-603 | Arguments taken from the advertised properties are never rejected |
| ArgPolicy.ForwardedArguments | crates/registry/src/lib.rs:579-603 | Without a policy, arguments go through unchanged. With one, absent and null count as empty; a call is rejected exactly if its arguments are no object or hold a denied one; what is forwarded holds every pinned value and otherwise exactly the caller's |
| ArgPolicy.RequirementsAgree | crates/registry/src/lib.rs:559-603 | A forwarded call meets the original requirements if and only if it meets the advertised ones and no required argument is denied without being pinned |
| Placeholders.ResolveValue | crates/server/src/config.rs:157-198 | The loop makes at most sixteen passes, each replacing the first environment or else the first secret placeholder, and stops when there is none or one is not closed |
| Placeholders.LoopIsSubstitutionIff | crates/server/src/config.rs:146-198 | On templates with brace-free literals, names and values the result is simultaneous substitution, unset names marked, if and only if there are at most sixteen placeholders |
| Placeholders.ReplaceInTemplate | crates/server/src/config.rs:164-190 | Searching the rendered text finds and replaces exactly the first placeholder of a kind |
| Placeholders.OnePlaceholder | crates/server/src/config.rs:157-198 | A placeholder between other text becomes the variable of its name, for a secret the prefixed variable of its name in capitals, or the marker if that is not set |
| Placeholders.UnclosedEndsLoop | crates/server/src/config.rs:164-178 | An environment placeholder that is not closed ends the expansion, even before secrets that are |
| Placeholders.BreakIsFirst | crates/server/src/config.rs:164-178 | The search finds the first occurrence |
| ParamHeaders.ParamHeaderPaths | crates/backends/backend-http/src/lib.rs:667-686 | The walk finds exactly the annotated primitive properties reachable through `properties` keys, each with its path |
| ParamHeaders.MirrorArguments | crates/backends/backend-http/src/lib.rs:458-471 | The loop puts one header per valid annotation whose argument is there, later ones replacing earlier ones |
| ParamHeaders.UnclashedHeader | crates/backends/backend-http/src/lib.rs:461-470 | A header whose name no other annotation has is there exactly when its argument is, with that argument's value |
| ParamHeaders.CallHeaders | crates/backends/backend-http/src/lib.rs:458-709 | From schema to headers: an annotated argument with a valid header name of its own has a header exactly when it is there, and its text can be read back; no header is without an annotated argument |
| ParamHeaders.MirroredHeaderDecodes | crates/backends/backend-http/src/lib.rs:689-709 | A mirrored header is a safe value, decodes to the argument's text, and among values of its kind belongs to that argument alone |
| ParamHeaders.TextOfValues | crates/backends/backend-http/src/lib.rs:689-697 | Strings are mirrored as they are, booleans by name, integers in decimal, nothing else |
| ParamHeaders.HeaderNamesClashIff | crates/backends/backend-http/src/lib.rs:466-468 | Two valid header names clash if and only if they differ at most in the case of letters |
| ParamHeaders.HeaderNameIs | crates/backends/backend-http/src/lib.rs:466-468 | A header name is the prefix and the suffix, valid exactly if all its characters are |
| HeaderValue.HeaderRoundTrip | crates/backends/backend-http/src/lib.rs:699-709 | Every value is encoded as printable ASCII without edge spaces and decoded back |
| HeaderValue.PlainIff | crates/backends/backend-http/src/lib.rs:699-709 | A value is sent as it is if and only if it is printable ASCII without edge spaces and no sentinel, and otherwise in the sentinel |
| HeaderValue.GroupIsNumber | crates/backends/backend-http/src/lib.rs:707 | The letters of base64 are the digits of the bytes, most significant first |
| HeaderValue.LettersAreTheAlphabet | crates/backends/backend-http/src/lib.rs:707 | They are those of the standard alphabet |
| HeaderValue.EncodeHeaderInjective | crates/backends/backend-http/src/lib.rs:699-709 | Different texts have different header values |
| HeaderValue.Base64RoundTrip | crates/backends/backend-http/src/lib.rs:707 | Decoding base64 undoes encoding |

## Left out

- HTTP, sockets, processes, the browser flow, stderr capture and logging: input and output only.
- The secrets crate (encryption, files): the token store is one atomic cell.
- OAuth2 discovery, registration requests and PKCE: only that metadata was found, whether it names a registration endpoint, and the client id obtained.
- The text of error messages, and JSON parsing and printing inside serde_json.
- `session_not_initialized` (crates/backends/backend-http/src/lib.rs:650-664): its verdict on a body is an input.
- Liveness and fairness: results are safety properties and counting bounds.
- Cancellation of a call while it holds a lock, and lost provider replies, except as `HarmlessIff` covers a token that was used up.
- Counter wrap-around: epochs and request ids are unbounded; the source wraps after 2^64.
- `unregister` interleaved with a running `connect_backend`: registry operations run to completion.
- The reconnect delay (crates/registry/src/lib.rs:264-268), the sorted tool list of healthy backends, and the connect/disconnect around a per-call tool: settled by reading a few lines.
- Protocol marking, the initialize gate, authentication middleware, rate limiting, the command line and audit logging: single-branch code.
- HttpBackend.Backend.SendRequest: stated for a call that is not disturbed by others, because `SessionProtocol.CallsFollowProtocol` covers the interleavings.
- HttpBackend.Backend.Handshake: the body of the notification's answer is ignored, as in the source.
