# Tenodera: a verified model of its protocols and editors

Tenodera is a web panel for Linux hosts. A gateway serves the browsers; an agent on every host keeps
one WebSocket open to the gateway and answers for all browser sessions at once. This project models
the parts of it that have to stay correct under sharing, concurrency and re-parsing, and proves what
they promise.

| Modules | What they model |
|---|---|
| `Protocol`, `Router`, `Multiplex`, `Delivery` | channel ids and messages; the agent's router with its three maps; many sessions over one connection, with prefixing and stripping of ids; a ledger that accounts for every message |
| `Octets`, `Challenge`, `Pin` | the signed challenge, and the agent's pin of its gateway |
| `Tokens`, `Pending`, `Hosts`, `Enrolment` | bootstrap tokens, the queue of agents waiting for approval, `hosts.json`, and the step system in which all handshakes and administrators share them |
| `Authorisation`, `CurrentKeys`, `EnrolmentRuns` | who is authenticated, queued, approved and registered, in terms of what is listed, issued and presented; what becomes of a host's connections when its key is replaced; runs from an empty gateway that show where enrolment goes wrong |
| `RateLimit`, `Lockout` | the sliding window for logins and the fixed window for superuser checks |
| `Text`, `Ini`, `Pacman`, `Chrony`, `AuditLog` | line-oriented editors and printers with the parsers that have to agree with them |
| `Base64`, `ShellScript` | the shell script that carries content to a command, and how a shell reads it |

Objects whose methods change their fields are classes (`AgentRouter`, `LoginRateLimiter`,
`SuperuserLimiter`, `BootstrapRegistry`, `PendingRegistry`, `HostsFile`, `AgentRegistry`, `AgentConn`,
`AgentIdentity`, `AuditFile`); loops of the source are loops. Each method is tied to a function on
values, and the promises are proved about that function over whole runs. Files are strings; what a
handler, a disk, a clock or a random number generator contributes is a parameter.

## Where a promise needs a condition

For each of these the exact condition is proved, and where the condition fails a lemma exhibits a
concrete input, or a possible run from the initial state.

- Re-opening a channel id: a one-shot Open on a live stream leaves the stream as recipient but takes
  over, or removes, the identity that is injected (`Router.AgreeExactly`, `Router.ReopenSplitsIdentity`).
- Prefixes: stripping undoes prefixing exactly for prefixes of eight characters
  (`Multiplex.StripUndoesPrefix`).
- The challenge payload cuts lengths to sixteen bits: it is injective exactly if hostnames or gateway
  ids stay below 65536 bytes (`Challenge.InjectiveWithinExactly`).
- The pin is compared after trimming: it holds forever exactly if the pinned id is not blank and has
  no white space around it (`Pin.PinHoldsExactly`). Writing the pin truncates the file first, so a
  save that fails halfway leaves the front of an id, which is a pin from then on and is never compared
  with the configured id (`Pin.PinIsPresentedExactly`, `Pin.CutPinSkipsExpected`).
- The pending queue admits a key that already waits, from any address, without counting the address
  again (`Pending.PerAddressBoundRun`, `Pending.CrowdingRun`).
- Approving a key under a hostname other than the one it is meanwhile enrolled under gives two hosts
  one key (`Enrolment.ApproveKeysExactly`, `EnrolmentRuns.CollisionRun`).
- A connection that closes late unregisters its successor for the same host
  (`Enrolment.LateCleanupExactly`, `EnrolmentRuns.LateCleanupRun`), and one that gives up waiting
  removes its successor's queue entry for the same key (`Enrolment.AbandonTakesEntryExactly`,
  `EnrolmentRuns.AbandonRun`).
- A host whose key is replaced can stay, or become, served by a connection that proved the old key:
  approval disconnects nobody, and registration does not look at the key again
  (`CurrentKeys.AlwaysCurrentExactly`, `EnrolmentRuns.OutdatedByApprovalRun`,
  `EnrolmentRuns.OutdatedByRegistrationRun`).
- A login limiter configured with zero attempts is the one that lets a cleanup show
  (`RateLimit.CleanupNeverSeenExactly`, `RateLimit.ZeroAttemptsShowSweep`).
- Chrony options are validated word by word, so a line feed between two words passes and splits the
  directive (`Chrony.WriteThenReadExactly`, `Chrony.LineFeedAddsServer`). The rewrite is not
  idempotent: its marker comment accumulates (`Chrony.MarkerAccumulates`).
- Setting INI values twice changes nothing exactly if no kept line still ends in a carriage return
  once its line break is gone (`Ini.SetIsIdempotent`, `Ini.SecondWriteStrips`).
- Listing pacman repositories strips any number of brackets, removing one looks for single brackets
  (`Pacman.ListAfterRemoveExactly`, `Pacman.DoubleBracketsStay`).
- The audit parser takes the first occurrence of every field delimiter, in any order. A record is
  recovered exactly if no field holds a delimiter of a later one and the details do not end in white
  space (`AuditLog.ParseFormattedExactly`).
  Delimiters met out of order make the parser slice backwards and panic, exactly if some delimiter
  first occurs in a field before the one that should precede it (`AuditLog.ParseFormattedPanics`). A
  query fails exactly if one of the newest records it asks for does that (`AuditLog.AuditRoundTrip`):
  the record of a refused request to create a user named `x details=y` is one
  (`AuditLog.TargetStopsQueries`).

The lockout window lasts 901 seconds, one more than its constant says, because elapsed seconds are
rounded down before they are compared (`Lockout.ExpiredExactly`).

## Model

| member | source | states |
|---|---|---|
| Router.AgentRouter.Register | agent/src/router.rs:47-50 | a handler is filed under its payload type, replacing an earlier one, and no channel becomes tracked |
| Router.AgentRouter.Handle | agent/src/router.rs:109-223 | the in-place updates of the three maps, the replies and the spawned stream are those of `Router.Step`, which `Router.MapsEqualHistory` and `Router.RepliesEqualHistory` pin by the history |
| Router.MapsEqualHistory | agent/src/router.rs:109-223 | after any messages, each map holds a channel exactly if the last entry that settles it (Open of its kind, or Close) is an Open, not closed by its own reply where that counts, and with exactly that Open's payload or options |
| Router.CallsEqualHistory | agent/src/router.rs:133-205 | what a handler is shown of its channel is exactly the one-shot Opens and the Data that the history routes to it, in order, Data with the identity the history gives it |
| Router.RepliesEqualHistory | agent/src/router.rs:109-223 | after any messages, Data is answered by the handler of the stream or else of the open one-shot that the history names, with all calls on the channel; a one-shot Open by its own handler; a streaming Open by nothing but its stream; an unknown payload by one Close on its channel; Ping by Pong; anything else by nothing |
| Router.Unsettled | agent/src/router.rs:157-205 | no other message changes a map at a channel; in particular a Close among the replies to Data does not |
| Router.AgreeExactly | agent/src/router.rs:111-205 | the handler that gets Data and the options injected into it come from one Open, exactly unless a one-shot payload was opened over a live stream |
| Router.DataCarriesItsOpen | agent/src/router.rs:174-205 | with no tracked id re-opened, object Data reaches the handler of the very Open whose `_user` and `_role` it then carries, all other fields unchanged |
| Router.ReopenSplitsIdentity | agent/src/router.rs:111-173 | the counterexample: one-shot over stream, and what identity is left in each case |
| Multiplex.StripUndoesPrefix | panel/crates/gateway/src/agent_registry.rs:216-289 | for Data, Control and Close, strip returns message and prefix again if and only if the prefix has eight characters |
| Multiplex.PrefixedInSpace | panel/crates/gateway/src/agent_registry.rs:207-241 | the id spaces of different prefixes are disjoint, and the original id is what follows the prefix |
| Multiplex.WithoutDashesHasNone | panel/crates/gateway/src/agent_registry.rs:207-213 | the characters a session prefix is taken from contain no separator |
| Multiplex.PrefixLength | panel/crates/gateway/src/agent_registry.rs:207-213 | a prefix has eight characters if and only if the session id has eight that are no dashes, and never a dash |
| Multiplex.UuidPrefix | panel/crates/gateway/src/agent_registry.rs:207-213 | an id that starts with eight characters other than dashes, as a UUID does, has these as its prefix |
| Multiplex.PrefixedIsValid | protocol/src/channel.rs:12-44 | a prefixed id still deserialises exactly if the browser's id left nine bytes of room, which is the bound the gateway enforces |
| Multiplex.AgentConn.ConnectSession | panel/crates/gateway/src/agent_registry.rs:166-213 | a session subscribes under the first eight characters of its id that are no dashes, with an empty inbox, leaving the others' inboxes alone |
| Multiplex.AgentConn.Forward | panel/crates/gateway/src/agent_registry.rs:166-202 | a session's message joins the one queue to the agent under the session's prefix |
| Multiplex.AgentConn.DispatchFrame | panel/crates/gateway/src/agent_ws.rs:283-312 | a frame that carries a message `m` for a subscribed prefix (`prefix-id`, valid, of a routed kind) makes that inbox its old content followed by `m`, and changes no other; any other frame changes nothing |
| Multiplex.CarriedArrives | panel/crates/gateway/src/agent_registry.rs:245-289 | dispatch appends the carried message, under the id the session wrote, to that session's inbox alone |
| Multiplex.UncarriedIsDropped | panel/crates/gateway/src/agent_ws.rs:283-312 | a frame that carries nothing for a subscriber changes nothing |
| Multiplex.RouterStepOwned | agent/src/router.rs:109-223 | a message of one session is handled as if the router held nothing of the others |
| Multiplex.RouterStepForeign | agent/src/router.rs:109-223 | a message of another session changes nothing in a session's part of the three maps |
| Multiplex.StepProjects | panel/crates/gateway/src/agent_ws.rs:283-312 | each step of the shared system projects, for every prefix, to the same step of that session's own system or to no step |
| Multiplex.SessionIsolation | panel/crates/gateway/src/agent_registry.rs:207-289 | every run of many sessions projects onto each session as a run of that session alone, with the same actions, in which it receives the same messages in the same order |
| Multiplex.DeliveredOnOpenedChannels | panel/crates/gateway/src/agent_ws.rs:283-312 | whatever a session receives is on a channel id, as it wrote it, that it opened itself |
| Delivery.EverythingAccounted | panel/crates/gateway/src/agent_ws.rs:283-312 | in every run: the agent has handled a front of all that was ever sent, in order, and the router is where exactly these frames bring it; all its replies and all stream messages were logged in order; each inbox is exactly its session's part of what was dispatched since it connected, in order |
| Delivery.NothingIsLost | panel/crates/gateway/src/agent_ws.rs:283-312 | once all is dispatched, a session has every message meant for it since it connected |
| Delivery.StartsStream | agent/src/router.rs:115-127 | a stream starts exactly at a registered streaming Open, for its channel and with its options |
| Challenge.BuildChallengePayload | protocol/src/auth.rs:7-22 | the buffer built step by step is the payload both sides sign and check |
| Challenge.PayloadLayout | protocol/src/auth.rs:7-22 | the bytes at each offset: domain, nonce, both strings behind two-byte lengths, high byte first |
| Challenge.PayloadInjective | protocol/src/auth.rs:7-22 | payloads are equal exactly if nonce, hostname and gateway id are, given short hostnames or short gateway ids |
| Challenge.InjectiveWithinExactly | protocol/src/auth.rs:7-22 | a bound of 65536 bytes on one of the two strings is needed and enough |
| Challenge.ChallengeBinding | panel/crates/gateway/src/agent_auth.rs:49-75 | with ideal signatures, verification accepts a signature exactly if it was made with the same key for the same nonce, hostname and gateway id |
| Pin.AgentIdentity.LoadGatewayId | agent/src/identity.rs:77-87 | a missing or blank file is no pin, a read error is an error, anything else is its trimmed content |
| Pin.AgentIdentity.SaveGatewayId | agent/src/identity.rs:89-96 | the file is overwritten with the id as it was presented; a failing save leaves it alone or with only the front of the id |
| Pin.AgentIdentity.AnswerChallenge | agent/src/main.rs:126-164 | signs if and only if the disk and the nonce are in order and the trimmed pin is the id presented or, with the file missing or blank, the configured id is unset or equal and the save succeeded |
| Pin.SessionSignsExactly | agent/src/main.rs:126-164 | the same for a session on its own: one signature for the id presented, or none |
| Pin.HealthySessionsSign | agent/src/main.rs:126-164 | from a missing or blank pin, or its own, a gateway with one well-formed id gets one signature in every healthy session |
| Pin.PinnedForever | agent/src/main.rs:126-164 | once a pin loads, every later signature is for that id, whatever gateways present |
| Pin.PinIsWriteOnce | agent/src/main.rs:126-164 | from no pin, whatever gateways come and however saves end, every signature ever made is for one id: the one left by the first session that pinned |
| Pin.PinIsPresentedExactly | agent/src/main.rs:137-152 | that id is the one the gateway presented, and the configured one if set, if and only if the save was not cut short |
| Pin.CutPinSkipsExpected | agent/src/identity.rs:94 | after a save cut short the agent signs for the front of the configured id, which nobody configured |
| Pin.PinHoldsExactly | agent/src/identity.rs:77-96 | a stored id is the only one ever signed for, if and only if it is not blank and has no white space around it |
| Tokens.BootstrapRegistry.Create | panel/crates/gateway/src/agent_auth.rs:189-216 | a new token is unused, keeps the digest of its value only, and leaves all other tokens alone |
| Tokens.BootstrapRegistry.ValidateAndConsume | panel/crates/gateway/src/agent_auth.rs:219-240 | the search by digest, the check, the count and the removal of a used-up token, whatever order the map is searched in |
| Tokens.BootstrapRegistry.Revoke | panel/crates/gateway/src/agent_auth.rs:264-266 | exactly this token goes, and the answer says if it was there |
| Tokens.BootstrapRegistry.Cleanup | panel/crates/gateway/src/agent_auth.rs:269-272 | exactly the tokens whose time of expiry has passed go, the others stay as they are |
| Tokens.AcceptedExactly | panel/crates/gateway/src/agent_auth.rs:146-240 | a value is accepted if and only if it belongs to an issued token that is not revoked, not expired, under its cap and not bound to another hostname, by the books of the whole run |
| Tokens.RunIsBalanced | panel/crates/gateway/src/agent_auth.rs:188-272 | in any run of create, present, revoke and cleanup the registry agrees with those books: each live token carries the number of its acceptances, each missing one was revoked, expired or used up |
| Tokens.TokenConservation | panel/crates/gateway/src/agent_auth.rs:146-272 | the books count real acceptances, and no token is accepted more often than min(1 if single-use, `max_uses`) |
| Pending.PendingRegistry.Insert | panel/crates/gateway/src/agent_auth.rs:302-342 | inserted exactly if the key already waits, or fewer than 100 wait and fewer than five of them from its address |
| Pending.PendingRegistry.Remove | panel/crates/gateway/src/agent_auth.rs:344-348 | the key's entry goes, whichever connection made it |
| Pending.PendingRegistry.Approve | panel/crates/gateway/src/agent_auth.rs:350-364 | approval takes the entry out and goes to the connection of that entry; the answer is whether that connection was still there to receive it |
| Pending.QueueBound | panel/crates/gateway/src/agent_auth.rs:302-364 | the queue never exceeds 100 entries |
| Pending.PerAddressBoundExactly | panel/crates/gateway/src/agent_auth.rs:302-342 | one operation keeps every address at five or fewer, exactly unless a waiting key is presented again from an address that is full |
| Pending.PerAddressBoundRun | panel/crates/gateway/src/agent_auth.rs:302-364 | no address ever exceeds five throughout a run, if and only if at no point a waiting key is presented from an address that is full |
| Pending.KeptAddressesNeverCrowd | panel/crates/gateway/src/agent_auth.rs:302-364 | which never happens as long as keys keep their address |
| Pending.CrowdingRun | panel/crates/gateway/src/agent_auth.rs:311-319 | a run of seven insertions that brings six entries to one address |
| Hosts.HostsFile.LookupByPubkey | panel/crates/gateway/src/hosts_config.rs:85-91 | the first host that carries the key |
| Hosts.HostsFile.LookupByHostname | panel/crates/gateway/src/hosts_config.rs:94-97 | the first host of that name |
| Hosts.PubkeyFound | panel/crates/gateway/src/hosts_config.rs:85-91 | what is found is listed and carries the key; nothing is found only if no host does |
| Hosts.HostnameFound | panel/crates/gateway/src/hosts_config.rs:94-97 | what is found is listed and has the name; nothing is found only if no host has |
| Hosts.HostsFile.RegisterHost | panel/crates/gateway/src/hosts_config.rs:100-123 | one new host at the end, or nothing at all when saving fails |
| Hosts.HostsFile.ReplacePubkey | panel/crates/gateway/src/hosts_config.rs:138-149 | the key of the first host with this id is replaced and that host returned; no host, or no save, is an error that changes nothing |
| Hosts.HostsFile.EditHost | panel/crates/gateway/src/hosts_config.rs:76-134 | os id (write-once), last seen and display name change one host in place |
| Hosts.HostsFile.RemoveHost | panel/crates/gateway/src/main.rs:778-807 | all hosts with the id go, the order of the others stays |
| Hosts.NewHostFields | panel/crates/gateway/src/hosts_config.rs:100-123 | a new host is named after its hostname, has never been seen, and is otherwise as given |
| Hosts.EditedFields | panel/crates/gateway/src/hosts_config.rs:76-149 | each edit sets its own field, an os id only where there was none, and leaves all others alone |
| Hosts.EditedInPlace | panel/crates/gateway/src/hosts_config.rs:126-149 | with unique ids, an edit changes the listed host and no other, in its place |
| Hosts.WithoutAt | panel/crates/gateway/src/main.rs:778-807 | removal takes the host out wherever it stands, and keeps the others in order |
| Hosts.RekeyedAt | panel/crates/gateway/src/hosts_config.rs:138-149 | with unique ids, re-keying a listed host changes exactly that host |
| Hosts.EditKeeps | panel/crates/gateway/src/hosts_config.rs:126-149 | an edit keeps ids, hostnames and their uniqueness, and keeps keys unless it sets one |
| Enrolment.ResolveAuthPath | panel/crates/gateway/src/agent_ws.rs:332-473 | the five routes in the source's order, with their writes to hosts, tokens and registry: known key, known hostname with re-enrolment token, token, loopback, queue |
| Authorisation.PathExactly | panel/crates/gateway/src/agent_ws.rs:332-473 | authenticated if and only if some host holds the key, or the save succeeds and either the hostname is listed and a redeemable re-enrolment token is presented, or it is not listed and a redeemable token is presented, or it is not listed, no token is presented and the address is loopback; queued and rejected likewise, with the reason |
| Authorisation.EffectsExactly | panel/crates/gateway/src/agent_ws.rs:361-473 | a new host with exactly the fields presented; or one listed host of that name with the new key, its connection dropped from the registry; or no change |
| Authorisation.ConsumesExactly | panel/crates/gateway/src/agent_ws.rs:361-437 | a token is used up exactly if the key is unknown and a redeemable one is presented, also when re-enrolment is then refused |
| Authorisation.GreetedExactly | panel/crates/gateway/src/agent_ws.rs:96-145 | a connection is challenged exactly if it speaks version 2 and names a key |
| Authorisation.AdmittedExactly | panel/crates/gateway/src/agent_ws.rs:134-233 | a connection gets a host if and only if it answers with the right signature and is allowed in, or an approval arrives for the very entry it waits on |
| Authorisation.DeliveredExactly | panel/crates/gateway/src/agent_auth.rs:350-364 | an approval gives the approved host to the connection that waits on the entry, and moves no other |
| Authorisation.WaitsExactly | panel/crates/gateway/src/agent_ws.rs:203-222 | a connection told to wait joins the queue with what it presented if there is room, and is closed otherwise |
| Authorisation.AcknowledgedExactly | panel/crates/gateway/src/agent_ws.rs:236-265 | an admitted connection is registered for its host exactly if it can be told so |
| Authorisation.OsIdFilledExactly | panel/crates/gateway/src/agent_ws.rs:236-241 | the host of this id gets the presented os id if it has none, and no host changes otherwise |
| Authorisation.DisconnectedExactly | panel/crates/gateway/src/agent_ws.rs:314-318 | closing stamps exactly this host's last-seen time and takes its id off the registry |
| Authorisation.AdministeredExactly | panel/crates/gateway/src/main.rs:778-858 | a rename changes one display name, a removal takes one host away |
| Authorisation.ApprovalExactly | panel/crates/gateway/src/main.rs:557-612 | an approval gives the waiting key, and a display name if set, to the host of that hostname, or adds a host that is just what waited; nothing else moves |
| Authorisation.ChangeIsAuthorised | panel/crates/gateway/src/agent_ws.rs:332-473 | no step lists a host under a new key unless a proven agent presented a redeemable token or came over loopback, or an administrator approved; and then at most one |
| Authorisation.ChangesAreAuthorised | panel/crates/gateway/src/agent_ws.rs:332-473 | over any run, hosts minted or re-keyed never exceed accepted tokens, loopback answers and approvals together |
| Authorisation.AcceptanceIsCounted | panel/crates/gateway/src/agent_auth.rs:219-240 | the token books count one more use in exactly these token steps |
| Enrolment.PendingApprove | panel/crates/gateway/src/main.rs:557-612 | the lookup of the entry and the write of the hosts file: re-key and rename the host of that hostname, or register a new one |
| Enrolment.ResolvedHostHasKey | panel/crates/gateway/src/agent_ws.rs:332-473 | every route that authenticates yields a host that carries the presented key |
| Enrolment.StepKeepsHosts | panel/crates/gateway/src/hosts_config.rs:76-149 | every step keeps host ids and hostnames unique and each id with the name it was minted for |
| Enrolment.StepKeepsConnections | panel/crates/gateway/src/agent_ws.rs:134-318 | every step keeps: past the signature check a connection has proven its key; queue entries match waiting connections; grants are unique; registered hosts carry proven keys |
| Enrolment.RunKeepsInv | panel/crates/gateway/src/agent_ws.rs:134-318 | the whole invariant over every interleaving of handshakes, approvals, host edits and token operations |
| Enrolment.IdsAndHostnamesUnique | panel/crates/gateway/src/hosts_config.rs:100-149 | in every run no two hosts share an id or a hostname |
| Enrolment.HostIdKeepsHostname | panel/crates/gateway/src/hosts_config.rs:100-149 | a host id never changes its hostname between any two points of a run |
| Enrolment.OneHostPerKey | panel/crates/gateway/src/agent_ws.rs:332-473 | if each key always presents one hostname, no two hosts ever hold one key, even if it is pending and token-enrolled at once |
| Enrolment.ResolveKeepsKeys | panel/crates/gateway/src/agent_ws.rs:332-473 | resolving never gives two hosts one key, whatever hostname is presented |
| Enrolment.ApproveKeysExactly | panel/crates/gateway/src/main.rs:557-612 | approval keeps keys unique if and only if no host of another name already holds the key |
| Enrolment.ApprovingUnderAnotherNameCollides | panel/crates/gateway/src/main.rs:557-612 | in every state where it can happen: a key waits under one hostname, enrols over loopback under another, and is approved |
| EnrolmentRuns.CollisionRun | panel/crates/gateway/src/main.rs:557-612 | the run from an empty gateway that ends with two hosts under one key |
| Enrolment.AuthenticatedMeansVerified | panel/crates/gateway/src/agent_ws.rs:134-265 | whatever the route, each host passed to `register` has the public key whose holder signed this connection's own nonce and claimed hostname |
| Enrolment.NoSignatureServesTwice | panel/crates/gateway/src/agent_auth.rs:49-84 | the challenges of two connections always differ, so no signature serves both |
| Enrolment.ApprovedOnce | panel/crates/gateway/src/agent_auth.rs:350-364 | no connection receives a second approval, however many administrators approve |
| Enrolment.EnrolmentsWithinCap | panel/crates/gateway/src/agent_ws.rs:361-413 | hosts enrolled or re-keyed with a token never exceed its acceptances, nor these its cap |
| CurrentKeys.CurrentExactly | panel/crates/gateway/src/main.rs:573-592 | a step leaves a host served by a connection that proved another key than its present one, if and only if it approves a key for a host that another key's connection serves, or registers a connection whose host was re-keyed since it was admitted |
| CurrentKeys.AlwaysCurrentExactly | panel/crates/gateway/src/agent_ws.rs:134-318 | throughout a run every host that is online is served under its present key, if and only if neither ever happens; re-enrolment by token is safe because it unregisters |
| CurrentKeys.StepKeepsLinked | panel/crates/gateway/src/agent_registry.rs:46-70 | the registry only names live connections that were registered for that very host |
| EnrolmentRuns.OutdatedByApprovalRun | panel/crates/gateway/src/main.rs:573-592 | from an empty gateway: a host is re-keyed by approval while it is online, and stays in the registry under the old key |
| EnrolmentRuns.OutdatedByRegistrationRun | panel/crates/gateway/src/agent_ws.rs:236-265 | from an empty gateway: a connection admitted before the re-keying is registered after it |
| EnrolmentRuns.LateCleanupRun | panel/crates/gateway/src/agent_ws.rs:314-318 | from an empty gateway: an agent reconnects, its old connection closes, and it is connected but unregistered |
| EnrolmentRuns.AbandonRun | panel/crates/gateway/src/agent_ws.rs:203-233 | from an empty gateway: an agent waits twice, the older wait ends, and the younger can no longer be approved |
| Enrolment.LateCleanupExactly | panel/crates/gateway/src/agent_ws.rs:314-318 | closing one connection takes the registration of another with it exactly if they serve the same host |
| Enrolment.AbandonTakesEntryExactly | panel/crates/gateway/src/agent_ws.rs:203-233 | a wait that ends takes the queue entry of another connection with it exactly if they presented the same key |
| RateLimit.LoginRateLimiter.IsLimited | panel/crates/gateway/src/rate_limit.rs:33-46 | prunes one address and answers from what is left, false for an unknown address |
| RateLimit.LoginRateLimiter.CheckAndRecord | panel/crates/gateway/src/rate_limit.rs:49-61 | prunes, then either limits or records the failure, never both |
| RateLimit.LoginRateLimiter.Cleanup | panel/crates/gateway/src/rate_limit.rs:64-71 | prunes all addresses and forgets the empty ones |
| RateLimit.CleanedUpExactly | panel/crates/gateway/src/rate_limit.rs:64-71 | cleanup keeps exactly the addresses with a failure less than a window old, with exactly these failures |
| RateLimit.AnswerFromHistory | panel/crates/gateway/src/rate_limit.rs:33-71 | each answer is the one computed from the full, never pruned history: limited exactly if that many failures lie in the window that ends now |
| RateLimit.WindowBound | panel/crates/gateway/src/rate_limit.rs:49-61 | any window-length span holds at most `max_attempts` recorded failures of one address |
| RateLimit.CleanupUnobservable | panel/crates/gateway/src/rate_limit.rs:64-71 | leaving every cleanup out of a run changes no answer |
| RateLimit.CleanupNeverSeenExactly | panel/crates/gateway/src/rate_limit.rs:33-71 | that holds if and only if at least one attempt is allowed |
| Lockout.ExpiredExactly | agent/src/handlers/superuser_verify.rs:23-36 | the truncated comparison means a window of 901 seconds (901 000 000 000 nanoseconds) |
| Lockout.SuperuserLimiter.IsLockedOut | agent/src/handlers/superuser_verify.rs:23-36 | answers from the user's counter and drops it once expired |
| Lockout.SuperuserLimiter.RecordFailure | agent/src/handlers/superuser_verify.rs:38-58 | restarts or bumps the counter, then prunes expired users above fifty entries |
| Lockout.SuperuserLimiter.ClearFailures | agent/src/handlers/superuser_verify.rs:60-64 | a success forgets exactly this user |
| Lockout.SuperuserLimiter.Open | agent/src/handlers/superuser_verify.rs:74-110 | the order of the checks, and which of them touch the counter |
| Lockout.VerdictExactly | agent/src/handlers/superuser_verify.rs:74-110 | each verdict by the user's failures since the last success: blocked while six lie in a window opened less than 901 seconds ago, else accepted exactly if the password is right, else failed, with the lockout notice at the sixth |
| Lockout.PrunedExactly | agent/src/handlers/superuser_verify.rs:50-54 | above fifty entries exactly the expired ones go, else none |
| Lockout.PruningUnobservable | agent/src/handlers/superuser_verify.rs:15-64 | every verdict is the one of a handler that never removes an expired entry |
| Lockout.CountNeverExceedsLimit | agent/src/handlers/superuser_verify.rs:38-58 | with calls one at a time a stored count never exceeds six |
| Lockout.LockoutBound | agent/src/handlers/superuser_verify.rs:15-64 | any stretch shorter than 901 seconds without a success of the user holds at most eleven of the user's failures |
| Lockout.LockoutBoundReached | agent/src/handlers/superuser_verify.rs:15-64 | neither number can be improved: eleven failures can fall within one nanosecond, where a window ends and the next begins, and twelve within exactly 901 seconds |
| Ini.IniGet | agent/src/handlers/packages.rs:1707-1723 | the loop finds the first binding of the key in any section of that name |
| Ini.IniSet | agent/src/handlers/packages.rs:1725-1765 | the loop with its flags and set of done keys is the rewriting the read-back theorem is about |
| Ini.AppendMissing | agent/src/handlers/packages.rs:1766-1776 | exactly the settings not done yet are appended, in order |
| Ini.GetAfterSet | agent/src/handlers/packages.rs:1707-1776 | after setting, each key set reads as its (first) value and every other section and key reads as before, also with repeated sections and keys |
| Ini.UnrelatedLinesStay | agent/src/handlers/packages.rs:1725-1776 | comments, headers and settings of other keys stay, in order; the only such line added is the header of a section that was missing |
| Ini.SetIsIdempotent | agent/src/handlers/packages.rs:1725-1776 | setting the same distinct keys again changes nothing, if and only if every line that is not replaced has lost its carriage return with its line break |
| Ini.SetFromStripped | agent/src/handlers/packages.rs:1725-1776 | setting commutes with dropping carriage returns at line ends |
| Ini.SecondWriteStrips | agent/src/handlers/packages.rs:1725-1776 | the witness: a comment that ends in two carriage returns changes with every write |
| Pacman.ListRepos | agent/src/handlers/packages.rs:841-906 | the loop with its four buffers lists each section with its last server, include and signature level, except options |
| Pacman.SectionListedAs | agent/src/handlers/packages.rs:841-906 | a section with server, include and signature level is listed with each value in its own field |
| Pacman.CommentsIgnored | agent/src/handlers/packages.rs:841-861 | blank lines and comments do not show in the listing |
| Pacman.RemoveRepo | agent/src/handlers/packages.rs:1134-1156 | the skipping loop drops each section of that name up to the next header |
| Pacman.RemovedExactly | agent/src/handlers/packages.rs:1134-1156 | a line goes if and only if a header of this name stands at or before it with no header of another name between them; all other lines stay in order |
| Pacman.ListAfterRemoveExactly | agent/src/handlers/packages.rs:1134-1156 | listing after removal is the old list without that repository, all else unchanged, if and only if it is options or each header listed under the name has single brackets |
| Pacman.DoubleBracketsStay | agent/src/handlers/packages.rs:1134-1156 | the witness: a section in double brackets is listed by its plain name and not removed by it |
| Pacman.ListAfterAdd | agent/src/handlers/packages.rs:1068-1071 | listing after adding is the old list plus that one entry, or the old list for a section called options |
| Chrony.SetServers | agent/src/handlers/chrony.rs:110-147 | which error comes first, and that a request is accepted exactly if it is not empty and every entry is valid |
| Chrony.FirstErrorReported | agent/src/handlers/chrony.rs:110-147 | a refused request names what is wrong with its first invalid entry, type before host before options |
| Chrony.WriteServerLines | agent/src/handlers/chrony.rs:150-172 | the two loops that keep the other lines and drop blank ones at the end, then marker and directives |
| Chrony.WriteThenReadExactly | agent/src/handlers/chrony.rs:110-329 | parsing the rewritten file yields exactly the entries in order, options with single spaces, if and only if no options hold a line feed |
| Chrony.LineFeedAddsServer | agent/src/handlers/chrony.rs:110-147 | a family of accepted requests that read back as two servers |
| Chrony.OtherLinesSurvive | agent/src/handlers/chrony.rs:150-172 | every old line that is no server or pool survives in order, up to blank lines at the end |
| Chrony.OtherLinesExactly | agent/src/handlers/chrony.rs:150-165 | of the old lines exactly those whose first word is server or pool, in any case, are dropped, wherever they stand |
| Chrony.MarkerAccumulates | agent/src/handlers/chrony.rs:150-172 | writing the same servers twice adds a second marker |
| AuditLog.AuditFile.Log | agent/src/audit.rs:21-32 | one more line, spelled out: time stamp, the five labels, the sanitised fields, and ok for success or fail for failure; the file holds one such line for each call so far |
| AuditLog.SanitizeIsOneLine | agent/src/audit.rs:9-11 | a sanitised field has no line break, and a field without one is unchanged |
| AuditLog.SanitizeExactly | agent/src/audit.rs:9-11 | a line feed becomes a backslash and an n, a carriage return a backslash and an r, any other character stays |
| AuditLog.ParseFormattedExactly | agent/src/handlers/audit_query.rs:66-89 | a written line parses back to all its fields if and only if no field holds a delimiter searched for behind it and the details end in no white space |
| AuditLog.ParseFormattedPanics | agent/src/handlers/audit_query.rs:66-89 | parsing a written line panics if and only if a delimiter first occurs in a field before the delimiter that should precede it; it is never skipped |
| AuditLog.LogHasOneLineEach | agent/src/audit.rs:9-32 | after n calls with any arguments the file has exactly n lines, and n is the reported total |
| AuditLog.AuditRoundTrip | agent/src/handlers/audit_query.rs:52-89 | after any calls, reading returns the records of the last `limit` calls, newest first, every field as written, if and only if these are recoverable; it panics if and only if one of these is disordered |
| AuditLog.EntriesAreTheCalls | agent/src/handlers/audit_query.rs:52-89 | the i-th newest entry read has the i-th newest call's time stamp, its outcome as ok or fail, and each argument without a line break unchanged |
| AuditLog.TargetStopsQueries | agent/src/handlers/audit_query.rs:82-89 | the witness: after one call with the target `x details=y`, every query that reaches back to it panics |
| Base64.DecodeEncode | agent/src/util.rs:470-480 | decoding undoes encoding for all bytes |
| Base64.EncodeIsBase64 | agent/src/util.rs:470-480 | the encoding stays within the base64 alphabet and its padding |
| Base64.Examples | agent/src/util.rs:470-480 | the encoding of the examples in section 10 of RFC 4648, and of the last two symbols |
| ShellScript.LexEscapeQuotes | agent/src/util.rs:444-446 | inside single quotes an escaped string reads as itself, whatever it holds |
| ShellScript.LexShellEscape | agent/src/util.rs:444-446 | an escaped argument is exactly one word, the argument itself |
| ShellScript.ScriptParsesExactly | agent/src/util.rs:470-487 | a shell reads the script as three commands, the last with exactly the given arguments, if and only if there is an argument |
| ShellScript.ScriptDelivers | agent/src/util.rs:470-487 | the command is started with exactly these arguments and reads exactly the content |

## Left out

- Enrolment.ResolveAuthPath: one atomic step, and so are the two lookups and the write of an approval; the source holds no lock across them, so interleavings inside a step, and lost updates between two load and save pairs of the hosts file, are not modelled.
- Tokens.BootstrapRegistry.ValidateAndConsume: the 32-bit use counter wraps as it does without overflow checks; with them the source would panic after 2^32 - 1 uses of an unlimited token.
- Router.AgentRouter.Register: a channel remembers its payload type, not the handler object, which is the same thing as long as all handlers are registered before the first message, as the agent does.
- Router.AgentRouter.Handle: a handler is a function of its channel, the calls on that channel so far and an arbitrary value for everything else it learns; state that handlers share across channels (a scan flag, the lockout map) comes in through that value only.
- Multiplex.SessionIsolation: streams are never cancelled in the model (a stopped stream simply takes no more steps), and queues have no capacity.
- ShellScript.ScriptDelivers: of `printf` and `base64 -d` only the use the script makes of them is modelled: a format without conversions or escapes, and canonical padded input.
- Enrolment.RunKeepsInv: starts from a hosts file whose hostnames are unique. Entries written before hostnames were stored read back with an empty one, and two of them are not such a file.
- Hosts.HostsFile.RegisterHost: a save that fails leaves the list as it was; one that fails halfway, after which the file reads as the empty list, is the separate step `LoseHosts` of the step system.
- Signatures, SHA-256, UUIDs and nonces are ideal: a signature exists only if the key's holder made it for those bytes, digests are injective, ids and nonces are fresh. Fingerprints are keys.
- Hostnames and gateway ids of the challenge are byte strings, file contents are strings of characters; UTF-8 between the two is not modelled.
- Each limiter call reads the clock once; the superuser check reads it before and after the password check.
- Deadlines of the handshake and of the wait for approval appear only as the freedom to hang up at any point; nothing is claimed about progress.
- The names a pacman repository may have are represented by "not empty, no bracket, no white space", which every name the source admits satisfies.
- The apt and dnf branches of the repository handlers, and saving a whole chrony configuration as given.
- `execute_rpc`, the browser-side routing of the gateway, sessions and PAM.
- Processes, sudo, sockets, TLS, the filesystem, D-Bus, the user interface and the status and metrics handlers.
- Validators of a single value (hostnames, networks, package names) other than the ones the editors above depend on.
