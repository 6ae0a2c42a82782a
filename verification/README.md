# A model of bsvms

bsvms is a gRPC service that keeps many tenants' wallets on top of a wallet SDK. This project
models the service's own logic and proves what it keeps over every run:

- `Base64`, `Tokens`, `Auth`: token text byte for byte, who may call what, and the check on a
  stream's first message.
- `LossyChannel`, `Broker`, `Streams`, `Delivery`, `Isolation`: the lossy event broker, delivery and tenant
  isolation from the wallet that emits an event to the client that receives it, and back to the bootstrap
  of its token.
- `Rescan`: the handler and the walking goroutine of a rescan, in every interleaving.
- `Sealing`, `Secrets`, `Migration`: secrets at rest, the key files, and the start-up migration
  of plaintext records.
- `Registry`, `Grants`, `Service`, `Stranding`: wallets on disk and in memory across crashes and restarts, the
  tokens issued for them, and CreateWallet, RestoreWallet, RefreshToken and start-up as methods
  that are proved to be their sequence of registry events, and the fate of a wallet whose save failed.
- `Addresses`: address indices across concurrent calls, failed snapshot writes and restarts.
- `Blackjack`: the hand engine of the demo.

Concurrent parts are state machines. `Step` takes one atomic action and is total: an action that
is blocked or impossible leaves the state alone, so a run is any sequence of actions. Where the
source changes state in place there is a class whose methods are proved equal to steps (`Hub`,
`AuthStream`, `KeyFile`, `DataDir`, `DiskFiles`, `Server`, `Deck`) or a method with the source's loop.

## Assumptions

- HMAC: a presented token's MAC verifies only over text the service signed (`Tokens.Unforged`,
  `Grants.HonestRun`). The tokens of a run are those issued in that run; the run may start from an
  empty data directory and hold every crash and restart since.
- JSON: unmarshalling a claims set gives back what was marshalled (`Tokens.Faithful`).
- AES-GCM: opening undoes sealing under the same key and nonce (`Sealing.Correct`).
- Files: a rename is atomic and durable, and so is one write of an address snapshot. Any other
  write may fail, or leave a torn file, at any point.
- SDK: a walk calls its progress function only before it returns and finitely often; the address
  counter is monotone while the service runs and resumes from the snapshot. Otherwise every SDK
  and store call may fail at any time.
- All starts of a run use the same data key and token key (`Secrets.KeysSurviveRestarts` says when);
  auth on or off and the token lifetimes may change with each.
- Only the service writes its data directory, and the state file it starts from parses and lists
  no wallet twice (`Registry.ValidDisk`).

## Findings

- `proto/bsvms/v1/bsvms.proto:720-721` and `README.md:103-104` promise exactly one stats message
  at the end of a rescan. The code sends one exactly when every send worked and the walk did not
  fail, and none otherwise (`Rescan.StatsExactly`); `Rescan.FailedWalkWithoutStats` and
  `Rescan.FailedSendWithoutStats` are such runs.
- A CreateWallet or RestoreWallet that fails to save leaves its wallet in memory and in the list,
  not on disk, without tokens, and refuses every retry (`Service.FailedSaveStrandsWallet`;
  `Service.FailedCallRollsBack` says which failures leave nothing behind). A restart undoes this
  if and only if no save of any wallet succeeds before it (`Stranding.FailedSaveUndoneByRestart`).
  Otherwise that save writes the wallet to disk with the rest of the list, and with auth on it is
  stranded for good: no token ever names it, no restart frees its id, and a CreateWallet never
  returned its mnemonic (`Stranding.FailedSaveStrandsForGood`). `Stranding.FailedSaveExample` is a
  run for each case.
- A wallet is stranded in the same way by a crash between its save and the answer
  (`Stranding.CrashBeforeAnswerStrands`), and when it was made while auth was off
  (`Stranding.SavedWithoutTokensStrands`, `Stranding.AuthOffExample`): turning auth on later gives
  it no token. Nor does a wallet whose refresh tokens have all expired ever get another
  (`Stranding.NeverRenewed`).
- A record with one plaintext and one sealed secret loses the sealed one
  (`Migration.MixedRecordLosesMnemonic`); `Migration.MixedRecordReads` says exactly which records
  read as their fields say. The service writes no such record itself.
- Snapshot write errors are ignored, so an answered address can be handed out again after a crash
  (`Addresses.AnsweredAndReused`), exactly when no save that read the counter after it succeeded
  (`Addresses.ReusedExactly`).
- Token text is not unique: the base64 decoder skips newlines and ignores spare bits
  (`Tokens.TokenTextNotUnique`, `Base64.DecodeExact`). What a token says is unaffected.
- A key file torn by a crash stops every later start that uses it, rather than changing the key, and
  no start repairs it (`Secrets.TornDataKeyStopsStarts`, `Secrets.TornSecretStopsStarts`).

## Model

| member | source | states |
|---|---|---|
| Base64.RoundTrip | internal/service/auth.go:218-225 | decoding undoes encoding for all bytes, in the URL-safe alphabet of tokens and the padded one of key files |
| Base64.NoDot | internal/service/auth.go:218-225 | encoded parts never contain the token separator |
| Base64.DecodeExact | internal/service/auth.go:234-246 | exactly which texts the lenient decoder turns into given bytes, in either alphabet: newlines aside, the canonical text and its padding up to the spare bits of its last digit |
| Base64.StripExact | internal/service/auth.go:234-246 | the decoder drops carriage returns and line feeds wherever they stand, and nothing else |
| Base64.EncodedGroup | internal/service/auth.go:218-225 | every three bytes read as one number are written as its four digits in base 64; one or two bytes at the end as two or three digits, padded in key files |
| Base64.Vectors | internal/service/auth.go:218-225 | a test vector of section 10 of RFC 4648, and the two symbols in which the alphabets differ |
| Base64.PrefixIsShort | internal/service/options.go:73-79 | a strict prefix of a key file never decodes to as many bytes as were written |
| Tokens.SplitThree | internal/service/auth.go:229-232 | three dot-free parts joined by dots split back into exactly those parts |
| Tokens.SignedParts | internal/service/auth.go:212-226 | a signed token splits into the base64 of the header, of the claims, and of the MAC of those two joined by a dot |
| Tokens.ValidateForms | internal/service/auth.go:228-261 | any text carrying the signed parts is accepted exactly when its last part spells the MAC and the claims pass |
| Tokens.ValidateCanonical | internal/service/auth.go:212-261 | a signed token is judged by its claims alone: type, expiry, then subject |
| Tokens.ValidateSigned | internal/service/auth.go:212-261 | a signed token validates, as its own subject, if and only if the type agrees, the time is before exp, and tenant and wallet are non-empty; which error comes otherwise |
| Tokens.TokenTextNotUnique | internal/service/auth.go:233-241 | a different text, a token with a newline appended, always validates alike |
| Tokens.JoinInjective | internal/service/auth.go:233-241 | the signed text determines the header and the body |
| Tokens.OnlySignedClaims | internal/service/auth.go:228-261 | whatever validates reveals the subject of unexpired claims the service signed for that use |
| Tokens.IssuedPairWindow | internal/service/auth.go:174-210 | each token of an issued pair validates for its wallet and its own use until the whole second its lifetime ends in, and never for the other use |
| Auth.WalletKeyInjective | internal/service/service.go:1199-1221 | validated ids give equal keys if and only if they are the same wallet |
| Auth.WalletKeyCollides | internal/service/service.go:1199-1199 | without validation two wallets can share a key |
| Auth.FindBearer | internal/service/auth.go:161-171 | the loop finds the token of the first bearer value, trimmed, or none |
| Auth.HeaderRoundTrip | internal/service/auth.go:156-172 | a signed token is read back from the first bearer value, whatever other values stand around it |
| Auth.ShortMethodOf | internal/service/auth.go:305-310 | a service prefix, a slash and a name without slashes give back that name |
| Auth.ShortMethodExact | internal/service/auth.go:305-310 | the short name is the one name without a slash that the full name ends in after a slash, or the full name itself when it has none |
| Auth.AnonymousDecision | internal/service/auth.go:91-100 | a call without metadata passes if and only if auth is off, its short name is RefreshToken, or it is CreateWallet or RestoreWallet with valid ids of a wallet not registered; otherwise metadata is missing |
| Auth.NoTokenAsked | internal/service/auth.go:91-100 | such calls pass whatever headers they carry |
| Auth.BearerMissing | internal/service/auth.go:156-171 | headers without a bearer value are refused as such where a token is needed |
| Auth.CallDecision | internal/service/auth.go:91-136 | the bearer of a signed token may make a call if and only if auth is off, no token is needed, or the token is a live, complete access token and the scope its own, the method node-scoped, or the service another |
| Auth.CallJudged | internal/service/auth.go:101-136 | why it is refused otherwise: each error exactly when its own reason applies |
| Auth.NodeScopedExact | internal/service/auth.go:269-294 | the node-scoped list is exactly the RPCs of the service whose request type has no tenant_id |
| Auth.EveryRPCOpens | internal/service/auth.go:91-136 | every RPC of the service opens to a live token inside its scope, with the fields its request type has |
| Auth.ValidIDExact | internal/service/service.go:25-25 | valid ids by code points, first character and length |
| Auth.BearerPrefixExact | internal/service/auth.go:162-163 | the seven characters that mark a bearer value, in any case |
| Auth.TrimSpaceExact | internal/service/auth.go:164-164 | trimming takes off a run of spaces at each end, and all of it |
| Auth.AuthorizeSound | internal/service/auth.go:91-136 | a call that needs a token and passes carries a live access token the service signed and stays inside its tenant and wallet, or has no tenant and is node-scoped |
| Auth.AuthStream.RecvMsg | internal/service/auth.go:62-78 | the first message received is authorized, and only the first; a transport failure does not use up the check |
| LossyChannel.KeptIsSubsequence | internal/service/service.go:1345-1354 | the values a channel keeps are those at the increasing positions where there was room, and no others |
| Broker.NoPanic | internal/service/service.go:1325-1354 | no run sends on a closed channel or closes one twice; subscribed channels are open, buffers bounded, ids never reused |
| Broker.DeliveryAccounting | internal/service/service.go:1325-1354 | received followed by buffered is exactly what was sent while the subscriber's buffer had room, in order, and sent = received + buffered + dropped, with receives and closes between the sends of one publish |
| Broker.EveryPublishIsSent | internal/service/service.go:1345-1354 | what was sent to a subscriber, and what the publish under way has yet to send it, is what was published while it was registered, each value once and in order |
| Broker.AnyOrder | internal/service/service.go:1348-1353 | in whatever order the map is walked, an uninterrupted publish gives every subscriber with room the value once and changes no other channel |
| Broker.BrokerRefinesSingle | internal/service/service.go:1315-1354 | in every run of the shared broker each subscriber sees what a private single-consumer queue would give it |
| Broker.SubscribersIndependent | internal/service/service.go:1345-1354 | runs that agree on what is sent to one subscriber and on its own actions give it the same values, whatever the others do |
| Broker.LosslessIffKeepsUp | internal/service/service.go:1345-1354 | a subscriber misses nothing if and only if it never falls more than 64 events behind |
| Broker.SlowSubscriberHolds | internal/service/service.go:1330-1330 | a subscriber that never receives holds exactly the first 64 values sent to it |
| Broker.ReceivedWasPublished | internal/service/service.go:1345-1354 | nothing is received or buffered that was not published |
| Broker.Channel.TrySend | internal/service/service.go:1349-1352 | a send appends if fewer than 64 values wait and otherwise changes nothing |
| Broker.Hub.Subscribe | internal/service/service.go:1325-1333 | subscribing hands out a fresh id with a fresh open channel and touches no other |
| Broker.Hub.Publish | internal/service/service.go:1345-1354 | the loop, one send at a time under the lock, comes to the uninterrupted publish |
| Broker.Hub.Deliver | internal/service/service.go:1349-1352 | one turn of the loop is one send of the publish that holds the lock |
| Broker.Hub.Remove | internal/service/service.go:1335-1339 | the locked half of unsubscribe takes the channel out of the map and leaves it open |
| Broker.Hub.CloseChannel | internal/service/service.go:1340-1342 | the half after the lock closes exactly that channel |
| Broker.Hub.Unsubscribe | internal/service/service.go:1335-1343 | the two halves in turn; an unknown id changes nothing |
| Broker.Hub.Receive | internal/service/service.go:1368-1371 | a receive takes the oldest value, or reports a closed and drained channel |
| Streams.StreamsIsolated | internal/service/service.go:639-655 | in every run with auth on, an event a stream sent or is sending was emitted by a wallet of its token's tenant, and by the token's own wallet when the request names one |
| Isolation.StreamsServeTheBootstrapped | internal/service/auth.go:91-136 | over any run of the registry and of the streams, that tenant (and wallet) is one whose wallet is on disk and for which a bootstrap issued the pair the token descends from |
| Streams.StreamKeepsOwnEvents | internal/service/service.go:1223-1231 | the filter lets through all events of the token's tenant (or its one wallet) and no others |
| Streams.StreamSendsMatching | internal/service/service.go:1360-1378 | what a stream has sent and the one event it may have in hand are exactly the matching events received, in order; at the select it has none in hand |
| Streams.StreamFiltered | internal/service/service.go:1360-1378 | the loop relays exactly the matching events up to the first send that fails |
| Delivery.InterleavingRefinesLoop | internal/service/service.go:1360-1378 | in every run, a stream not inside a send has sent what its loop sends when run alone on the events it received, with the send results of the run |
| Delivery.EmissionsArePublished | internal/service/service.go:964-995 | every event a registered wallet emits with the lock free is published, stamped with its tenant and id and with its body, once each and in order, and nothing else is |
| Delivery.PublishedSince | internal/service/service.go:964-995 | what is published while a stream is subscribed is exactly what registered wallets emitted meanwhile |
| Delivery.LosslessStream | internal/service/service.go:1345-1378 | a live stream never more than 64 behind has sent, in hand, buffered or coming from the publish under way exactly the matching events that registered wallets emitted since it subscribed |
| Delivery.EmissionReachesAll | internal/service/service.go:1345-1354 | from any reachable state, an uninterrupted emission reaches every subscriber with room and frees the lock |
| Delivery.EmissionIsDelivered | internal/service/service.go:1364-1376 | and a waiting stream it matches sends it next and goes on |
| Delivery.ArriveExact | internal/service/auth.go:69-78 | exactly the authorized requests become streams, with their own scope and headers |
| Delivery.StreamIsItsRequest | internal/service/auth.go:69-78 | every stream of a run goes back to one request of the run, authorized at that moment, and keeps its scope |
| Delivery.StartExact | internal/service/service.go:639-655 | the handler subscribes if and only if the request is still authorized |
| Delivery.DepartedIsUnsubscribed | internal/service/service.go:1361-1362 | a stream is subscribed exactly while it is in its loop or about to leave, and in the end its channel is closed |
| Delivery.LeavesExactly | internal/service/service.go:1363-1376 | a stream leaves its loop if and only if its context ends while it waits or a send of its own fails |
| Delivery.CancelledLeaves | internal/service/service.go:1361-1367 | a waiting stream whose context ends unsubscribes and closes its channel |
| Streams.NeverClosedWhileStreaming | internal/service/service.go:1363-1371 | a live stream's channel is open, so its closed-channel branch is never taken |
| Streams.EmptyTenantRefused | internal/service/auth.go:122-127 | an event stream with an empty tenant is refused although its filter would match every tenant |
| Rescan.OneWalkAtATime | internal/service/service.go:797-836 | in every interleaving at most one walk of a wallet is alive, under the guard, which is given up only after the handler has cancelled its own walk and seen it finished |
| Rescan.GuardReleased | internal/service/service.go:847-861 | a rescan is accepted if and only if every earlier call has returned, and then starts afresh |
| Rescan.WalkResultIs | internal/service/service.go:815-819 | what a state knows of the walk is how the first Return of the run ended it |
| Rescan.OutputGrammar | internal/service/service.go:829-845 | output is progress* or progress* stats, the heartbeats sent being the first of those that found room; all were sent before stats, which follows a walk that returned without error |
| Rescan.OffersUseBudget | internal/service/service.go:804-813 | a running walk offers a heartbeat at each callback until its callbacks are used up |
| Rescan.HeartbeatAccounting | internal/service/service.go:804-813 | the heartbeats that met a buffer of fewer than 64 are, in order, those sent, the one in hand and those waiting; no other is dropped |
| Rescan.StatsExactly | internal/service/service.go:837-845 | a returned call sent stats if and only if every send it made in the run worked and its walk returned without error in the run |
| Rescan.FailedWalkWithoutStats | internal/service/service.go:840-844 | a run whose only call returns without stats because its walk returned an error |
| Rescan.FailedSendWithoutStats | internal/service/service.go:845-845 | a run whose only call returns without stats because a send failed after a walk without error |
| Rescan.Serve | internal/service/service.go:834-845 | the handler's loop sends everything up to the first failing send, and stats after a good walk |
| Rescan.TranscriptUnique | internal/service/service.go:834-845 | heartbeats, walk result and send results determine output and outcome |
| Rescan.InterleavingRefinesLoop | internal/service/service.go:815-845 | every interleaved call that returned sent what its loop sends when run alone on the heartbeats that found room, with the send and walk results of the run |
| Rescan.BoundedWork | internal/service/service.go:804-845 | a call takes at most three unblocked actions per callback of its walk plus ten, so it ends if the walk does |
| Rescan.NeverStuck | internal/service/service.go:804-845 | a call that has not returned always has an unblocked action, and its walk can always go on, also after a failed send with a full buffer |
| Sealing.OpenUndoesSeal | internal/service/encryption.go:13-57 | whatever was sealed opens to the same bytes, through prefix, base64 and nonce split, the empty secret included |
| Sealing.OpenExact | internal/service/encryption.go:32-57 | exactly which texts open and to what: the empty text, or "v1:" and twelve bytes of nonce with a ciphertext that authenticates under a 32-byte key; all else is refused |
| Secrets.LoadAgain | internal/service/options.go:71-94 | a key file once there is never rewritten and reads as the key its creator returned |
| Secrets.FileAfter | internal/service/options.go:71-94 | what each call leaves in the file, torn writes included |
| Secrets.TornKeyReads | internal/service/options.go:71-94 | a key file holding the first n characters written stays as it is, and reads as a full-size key (the one written) if and only if it is readable and n is all of them |
| Secrets.TornDataKeyStopsStarts | internal/service/options.go:50-59 | after a start torn while writing the data key, each later start with the data key unset gets past it if and only if the file is readable and no character is missing; the file stays |
| Secrets.TornSecretStopsStarts | internal/service/options.go:60-68 | the same for the token secret and every later start with auth on and the secret unset |
| Secrets.KeyFile.LoadOrCreateSecret | internal/service/options.go:71-94 | file and result after each way the call can end, torn writes included |
| Secrets.DataDir.WithDefaults | internal/service/options.go:42-69 | the field-by-field method gives the specified options or error, and touches only the key files it needs |
| Secrets.ResolveExact | internal/service/options.go:42-69 | exactly when a start gets its options and which: where each key comes from and its size, auth as configured, 900 and 86400 seconds for unset lifetimes |
| Secrets.KeysSurviveRestarts | internal/service/options.go:42-94 | whatever each start's configuration and whatever fails in between, two successful starts configured alike as to a key run with the same key, of the required size |
| Secrets.SealedSurvivesRestarts | internal/service/options.go:42-94 | what one start sealed opens to the same bytes under the key of any later start that leaves the data key unset too, or sets the same one |
| Migration.NewMetaOpens | internal/service/service.go:1034-1065 | a new record holds no plaintext and opens to the secrets it was made from |
| Migration.ReplaceRecords | internal/service/service.go:1024-1028 | the inner loop overwrites exactly the records of the wallet |
| Migration.LoadWallets | internal/service/service.go:102-110 | the loop, reading each record from the list as earlier turns left it, computes the specified load |
| Migration.LoadAllSucceeds | internal/service/service.go:102-109 | a list with distinct keys loads if and only if each record's secrets open, the SDK restores it, its store opens and its plaintext can be sealed |
| Migration.NewMetaSucceeds | internal/service/service.go:1034-1042 | a record can be made if and only if each secret is empty or there are a 32-byte key and a nonce for it |
| Migration.MigrationKeepsSecrets | internal/service/service.go:102-118 | for any list with distinct keys: wallets and order stay, no plaintext is left, every record opens to the same secrets, exactly the listed wallets are registered, and a save is due if and only if some record was plaintext |
| Migration.MigrationIdempotent | internal/service/service.go:102-118 | a second restart migrates nothing and changes nothing |
| Migration.MixedRecordReads | internal/service/service.go:1052-1055 | a record reads as its fields say if and only if no plaintext stands beside a sealed text that does not open to the empty secret |
| Migration.MixedRecordLosesMnemonic | internal/service/service.go:1052-1055 | a plaintext passphrase beside a sealed mnemonic loses the mnemonic |
| Registry.DiskOnlyGrows | internal/service/service.go:1097-1123 | along every run the wallets on disk stay there, in order, with the same secrets |
| Registry.SuccessIsDurable | internal/service/service.go:172-242 | a wallet whose call succeeded is on disk ever after and registered whenever the service is up; a torn file never becomes the state |
| Registry.RegistryInSync | internal/service/service.go:195-198 | whenever the lock is free, map and list hold the same wallets once each, and the list starts with the one on disk |
| Registry.SaveWritesAll | internal/service/service.go:1113-1123 | after a successful save the disk lists every registered wallet |
| Grants.TokensFollowWallets | internal/service/auth.go:174-210 | in every run, restarts with other auth settings and lifetimes included, each token pair names a wallet on disk, bootstrapping issues at most one pair per wallet, and every other pair descends from it |
| Grants.RefreshKeepsIdentity | internal/service/auth.go:80-89 | a refresh issues exactly when its token validates, and then for the tenant and wallet of an unexpired refresh token issued before |
| Grants.PairsServe | internal/service/auth.go:174-210 | every pair issued in a run, with the time of its event and the settings of that start: subject, issue time, expiry and ids of both tokens, and exactly how long each serves its wallet |
| Grants.BootstrapClosed | internal/service/auth.go:138-150 | once a wallet has tokens, anonymous creation is refused whenever auth is on, after any crashes and restarts, also with auth off in between |
| Service.CallEffect | internal/service/service.go:172-205 | what an uninterrupted call leaves in memory, on disk and among the tokens, by how far it got |
| Service.SucceedsExact | internal/service/service.go:181-204 | exactly when a call past its checks succeeds |
| Service.SavedRecordOpens | internal/service/service.go:172-242 | a saved call leaves its wallet last on disk, under its own ids, sealed, opening to the requested secrets |
| Service.FailedCallRollsBack | internal/service/service.go:191-203 | a failed call leaves memory as it was if and only if it failed before the wallet was attached |
| Service.FailedSaveStrandsWallet | internal/service/service.go:195-198 | right after a failed save the wallet is in memory only, without tokens, and every retry is refused and changes nothing |
| Stranding.OnDiskIffSaved | internal/service/service.go:1113-1123 | until a crash, a wallet in the list reaches the disk exactly with the first save of any wallet that succeeds |
| Stranding.RestartLoadsDisk | internal/service/service.go:97-118 | after a crash the service comes up with exactly the wallets on disk, however many starts fail first |
| Stranding.FailedSaveUndoneByRestart | internal/service/service.go:195-198 | after the next crash and restart the wallet of a failed save is absent and can be created if and only if no save succeeded in between |
| Stranding.FailedSaveStrandsForGood | internal/service/service.go:195-198 | otherwise it is on disk without tokens in every later state, through any crashes and restarts, and nobody can bootstrap it |
| Stranding.NeverGranted | internal/service/auth.go:138-150 | in every run, a wallet on disk that no token names, and that no call under way is making, never gets a token and stays refused |
| Stranding.NeverRenewed | internal/service/auth.go:80-89 | in every run, a wallet on disk whose refresh tokens have expired by a time gets no token in any later run whose refreshes come at that time or after, and stays refused |
| Stranding.CrashBeforeAnswerStrands | internal/service/service.go:195-204 | a crash after the rename and before the answer leaves the wallet on disk without tokens in every later state |
| Stranding.SavedWithoutTokensStrands | internal/service/service.go:1067-1072 | so does a call that saves while auth is off, or whose signing fails, whatever the settings later |
| Stranding.AuthOffExample | internal/service/service.go:1067-1072 | a new service with auth off makes such a call |
| Stranding.FailedSaveExample | internal/service/service.go:195-198 | a new service fails to save one wallet: a restart frees it, or the next wallet's save puts it on disk without tokens |
| Service.DiskFiles.SaveState | internal/service/service.go:1113-1123 | the state file changes only by the rename of a file written whole |
| Service.Server.Register | internal/service/service.go:191-204 | the common tail of the two calls is its registry events, and answers with the first pair of the wallet, spelled out |
| Service.Server.CreateWallet | internal/service/service.go:172-205 | the call is its registry events; exactly when it answers with each error or success, and with which mnemonic and tokens |
| Service.Server.RestoreWallet | internal/service/service.go:207-242 | the call is its registry events; exactly when it answers with each error or success, and with which tokens |
| Service.Server.RefreshToken | internal/service/auth.go:80-89 | the call is the refresh event and answers with a new pair, spelled out, for the owner of the token, or with the reason it did not |
| Service.Start | internal/service/service.go:72-120 | start-up is its registry events and yields a server if and only if the state file is not torn, every record loads and, if some record was plaintext, the save works |
| Addresses.SavedNeverDecreases | internal/service/service.go:1125-1134 | the next index on disk never goes back, whatever fails |
| Addresses.UninterruptedCall | internal/service/service.go:252-283 | from any state with the lock free, a call takes the next n indices and its save puts the index after them on disk |
| Addresses.PersistedExactly | internal/service/service.go:252-283 | an index taken is below the saved one if and only if some save of the run read the counter after the call took it and succeeded before a crash |
| Addresses.ReusedExactly | internal/service/service.go:1074-1082 | after a crash and restart an index can be handed out again if and only if no such save succeeded |
| Addresses.AnsweredAndReused | internal/service/service.go:1125-1129 | a run in which an answered index comes out again, its snapshot write having failed |
| Addresses.IndicesDistinct | internal/service/service.go:252-283 | two calls never share an index unless a crash came between, before such a save of the first |
| Addresses.AnsweredNeverReused | internal/service/service.go:252-283 | if snapshot writes succeed, the saved index exceeds every answered one and no later call gets it, over all interleavings, crashes and restarts |
| Blackjack.HandValue | cmd/blackjack/main.go:639-659 | the two loops compute the greedy total |
| Blackjack.HandTotalIsBest | cmd/blackjack/main.go:639-659 | with court cards counting ten and pip cards their number, the greedy total is the largest not above 21 over all choices of one or eleven per ace, or the smallest possible if there is none |
| Blackjack.BestIsUnique | cmd/blackjack/main.go:639-659 | only one total is best in that sense |
| Blackjack.HandTotalUnordered | cmd/blackjack/main.go:639-659 | the value does not depend on the order of the cards |
| Blackjack.FullDeckDistinct | cmd/blackjack/main.go:608-616 | the 52 cards of the deck are distinct |
| Blackjack.NewDeck | cmd/blackjack/main.go:608-619 | a new deck is a permutation of the 52 cards |
| Blackjack.Shuffle | cmd/blackjack/main.go:617-617 | shuffling in place by swaps permutes |
| Blackjack.Deck.Draw | cmd/blackjack/main.go:621-625 | drawing splits the deck into its first card and the rest |
| Blackjack.PlayerTurn | cmd/blackjack/main.go:146-158 | the player draws the next cards of the deck, below 21 and asking each time, and no more |
| Blackjack.HouseTurn | cmd/blackjack/main.go:160-162 | the house draws the next cards while below 17, none if the player is bust, and ends at 26 at most |
| Blackjack.Conservation | cmd/blackjack/main.go:143-166 | both hands and the rest of the deck are always the whole deck |
| Blackjack.HandTotalBound | cmd/blackjack/main.go:639-659 | a hand of n different cards totals at least 3n - 12 |
| Blackjack.PlayHand | cmd/blackjack/main.go:141-168 | for any deck order and answers the deck never runs out, no card is lost or duplicated, the hands have at most 11 and 10 cards, a house that had to play ends between 17 and 26, and the winner is whoever's hand beats the other's |
| Blackjack.ElevenCardGame | cmd/blackjack/main.go:146-158 | some deck and answers make the player end with eleven cards, and with no other number |
| Blackjack.TenCardHouse | cmd/blackjack/main.go:160-162 | some deck makes the house end with ten cards, and with no other number |

## Left out

- The SDK (coin selection, signing, P2P, script execution, balances, reorganisations): its calls are parameters that may fail.
- RPC pass-throughs and message copying, ListWallets and walletAddresses: easy members beside the state they read.
- AES-GCM, HMAC-SHA-256, SHA-256 and JSON internals: parameters with the assumptions above; sdkWalletName is a parameter too.
- Goroutines: Rescan, streamFiltered and the calls under the service lock are state machines on values whose atomic actions are lock sections and channel operations; the methods of the classes run one at a time.
- Rescan checkpoints: they only save an address snapshot, which is a save without a new index in `Addresses`; the service lock they take is not in `Rescan`.
- Streams.StreamsIsolated: says nothing of the wallet when the request omits wallet_id, because the service scopes such streams to the tenant only.
- Blackjack.Shuffle: states that the deck is permuted, not how evenly, because the random source is a parameter.
- Node event streams (transactions, blocks, traffic, rejects): the same broker without a filter, open to every token.
- Calls that derive at a given index: they take no new index.
- Network set-up, timeouts, console input and output, bets and settlement of the demo, and its floating-point amounts.
- fsync: a completed rename is taken to survive a crash.
- Strings that are not valid UTF-8: strings are sequences of characters, secrets and key material sequences of bytes.
