# passage, modelled and proved in Dafny

passage is a reverse TCP tunnel. A client behind a firewall dials the server over TLS,
authenticates with two signatures, and keeps a multiplexed session open. For each service the
client asked for, the server opens a listener; every user that connects there is relayed through a
stream of the session to a backend next to the client.

This project models the parts of passage where a mistake is easy to make and hard to see, and proves
what they promise for every input, every run and every interleaving.

* **The server's sessions** (`SessionMachine`, `SessionInvariants`, `ServerGuarantees`, `Handover`,
  `Collisions`, `CollisionRuns`, `Progress`, `Service`, `ServiceGuarantees`, `Succession`,
  `ServerObject`). The goroutines of the server are a step
  system: one program counter per connection handler and per proxied user, the registry of sessions
  with its mutex, two counting semaphores, the open listeners and the control address. Steps
  interleave in any way. An inductive invariant gives listener ownership, registry safety, token
  conservation and stream-slot accounting in every reachable state. A second one, over pairs of
  sessions of a client, gives the exact condition under which reconnects never collide; a third the
  stronger picture of a clean hand-over. A rank bounds what a session still does once its mux is
  closed. Further invariants say what clients and users get: all services or none, the service behind
  the address that was dialled, and an end to sessions that were displaced. The class `Server` holds the same state as mutable fields, and its methods are proved to be
  runs of the step system.
* **The handshake** (`SigningInput`, `KeyText`, `ClockSkew`, `Handshake`, `Exchange`, `Agreement`,
  `AgreementLimits`, `HonestClient`). Byte-exact encodings of both signed messages with their inverses; key texts in
  four base64 variants; the clock check in Go's saturating and wrapping arithmetic; `validateAuth`
  over the index maps, equal to a search of the configuration; both ends run against each other over
  framed pipes that may refuse or lose any part of a message; and agreement over whole traces against
  a network that delivers any message it can assemble. Signatures are symbolic: one verifies for the
  key and message it was made with and for nothing else.
* **Bytes on the wire** (`Bytes`, `Framing`, `Relay`, `RelayEndings`). Framing over a stream that hands
  out arbitrary pieces, and the four copy loops between a user and a backend as a second step system,
  with the ways in which transfers end badly.
* **Configuration** (`HostPort`, `Cidr`, `Config`, `Deployment`, `QuickSpec`, `QuickGenerate`,
  `EndToEnd`).
  Validators proved equal to quantified specifications, what a validated configuration gives the
  session machine, CIDR admission as numeric ranges, and the quick-docker generator, up to
  the way from an address in a spec to the backend in the same spec.
* **Reconnecting** (`Backoff`). The backoff loop and its jitter in 64-bit nanoseconds.

Go strings and byte slices are sequences of bytes; `int64` values are bounded and wrap explicitly.

## What the proofs show about the code

Some properties hold only under a condition. In each case the code is modelled as it is and the
condition is proved exact where it is an if-and-only-if.

* `CheckClockSkew` accepts exactly the 60-second window together with all differences of -2^63 ns or
  less: `Sub` saturates there and the least duration is its own negation (`SkewAccepts`,
  `SkewIsWindow`, `FarAheadPasses`).
* The reconnect loop follows min(max, initial * 2^k) for ever exactly when the maximum is below
  2^62 ns; above that the variable turns negative (`ScheduleKeptIff`, `LargeMaximumOverflows`). The
  jittered delay stays in its window exactly when half the base plus the base does not pass 2^63
  (`JitterWindow`).
* The Ed25519 message has no lengths, so it is injective for 32-byte nonces and exporters but not in
  general (`EdInjective`, `EdAmbiguousWithoutFixedNonce`). The client signs whatever nonce it is sent,
  so a listed Ed25519 key can stand behind an acceptance although its owner signed other fields
  (`EdFieldsCanDiffer`); it signed these fields exactly when the nonce it answered had 32 bytes
  (`AcceptanceAgreement`). The ML-DSA message is injective without conditions, so a client that uses
  its two keys together signed exactly these fields with both (`OwnerAgreement`).
* A reply that the server has written can be lost. The server then has a session and the client an
  error; the client has the server's session exactly when hello and reply arrive whole
  (`RunHandshake`, `ReplyCanBeLost`).
* Reconnects never collide in clear runs. A run is clear when every session starts clear: at the moment
  it looks at its predecessor's listeners, or registers and finds no predecessor, no older session of
  its client has a name it asks for still ahead in its listen loop, or open without being in the list
  just looked at. From every reachable state in which a session starts otherwise, some continuation makes two sessions of the client collide (`BlockedBy`,
  `ClearNeverCollides`, `UnclearCanCollide`, `OverlapCanCollide`). A session that has left its listen
  loop has let go (`CleanlyIsClearly`).
* `Validate` compares service addresses with each other as text, and with the control address not at
  all. Every bind is possible exactly when no service conflicts with another or with the control
  address, in the operating system's sense (`AllBindsPossibleIff`, `DeployedBindsIff`); a valid
  configuration stays valid when its control address is moved onto a service
  (`ControlOnServicePasses`). The generator has the same gap (`GeneratedBindsIff`,
  `IsolatedApartIff`, `ControlPortPasses`).
* In isolated mode the generator accepts two services that share a port, and the server then
  refuses its output; it is accepted exactly when the ports are distinct (`GeneratedServerValidIff`,
  `SharedPortIsRefused`).
* A relay discards the errors of its copies, so any strict prefix of what a user sent can reach the
  backend as a transfer that ended cleanly (`TruncationLooksClean`). A cleanly ended transfer is
  complete exactly when the first loop had put all of the source on the stream (`CompleteIff`).
* A relay closes whole connections where one direction has ended, so a user that sends its request
  and closes its side can lose the whole reply (`HalfCloseLosesReply`). From then on the user gets at
  most what the client had already read from the backend, and exactly that when no write fails
  (`HalfCloseBound`, `HalfCloseDelivers`).

## Model

| member | source | states |
|---|---|---|
| `ServerGuarantees.ListenerOwnership` | internal/tunnel/server.go:259-297 | in every reachable state an open listener belongs to a registered session whose removal has not finished, serves a name that session requested, and sits at the address its client's allowlist gives that name |
| `ServerGuarantees.RemovedSessionIsSilent` | internal/tunnel/server.go:368-389 | once removeSession has returned, none of the session's listeners is open or gives the session a user, whatever a successor's shutdown did in the middle of the listen loop |
| `ServerGuarantees.AddressesExclusive` | internal/tunnel/server.go:277-291 | no two open listeners are at the same or at conflicting addresses |
| `ServerGuarantees.RegistrySafety` | internal/tunnel/server.go:360-377 | sessions[c] exists exactly when the latest registered session of c has not removed itself, and it is that session |
| `ServerGuarantees.LateRemovalIsHarmless` | internal/tunnel/server.go:368-377 | a removal takes away the registry entry exactly when the session is its client's newest; a displaced session never evicts its successor |
| `ServerGuarantees.TokenConservation` | internal/tunnel/server.go:137-179 | slots of the handshake semaphore in use equal the handlers holding one and are at most 64; every handler has released zero or one times, exactly once when done, and sessions hold none |
| `ServerGuarantees.ReleaseNeverBlocks` | internal/tunnel/server.go:137-178 | a handler that reaches a receive from the semaphore, on any exit path, finds it non-empty |
| `ServerGuarantees.StreamSlots` | internal/tunnel/server.go:325-334 | slots of a session equal its proxyUser calls between acquire and release, never exceed the maximum, and the release never blocks |
| `ServerGuarantees.HeadersNameRequested` | internal/tunnel/server.go:315-350 | every Open header names a service that its session's client requested, and was written for a user whom that service's allowlist admits |
| `ServiceGuarantees.UserIsRouted` | internal/tunnel/server.go:315-346 | in every reachable state a user who dials an open service listener and is admitted, with a slot free and the mux open, can get through, and the one header then written for it names, on a stream of the listener's session, the service that the client's allowlist puts at the address dialled |
| `ServiceGuarantees.StrangersAreTurnedAway` | internal/tunnel/server.go:315-320 | a user whom the allowlist does not admit leaves no trace in the server's state |
| `ServiceGuarantees.FullServerDrops` | internal/tunnel/server.go:327-334 | with all slots used a user is dropped: no slot is taken and no header written |
| `ServiceGuarantees.UserLeaves` | internal/tunnel/server.go:328-355 | whether its stream, its header or its relay ended, a user's slot is given back and nothing else changes |
| `ServiceGuarantees.ServesAllOrNone` | internal/tunnel/server.go:277-295 | a serving session has bound every requested name that has an address, and until it is told to stop each has an open listener at that address with acceptUsers on it |
| `ServiceGuarantees.ServesUntilMuxCloses` | internal/tunnel/server.go:295-295 | in any run, a serving session whose mux has not closed still serves |
| `ServiceGuarantees.FailedBindEndsSession` | internal/tunnel/server.go:283-288 | in no continuation of a failed listen does that session serve; it only leaves |
| `ServiceGuarantees.FirstSessionServes` | internal/tunnel/server.go:277-295 | with addresses apart, a first session can come to serve whatever distinct names its client asks for |
| `ServiceGuarantees.ClosersClose` | internal/tunnel/server.go:299-303 | the goroutines beside acceptUsers can close exactly the listeners of sessions that were told to stop, and change nothing else |
| `ServiceGuarantees.StoppedServerCloses` | internal/tunnel/server.go:299-311 | once the server is told to stop, a run closes every listener that accepts users |
| `Succession.PredecessorIsTold` | internal/tunnel/server.go:271-275 | when a session has begun on its own listeners, its client's previous session has its context cancelled and its mux closed, or had removed itself before |
| `Succession.OverMeansStopped` | internal/tunnel/server.go:259-262 | a session that is over has closed its mux and cancelled its context |
| `Agreement.HonestLookupHits` | internal/tunnel/client.go:191-196 | in every trace an Open header belongs to an accepted session, and if the session's ML-DSA key is in the hands of its owner, who signs only the names of its own configuration, the client's lookup of the service hits |
| `Progress.HandlersCanProceed` | internal/tunnel/server.go:137-179 | no deadlock: a handler that is not done waits for its peer, or can take its next step, or is about to take the mutex and the holder of the mutex can step |
| `Progress.RankRun` | internal/tunnel/server.go:259-297 | in any run a registered session's own steps and the rank of its last state together never exceed the rank it began with |
| `Progress.ClosedSessionFinishes` | internal/tunnel/server.go:259-297 | a registered session whose mux has closed takes at most four steps per name ahead of it, one per listener and per listener of the session it displaces, and eleven more; until it is done it can step or waits for the mutex, whose holder can |
| `SessionInvariants.TokenStep` | internal/tunnel/server.go:126-178 | the token part of the invariant is kept by every step of every goroutine |
| `SessionInvariants.RegistryStep` | internal/tunnel/server.go:271-276 | the registry part of the invariant is kept by every step |
| `SessionInvariants.ListenerStep` | internal/tunnel/server.go:277-323 | the listener part of the invariant is kept by every step, also when shutdown works on a snapshot while the listen loop still appends |
| `SessionInvariants.SlotStep` | internal/tunnel/server.go:325-358 | the stream-slot and header part of the invariant is kept by every step |
| `SessionInvariants.InvRun` | internal/tunnel/server.go:105-389 | the whole invariant holds after every run from a state that has it |
| `Handover.HandoverRun` | internal/tunnel/server.go:259-297 | the hand-over invariant holds after every clean run |
| `Handover.OneSessionListens` | internal/tunnel/server.go:271-293 | in a clean run all open listeners of a client belong to one session, the newest once it has finished displacing |
| `Collisions.PairRun` | internal/tunnel/server.go:259-297 | along every clear run, each session lets go of every name that a later, started session of its client asks for |
| `Collisions.BlockedBy` | internal/tunnel/server.go:277-288 | in a clear run an open listener for the very service that a session, displaced or not, is about to bind is that session's own, for a name requested twice |
| `Collisions.BindPossibleIff` | internal/tunnel/server.go:277-288 | in a clear run with services apart, the next bind of distinct names is possible exactly when its address does not conflict with the control address |
| `Collisions.CleanlyIsClearly` | internal/tunnel/server.go:271-275 | a run in which every session ends its listen loop before its client's next one registers is clear |
| `CollisionRuns.ClearNeverCollides` | internal/tunnel/server.go:271-293 | with services apart, no session of a clear run is about to bind an address that another session of its client holds |
| `CollisionRuns.UnclearCanCollide` | internal/tunnel/server.go:379-389 | from every reachable state in which a session starts although an older one has not let go of a name it asks for, some continuation makes two sessions of the client collide |
| `CollisionRuns.OverlapCanCollide` | internal/tunnel/server.go:379-389 | such states are reachable for every service of every client, so without the condition any service can be hit |
| `CollisionRuns.AllBindsPossibleIff` | internal/tunnel/server.go:105-111 | in clear runs every bind of distinct names is possible if and only if no service conflicts with another or with the control address |
| `ServerObject.Server.TakeToken` | internal/tunnel/server.go:126-133 | a connection is taken exactly when fewer than 64 handlers hold a token; the new state is the step of the machine and keeps the invariant |
| `ServerObject.Server.ReplaceSession` | internal/tunnel/server.go:360-366 | installs the session, returns exactly the client's newest session if it was registered, and keeps the invariant |
| `ServerObject.Server.RemoveSession` | internal/tunnel/server.go:368-377 | the method's effect is a run of the machine that ends with the entry dropped only if its own and its listeners closed |
| `ServerObject.Server.Shutdown` | internal/tunnel/server.go:379-389 | the method's effect is a run of the machine that cancels, closes the listed listeners and closes the mux of the displaced session |
| `ServerObject.RemovalClosesOwn` | internal/tunnel/server.go:368-377 | in the state a removal leaves, every listener of the session is closed and no other was touched |
| `Deployment.Deploy` | internal/tunnel/server.go:53-103 | validation and NewServer succeed exactly for valid configurations whose certificate loads and whose keys all decode, and then give indexes of the configuration and admission by its lists |
| `Deployment.LookupIsConfigured` | internal/tunnel/server.go:86-90 | a session's lookup of a name gives an address exactly when the configuration has that client, name and address |
| `Deployment.DeployedAddressesUnique` | internal/config/config.go:210-213 | for a validated configuration two lookups that give the same address are of the same client and name |
| `Deployment.AcceptedNamesHaveAddresses` | internal/tunnel/server.go:277-282 | a session whose client was accepted never comes to a requested name without an address |
| `Deployment.CleanHandover` | internal/tunnel/server.go:271-293 | with a validated configuration and every session ending its listen loop before the next registers, no bind of distinct names meets a service listener at its address, for any number of reconnects |
| `Deployment.DeployedBindsIff` | internal/config/config.go:154-220 | for a validated configuration every bind in clear runs is possible if and only if no service address conflicts with the control address or another service's |
| `Deployment.ControlOnServicePasses` | internal/config/config.go:158-160 | a valid configuration stays valid when its control address is moved onto one of its services |
| `Deployment.ClearlyReachedBoth` | internal/tunnel/server.go:181-297 | a clear trace of server, clients and network is a trace, and what it does to the server is a clear run |
| `Deployment.ReconnectBindsIff` | internal/tunnel/server.go:271-293 | on a clear trace with a validated configuration whose services are apart, every requested name has an address, and the next bind of distinct names is possible exactly when that address does not conflict with the control address |
| `Deployment.StreamsWithinLimit` | internal/tunnel/server.go:269-269 | a session never has more users in its streams than the configured maximum |
| `Deployment.OnlyListedUsersGetThrough` | internal/tunnel/server.go:304-321 | in every reachable state each stream ever opened was for a user in the union of the ranges the configuration lists for that very service, if it lists any |
| `Deployment.ListenerIsConfigured` | internal/tunnel/server.go:259-297 | in every trace an open listener is a configured service of an accepted client at its configured address, and the client signed for it on that connection |
| `Agreement.SysTrace` | internal/tunnel/server.go:181-251 | every trace of server, clients and network keeps the system invariant |
| `Agreement.AcceptanceAgreement` | internal/tunnel/server.go:201-251 | if the server accepts, a listed ML-DSA key signed exactly this nonce, exporter, id, time and service list, and a listed Ed25519 key signed this very message, whose fields are these exactly when the nonce it answered had 32 bytes; each unless its key is corrupt |
| `Agreement.OwnerAgreement` | internal/tunnel/client.go:138-151 | if the accepted ML-DSA key is in the hands of its owner, that client signed exactly this nonce, exporter, id and time with both its keys, whatever nonces it has seen, and the list is that of its own configuration; its Ed25519 key is listed wherever keys are listed in pairs |
| `AgreementLimits.EdFieldsCanDiffer` | internal/auth/auth.go:33-46 | a trace exists in which a listed, uncorrupted Ed25519 key stands behind an acceptance although it only ever signed other fields |
| `HonestClient.AnswerIsSigning` | internal/tunnel/client.go:136-151 | the answer of a client that asks for the names of its configuration is a signing an owner may do, and both its signatures are then with the network |
| `HonestClient.HonestClientGetsIn` | internal/tunnel/server.go:196-217 | on every trace a waiting connection whose hello reaches an admissible honest client can become a session of that client with the very list it asked for |
| `Agreement.AcceptanceIsInjective` | internal/tunnel/server.go:188-218 | with distinct nonces no signature of either kind is accepted in two handshakes |
| `Agreement.ListenerIsAuthorised` | internal/tunnel/server.go:259-297 | every open listener goes back to an accepted handshake whose signed service list contains its service |
| `Exchange.HonestAnswerAcceptedIff` | internal/tunnel/server.go:220-251 | an honest answer is accepted exactly when the client is listed with these keys and services, its clock passes and both ends have the same exporter |
| `Exchange.ClientAnswers` | internal/tunnel/client.go:128-154 | the client sends its own id, time, algorithm and service names as they are, signed with both its keys over the nonce it received and its own exporter, or nothing that reads as a message |
| `Exchange.ServerReplies` | internal/tunnel/server.go:201-218 | the server reports a session exactly when it accepted and its reply went out whole, with the generated id |
| `Exchange.ClientConcludes` | internal/tunnel/client.go:155-163 | the client reports success exactly for a readable reply with a non-empty session id |
| `Exchange.ReplyUnderstood` | internal/proto/messages.go:33-39 | although replies are untagged, the client concludes with the server's session exactly when there is one and the reply arrives whole, and with an error otherwise |
| `Exchange.RunHandshake` | internal/tunnel/client.go:128-163 | the client reports a session only if the server does, and the same one; a session of the server is the client's exactly when hello and reply arrive whole; when hello and answer get through, the server reports one exactly for an admissible client with equal exporters |
| `Exchange.ReplyCanBeLost` | internal/tunnel/server.go:207-217 | for any admissible client, wherever in the reply the connection dies, the server ends with a session and the client with an error |
| `Exchange.ArrivesOrFails` | internal/proto/framing.go:32-49 | a reader gets a message exactly when it was written whole and arrives whole, and an error otherwise |
| `Exchange.CutFrameFails` | internal/proto/framing.go:32-44 | a message cut off anywhere is an error to its reader, never another message |
| `Bytes.HexInjective` | internal/tunnel/server.go:253-257 | different random bytes give different session ids |
| `Handshake.NewIndex` | internal/tunnel/server.go:58-91 | the index loop fails exactly when a key does not decode, and otherwise the maps hold the keys and services of the clients |
| `Handshake.FoundIsIndexed` | internal/tunnel/server.go:224-227 | with unique ids, the map entries under an id are those of the client found by searching the list |
| `Handshake.ValidateAuth` | internal/tunnel/server.go:220-251 | the verdict over the maps, error cases included, equals the verdict by linear search of the configuration |
| `Handshake.AcceptedIff` | internal/tunnel/server.go:220-251 | of every ClientAuth, honest or not: it is accepted exactly when the clock passes, services are asked for, the algorithm is mldsa, and the first client of that id offers them all and lists an Ed25519 and an ML-DSA key that signed these fields under the protocol's label |
| `Handshake.RefusedUnknown` | internal/tunnel/server.go:221-227 | the clock is refused first, then an unknown client, and only then |
| `Handshake.RefusedKnown` | internal/tunnel/server.go:228-249 | every other refusal names a fault that is there, and comes after the checks before it |
| `Handshake.CheckRequested` | internal/tunnel/server.go:234-239 | the loop names the first requested service that the client is not offered |
| `Handshake.VerifyEd` | internal/auth/auth.go:48-59 | true exactly when some listed key verifies a signature of the right size over the Ed25519 message |
| `Handshake.VerifyPq` | internal/auth/pq.go:67-81 | true exactly when some listed key verifies a signature of the right size over the ML-DSA message |
| `SigningInput.BuildEdMessage` | internal/auth/auth.go:33-42 | the buffer is nonce, exporter, id and time in this order |
| `SigningInput.EdBytes` | internal/auth/auth.go:33-42 | the message holds nonce, exporter and id one after another, and then the eight digits to base 256 of the time modulo 2^64 |
| `SigningInput.EdUniquelyDecodable` | internal/auth/auth.go:33-42 | a parser recovers every field exactly when nonce and exporter have 32 bytes each |
| `SigningInput.EdInjective` | internal/auth/auth.go:33-42 | for 32-byte nonces and exporters equal Ed25519 messages come from equal fields |
| `SigningInput.EdAmbiguousWithoutFixedNonce` | internal/auth/auth.go:33-42 | without the fixed nonce size two different claims share one message |
| `SigningInput.ParseFieldOfPrefixed` | internal/auth/pq.go:50-56 | for every string below 2^32 bytes a parser recovers exactly that string from its length-prefixed form and leaves what follows untouched |
| `SigningInput.BuildPqMessage` | internal/auth/pq.go:33-48 | the loop builds the length-prefixed message of the fields and the service list |
| `SigningInput.PqPieces` | internal/auth/pq.go:33-48 | the message is, in this order, nonce, exporter and id with their lengths, the time, the count and the services |
| `SigningInput.PqUniquelyDecodable` | internal/auth/pq.go:33-56 | for all fields and lists with lengths below 2^32 a parser recovers every field and the order of the list |
| `SigningInput.PqInjective` | internal/auth/pq.go:33-56 | equal ML-DSA messages come from equal fields and lists |
| `SigningInput.PqParserSound` | internal/auth/pq.go:33-56 | the parser accepts nothing but ML-DSA messages |
| `Bytes.FromI64OfI64` | internal/auth/auth.go:38-40 | the eight time bytes give back every int64 time, negative ones included |
| `KeyText.DecodeKey` | internal/auth/auth.go:84-100 | succeeds exactly when the prefix is there and some variant reads a key of the size, and then returns that key, in whatever order the variants are tried |
| `KeyText.DecodeUndoesEncode` | internal/auth/auth.go:89-97 | each of the four variants reads back, for all bytes, what its encoder wrote |
| `KeyText.DecodeReadsEncodings` | internal/auth/auth.go:89-97 | a variant accepts nothing but encodings of what it returns, up to spare bits in the last letter |
| `KeyText.BreaksAreIgnored` | internal/auth/auth.go:89-97 | a line break anywhere in a key text makes no difference |
| `KeyText.SpellsOneKey` | internal/auth/pq.go:88-107 | two variants that both read a key of the size from a text read the same key |
| `KeyText.VariantsAgree` | internal/auth/auth.go:89-97 | wherever two variants both accept a text they give the same bytes |
| `KeyText.PaddingDecides` | internal/auth/auth.go:89-97 | for lengths that are not multiples of three a variant is padded exactly when its text ends in padding |
| `KeyText.PaddedAndRawExclude` | internal/auth/auth.go:89-97 | for both key sizes a padded and an unpadded variant never both succeed on one text |
| `KeyText.KeyRoundTrip` | internal/auth/auth.go:80-100 | decoding the text of a key gives that key and no other |
| `ClockSkew.SubSaturates` | internal/auth/auth.go:62-62 | the wrapping computation with its check is the difference clamped to the int64 range |
| `ClockSkew.CheckClockSkew` | internal/auth/auth.go:61-70 | accepts exactly the 60-second window or a difference at or below the least duration |
| `ClockSkew.SkewInSeconds` | internal/auth/auth.go:61-70 | in figures: for a server clock n ns past Unix second u and a client at second c, accepted exactly when (u - c) * 10^9 + n is within 60 * 10^9 either way, or at most -2^63 |
| `ClockSkew.SkewIsWindow` | internal/auth/auth.go:61-70 | the check is the 60-second window exactly when the difference is above the least duration |
| `ClockSkew.FarAheadPasses` | internal/auth/auth.go:61-70 | a concrete client clock 292 years ahead is accepted |
| `Framing.Pipe.WriteMessage` | internal/proto/framing.go:13-30 | refuses exactly the bodies above 64 KiB without writing; otherwise writes the frame, or a prefix of it when the network fails |
| `Framing.Pipe.ReadMessage` | internal/proto/framing.go:32-49 | for every way the stream is cut into pieces, and wherever it is lost, the outcome and the bytes left are those of reading one frame off what arrives, and a success consumes exactly that frame |
| `Framing.FramingRoundTrip` | internal/proto/framing.go:13-49 | any list of bodies within the bound, written back to back, is read back as that list, and what follows is untouched |
| `Framing.FrameBytes` | internal/proto/framing.go:21-29 | a frame is the four digits to base 256 of the length of its body, most significant first, and the body |
| `Framing.ReadFrameSound` | internal/proto/framing.go:32-49 | a successful read is a frame cut off the front; a header above the bound is refused after exactly its four bytes; other errors mean the stream was too short |
| `Relay.BytesKeepOrder` | internal/tunnel/server.go:424-438 | in every reachable state the backend has received a prefix of what the user sent and the user a prefix of what the backend sent |
| `Relay.HeaderStaysOut` | internal/tunnel/client.go:182-208 | a client that relays has taken exactly the Open frame off the stream and is connected to its own target for the service the server opened |
| `Relay.MissingStaysInFrame` | internal/proto/framing.go:32-44 | while a frame arrives in pieces its reader never asks for a byte behind it, and is satisfied exactly by the whole frame |
| `Relay.RelayReturnsLast` | internal/tunnel/server.go:424-438 | relay returns only after both copies ended and both connections were closed, and then nothing keeps it from returning |
| `Relay.ClosedExactly` | internal/tunnel/server.go:325-355 | each endpoint is closed exactly when the copy that writes to it has ended, or its side gave up before relaying |
| `Relay.NothingLost` | internal/tunnel/server.go:424-438 | when both loops of a direction ended at end-of-file on a living mux, every byte of a closed source was handed to the sink |
| `Relay.CompleteIff` | internal/tunnel/server.go:424-438 | a sink brought to a clean end on a living mux has exactly the payload of the stream, and the transfer is complete if and only if all of the source was put on the stream |
| `RelayEndings.TruncationLooksClean` | internal/tunnel/server.go:426-435 | for all data a user sends and any strict prefix of it, a state is reachable in which the prefix is all the backend gets, ended cleanly on a living mux |
| `RelayEndings.MuxDeathLooksClean` | internal/tunnel/server.go:424-438 | a dying mux can end a transfer as cleanly with bytes still on the stream |
| `RelayEndings.HalfCloseBound` | internal/tunnel/server.go:426-435 | once a relay has closed the endpoint a direction enters by, in every continuation the sink gets at most what had already been read from the source |
| `RelayEndings.HalfCloseDelivers` | internal/tunnel/server.go:426-435 | and exactly that, when no write of the direction fails and it ends at end-of-file on a living mux |
| `RelayEndings.HalfCloseLosesReply` | internal/tunnel/server.go:426-435 | a state is reachable in which a request went through cleanly, the mux lives and the backend has answered, and no continuation brings the user a byte of the answer |
| `Relay.RelayWindsDown` | internal/tunnel/server.go:424-438 | where closing the endpoint a copy reads from ends its reads, that copy takes at most three steps after the other copy of its relay has ended, in any run, and has then ended |
| `Relay.InvRun` | internal/tunnel/server.go:342-355 | the relay invariant holds after every run of the four loops, the peers and the network |
| `Config.ValidateServer` | internal/config/config.go:154-237 | accepts exactly the configurations of the quantified specification; an error names a fault that is there |
| `Config.CheckClients` | internal/config/config.go:167-220 | the outer loop passes exactly when every client is valid, ids are unique and listen addresses are globally unique |
| `Config.CheckServices` | internal/config/config.go:194-219 | the inner loop passes exactly when the client's services are valid, uniquely named and on addresses no service before them uses |
| `Config.ValidateClient` | internal/config/config.go:239-282 | accepts exactly the client configurations of the quantified specification; an error names a fault that is there |
| `Config.ServiceNames` | internal/config/config.go:284-290 | every configured name once, in any order |
| `Cidr.ParseCidrs` | internal/tunnel/server.go:391-402 | keeps exactly the prefixes that parse; drops nothing when all do, so a non-empty validated list never becomes the empty one |
| `Cidr.ContainsIsRange` | internal/tunnel/server.go:404-422 | agreement on the leading bits is membership in the numeric range of the prefix |
| `Cidr.CidrAllowed` | internal/tunnel/server.go:404-422 | true exactly when the list is empty or the remote endpoint splits, its host parses and some prefix contains it |
| `Cidr.RemoteHost` | internal/tunnel/server.go:408-413 | what is looked up is the host of the remote endpoint, in brackets or not |
| `Cidr.AdmitUser` | internal/tunnel/server.go:304-320 | the decision is that of the parsed list, and for validated lists a user is admitted exactly when the list is empty or the address lies in the union of its ranges |
| `HostPort.SplitOfJoin` | internal/quickdocker/generate.go:149-155 | a plain host and port joined by a colon split back into the two |
| `HostPort.SplitIff` | internal/config/config.go:158-160 | an address splits into host and port exactly when it is a plain host, or one in brackets, with a colon and a port that holds neither colon nor bracket |
| `Backoff.BaseFollowsSchedule` | internal/tunnel/client.go:46-65 | with a maximum below 2^62 ns the base before retry k is min(max, initial * 2^k) |
| `Backoff.ScheduleKeptIff` | internal/tunnel/client.go:60-63 | the schedule is kept for ever exactly when the maximum is below 2^62 ns |
| `Backoff.BaseNeverFalls` | internal/tunnel/client.go:60-63 | the base is non-decreasing and never above the maximum |
| `Backoff.JitterWindow` | internal/tunnel/client.go:221-231 | every draw gives a delay in the window exactly when the window ends inside int64 |
| `Backoff.JitterReaches` | internal/tunnel/client.go:221-231 | every delay of the window comes from exactly one draw |
| `Backoff.Run` | internal/tunnel/client.go:46-65 | the loop asks for exactly the jittered sleeps of the successive bases and stops where an attempt ends for good or a sleep is cut short |
| `Backoff.SleepsFollowSchedule` | internal/tunnel/client.go:46-65 | every sleep of a run lies in the window of the documented schedule |
| `QuickSpec.CheckServices` | internal/quickdocker/spec.go:87-107 | the loop over the map, in any order, passes exactly when every service is valid and server addresses are distinct; an error names a fault that is there |
| `QuickSpec.Validate` | internal/quickdocker/spec.go:58-109 | accepts exactly the specs of the quantified specification; an error names a fault that is there |
| `QuickGenerate.SortedServiceNames` | internal/quickdocker/generate.go:247-254 | every key once, in ascending order |
| `QuickGenerate.EnumerationIsUnique` | internal/quickdocker/generate.go:247-254 | only one sequence can come out, whatever order the map was visited in |
| `QuickGenerate.LessIff` | internal/quickdocker/generate.go:252-252 | the order is by the first byte that differs, with a prefix before what it begins |
| `QuickGenerate.ServerConfigOf` | internal/quickdocker/generate.go:126-147 | the server configuration has the spec's client with its key texts and one entry per service in name order |
| `QuickGenerate.ClientConfigOf` | internal/quickdocker/generate.go:157-174 | the client configuration has the spec's names with their client targets and the certificate's fingerprint |
| `QuickGenerate.GeneratedSettings` | internal/quickdocker/generate.go:142-173 | the limits, the reconnect settings and the fingerprint of the generated pair, in figures |
| `QuickGenerate.GeneratedClientValid` | internal/quickdocker/generate.go:157-174 | every valid spec gives a valid client configuration |
| `QuickGenerate.GeneratedServerValidIff` | internal/quickdocker/generate.go:126-155 | the server configuration of a valid spec is valid in host mode always and in isolated mode exactly when ports are pairwise distinct |
| `QuickGenerate.SharedPortIsRefused` | internal/quickdocker/spec.go:103-106 | two services on different addresses with one port pass the spec in isolated mode and their configuration is refused |
| `QuickGenerate.SameServiceNames` | internal/quickdocker/generate.go:136-167 | the server offers exactly the names the client has |
| `QuickGenerate.GeneratedClientIsAdmitted` | internal/quickdocker/generate.go:32-107 | the generated keys decode and the generated client, requesting its names with a clock in the window, is admissible to the generated server |
| `EndToEnd.DialledServiceIsOpened` | internal/quickdocker/generate.go:126-155 | a user who dials the address a deployed generated server has open for a service of the spec gets a stream of the spec's client with a header for that service |
| `EndToEnd.OpenedServiceReachesBackend` | internal/quickdocker/generate.go:157-174 | and the generated client connects that stream to the backend the spec gives the service |
| `QuickGenerate.ServerPublishedPorts` | internal/quickdocker/generate.go:200-206 | the control port's mapping, then one mapping per service in the order of the server configuration |
| `QuickGenerate.MappingReadsBack` | internal/quickdocker/generate.go:208-214 | the mapping text reads back as the host, the port and the same container port, with wildcard hosts left out |
| `QuickGenerate.MappingLeadsHome` | internal/quickdocker/generate.go:149-214 | in isolated mode, for an accepted configuration, the mapping published for a service leads to that service's listener and no other service's, and service and control port are confused exactly when they coincide |
| `QuickGenerate.GeneratedBindsIff` | internal/quickdocker/generate.go:126-155 | a generated configuration that the server accepts can bind all its services in clear runs if and only if its addresses, the control address included, do not conflict |
| `QuickGenerate.IsolatedApartIff` | internal/quickdocker/generate.go:149-155 | in isolated mode, by the rules of TCP, that is so if and only if service ports are pairwise distinct and none is the control port |
| `QuickGenerate.ControlPortPasses` | internal/quickdocker/spec.go:58-109 | a valid spec stays valid when its control address is moved onto a service, and its configuration is accepted as before |

## Left out

- TLS, certificates, fingerprint files and curve pinning; the exporter is an opaque 32-byte value on each side.
- Ed25519, ML-DSA and SHA-256 themselves, and random generation: signatures are symbolic, nonces are chosen by the run and distinct.
- JSON and YAML text: messages and configurations are values. Where JSON matters the encoder and decoder are parameters, and `RepliesRead`, `Carried` and `WellFormed` say what is asked of them. Spec values that need quoting in YAML are not modelled.
- The Go library functions the code relies on (base64, SplitHostPort, the arithmetic of time.Time, hex) are modelled from their documented behaviour; netip prefix parsing is a parameter, and unmarshalling an ML-DSA key of the right length is taken to succeed.
- yamux: a stream is an ordered byte channel that can be opened, closed and lost with its session; its windows, keep-alive and pings are not modelled.
- Sockets, deadlines, timers and contexts: net.Listen is a step that may fail and must fail on an open address, cancellation and timeouts are steps that may happen at any moment. Which addresses conflict beyond equal texts is a parameter. The control listener is there until the server is told to stop; the moment at which it then closes is left open.
- The listeners slice that shutdown reads without the mutex while the listen loop appends to it is read in one atomic step; the data race itself is not modelled.
- What the peer does when a connection is lost: bytes lost after a successful write are bytes the reader never gets, and nobody retries.
- Liveness: the results are safety properties, absence of deadlock and, for sessions whose mux is closed and for relays, bounds on the steps that remain.
- applyDefaults, file and directory handling, PEM files, the compose text, container names and the command line: they would only add easy members.
- sort.Strings: sorting is an insertion sort on a sequence; the library's in-place algorithm is not modelled.
- ServerObject.Server.RemoveSession: describes the loop when nothing else moves in between; the interleaved form is the CloseOwn step of the machine.
- ServerObject.Server.Shutdown: describes the statements when nothing else moves in between; the interleaved form is the Displace step of the machine.
