# Verified models of the Bitwarden panel's helpers

The panel keeps an unlocked vault behind three small programs: an SSH agent, a vault helper and a
quick-unlock envelope tool, and supervises them from JavaScript. This project models the parts of them
whose correctness depends on many operations staying in step, and proves what they promise.

- **SSH agent** (`agent_*.dfy`, `wire_strings.dfy`, `utf8.dfy`). `AgentSpec` gives the state loop as one
  transition per event and a log of everything sent. `AgentSafety` and `AgentRuns` prove what each step
  keeps, `AgentTheorems` what follows for whole runs. `AgentOutcomes` and `AgentLoads` say what each event
  brings about and when, and `KeyCandidates` what becomes of each item of a load. `AgentRequests` and
  `AgentGrants` tie signatures to the frames of the connection that asked, `AgentChannel` bounds what one
  event sends. `AgentObjects` and `AgentLoops` are the objects that are updated in place, each method proved
  to be its transition. Beside the loop: frames and signed data (`Wire`), the per-connection forwarding state
  (`Connection`), the payload accumulator (`Accumulator`) and strict base64 (`Base64`).
- **Vault helper** (`vault_*.dfy`, `totp.dfy`). `VaultRuns` interleaves the request loop, the waiting
  threads, the delayed stop threads and the kernel; `VaultSignals` says whom each signal reaches and
  `VaultInterleavings` holds concrete runs. `VaultGeneration` interleaves runs with forgets of the vault.
  `VaultStore` is the indexed store, `VaultSearch` its search against the panel's own, `VaultStrip` the
  removal of secrets, `VaultSession` and `VaultRedaction` the session key read out of an output and the
  placeholder for it, `VaultEscape` the reply lines, `Totp` one-time codes.
- **Unlock envelope** (`unlock_*.dfy`, `json_text.dfy`). `Envelopes` relates the envelope to a ledger
  without encryption over every history of operations; `EnvelopeOutcomes` says of each operation what opens
  before and after it; `EnvelopeBinding` shows what the associated data binds; `EnvelopeSize` and
  `EnvelopeCommands` follow it through the JSON each command writes and the next one reads; `UnlockObject` is
  the envelope updated in place.
- **Panel** (`panel_*.dfy`). `Supervisor` is the reducer that restarts the agent, `Shell` the quoting of
  commands against the shell's own reading.

`common.dfy` and `arithmetic.dfy` hold shared types and facts. The whole project is checked with
`dafny verify dfyconfig.toml`.

## How it is modelled

- An event of the agent loop carries the clock reading it uses; a client that hung up is an input of the
  tick. A reply channel is a number (a ticket) given out on arrival. Draining a hash map is one log entry
  for the whole batch, since the replies go to separate channels.
- Keys are blobs with a kind; parsing a key gives it or a skip code. A hash is free of collisions, so a host
  key stands for its fingerprint. Encryption is ideal: a box opens with its own key and associated data only,
  and key derivation gives each input and purpose its own key.
- In `VaultRuns` each lock the helper takes is one step, the kernel chooses any free pid for a new process,
  and a process is told apart from a later one with the same pid.
- What else is read out of a run's output (a decoded PIN, a vault read) is a parameter of
  `VaultGeneration`, so its results hold for every such reader.
- Lower-casing is a parameter of `VaultSearch`: any function that keeps a NUL and treats the text on its two
  sides apart, as Unicode lower-casing with its final-sigma rule does.
- The nonces and ciphertexts of an envelope are a parameter of `EnvelopeSize`, of which only the lengths
  matter; reading back what was written is taken to give the same fields.
- Machine integers are natural numbers with their saturation, refusal at the limit or wrap-around written
  out where the programs have it.

## Promises that hold only under a condition

- A delayed kill is sent to whatever run is listed under the same id with the same group. It is the run it
  was asked for exactly when no run was started under that id since (`DelayedKillHitsItsOwn`); otherwise a
  recycled pid can make it another run (`DelayedKillCanMiss`). The signal still goes to a child of
  the helper that was not reaped, in every case.
- An auto-type that is stopped answers "stopped", except when it had already typed everything and ended with
  status 0; and one that failed by itself answers "stopped" if the stop came before it was reaped
  (`StoppedIff`, `LateStop`).
- An envelope that was written can be read again exactly when its JSON is at most 64 KiB (`ReadBackIff`),
  since writing has no such limit. Its length follows from its fields (`LedgerSize`), and sixteen security
  keys with relying parties of at most 400 characters always fit (`Fits`, `CommandsAgree`); twelve keys with
  the longest allowed fields do not (`TwelveKeysAreNotReadBack`).
- A session key is replaced in the output it was read from before the panel is shown it. It is never found
  there afterwards exactly when the key does not overlap the placeholder in a way that makes the key again
  (`RedactionHidesIff`). The placeholder ends in N, and for every key that begins with N there is such an
  output (`KeysInNStayShown`).
- One event sends the panel no more than its channel holds, except a tick that withdraws more than 139
  queued requests at once (`EveryEventFits`).
- The generation counter wraps at 2^64: a run that outlived a forget is dropped except after a positive
  multiple of 2^64 forgets (`OutlivedIff`, `LateRunIsKept`).
- The comment on `aad` says distinct lists never encode the same. That holds exactly for parts of at most
  `u32::MAX` bytes (`AadInjectiveIff`, `SameEncoding`); every field of a valid envelope is far below it.
- A search query holding NUL can match across two fields (`FoundAcrossFields`). Search is field by field, for
  every item, if and only if the query has none (`SearchIsFieldwise`, `FieldwiseIff`).
- A card number keeps only its last four characters when it is a JSON string; any other JSON value there is
  passed on whole (`CardNumberLeft`).

## Model

| member | source | states |
|---|---|---|
| AgentTheorems.EverySignatureWasAllowed | agent/src/main.rs:343-509 | Over every run: when a signature goes out the vault serves that key under its current epoch, the request asked for exactly this data and is unanswered, and either the panel approved its own id (shown under this epoch, or as a held request) or an unexpired, unrevoked grant of this unlock covers it |
| AgentTheorems.GrantsAreLocal | agent/src/approvals.rs:61-84 | A covering grant has the request's epoch, key, kind, uid and executable, and the request is neither forwarded nor unrecognised |
| AgentGrants.GrantSignsOnlyWhatItNames | agent/src/main.rs:585-663 | Over every run whose requests come from connections: a signature without an approval of its own answers the request an event brought for exactly this data; the connection that sent it was not marked then, and an open grant of this unlock for that key, user and program is for exactly what the message is by that connection's own binds: a signature in the granted namespace, or a login of the granted user to the granted host with that key |
| AgentGrants.MarkedNeedsThePanel | agent/src/server.rs:69-113 | Over every run: a request that came when its connection was marked as forwarded is signed only if the panel approved that very request under the current epoch |
| AgentRequests.StepAsks | agent/src/main.rs:343-509 | A client's event adds its own request under the next ticket, and no other event adds any |
| AgentRequests.StepGrows | agent/src/main.rs:343-509 | Every event only adds to the log, and of requests only its own |
| AgentTheorems.EveryRunIsSafe | agent/src/main.rs:343-521 | Every state of every run satisfies the invariant, and every entry of its log was allowed by what came before it |
| AgentTheorems.StepKeepsInv | agent/src/main.rs:343-521 | Each event of the loop keeps the invariant (ownership of requests, numbering, gate, evidence in the log) |
| AgentTheorems.EveryRequestHasOnePlace | agent/src/main.rs:536-708 | Over every run: each accepted request is in exactly one of the queue, the held requests and the waiting listings with no answer yet, or was answered exactly once |
| AgentTheorems.BetweenEvents | agent/src/main.rs:243-248 | Over every run, between events: gate open means unlocked and nothing held; gate closed means no queue and no grants; queued plus held is at most `MAX_PENDING`; no private key unless unlocked; the manager's ids are among the reply map's and apart from the held ones |
| AgentTheorems.IdsAreNeverReissued | agent/src/approvals.rs:270-277 | No request id is shown to the panel twice in a safe log |
| AgentTheorems.SilentUntilPublished | agent/src/main.rs:357-375 | After a lock, logout or load begin, a signature is preceded by a publish under an epoch above every earlier one |
| AgentTheorems.ReleaseNeverFull | agent/src/main.rs:713-822 | Releasing a held request never meets `QueueFull` |
| AgentChannel.EveryEventFits | agent/src/main.rs:243-248 | Over every run: no event but a tick sends more than `CONTROL_OUTPUT_CAPACITY` messages, counting a request released, prompted and then settled by a grant; a tick sends at most one for each queued reply and seven more, the announcement of the grants counted, so it too fits while at most 139 replies wait and always during a load |
| AgentTheorems.ApprovalAnswers | agent/src/main.rs:376-394 | Approving a queued request sends the answer its approval decides, whatever a new grant settles after it |
| AgentTheorems.CoveredAskIsAnswered | agent/src/main.rs:649-663 | A request under a live covering grant is answered at once, with no prompt and no change to the maps |
| AgentTheorems.HeldApprovalIsConsumed | agent/src/main.rs:742-762 | A request approved while it was held is answered when it is released, and signed if and only if a live grant covers it or the manager has room, ids and clock left for it, and its key and flags allow it at the new epoch |
| AgentTheorems.LockAnswersEveryone | agent/src/main.rs:357-366 | A lock leaves no one waiting, no grant and no private key; public keys stay listed |
| AgentTheorems.LogoutAnswersEveryone | agent/src/main.rs:367-375 | A logout leaves no one waiting, no grant and no key of either kind |
| AgentTheorems.ShutdownAnswersEveryone | agent/src/main.rs:511-517 | A shutdown leaves no one waiting and no key |
| AgentTheorems.SweepSyncs | agent/src/main.rs:488-495 | After the sweep the reply map and the manager's queue name the same requests, and none whose client left |
| AgentOutcomes.OpenAsk | agent/src/main.rs:585-703 | With the gate open a request gets exactly one answer: a prompt and a place in the queue if and only if its key is served, its user is the owner, no live grant covers it and there are room and ids left; a signature if and only if a live grant covers it and its key and flags allow it; a refusal otherwise |
| AgentOutcomes.ClosedAsk | agent/src/main.rs:594-648 | With the gate closed a request is held with a prompt under the next id for exactly its lifetime if and only if its key is listed, its user is the owner and there is room, and is refused otherwise |
| AgentOutcomes.ReleasedAsk | agent/src/main.rs:713-822 | A held request without an approval is released as if it were asked then |
| AgentOutcomes.ReleasedApproved | agent/src/main.rs:735-762 | A held request with an approval is answered when it is released, with no second prompt |
| AgentOutcomes.ListOutcome | agent/src/main.rs:544-584 | A listing is answered at once unless the cache is empty, unlock on demand is on and the user is the owner; then it joins the prompt there is, or raises one |
| AgentOutcomes.NamesAll | agent/src/main.rs:867-890 | A listing has every public key in order, with its name exactly when it is not forwarded |
| AgentOutcomes.ApproveElsewhere | agent/src/main.rs:376-381 | Approving a held request records the window on that request alone; approving an id that waits nowhere changes nothing |
| AgentOutcomes.ApproveQueued | agent/src/main.rs:382-394 | Approving a queued request takes it out, and with a window exactly the other queued requests that a live grant covers by then |
| AgentOutcomes.SettleAnswers | agent/src/main.rs:826-848 | Every queued request that a live grant covers is answered, signed exactly when its key and flags allow it at its epoch, and its prompt is withdrawn |
| AgentOutcomes.ApprovalSettles | agent/src/main.rs:376-394 | So it is for every other request that an approval with a window settles |
| AgentOutcomes.DenyOutcome | agent/src/main.rs:395-403 | A denial takes exactly what waits under the id out of the queue, the reply map, the held requests and the listings, answers it, and leaves everything else where it is |
| AgentOutcomes.DeniedIsNeverSigned | agent/src/main.rs:395-403 | Over every run: once the id of a queued or held request is denied, its request is never signed |
| AgentLoads.PublishesIff | agent/src/load.rs:142-173 | A load publishes if and only if its payload was read, is within the size, carries this load's nonce, and its epoch is newer and its items within the limits; then exactly the usable keys sign |
| AgentLoads.FinishOutcome | agent/src/main.rs:974-1065 | A ready load opens the gate exactly when it publishes; either way no load, no held request and no listing is left, and a failed one leaves the vault locked with its public keys |
| AgentLoads.BeginOutcome | agent/src/main.rs:408-425 | A load begin closes the gate, drops queue and grants, keeps what is held, and ends the helper exactly on a second load or a malformed nonce |
| AgentLoads.LoadComes | agent/src/main.rs:426-467 | End and payload come in either order and the second settles the load; the first end starts the grace period; a failed end locks at once; an end of another load ends the helper and a payload of another is dropped |
| AgentLoads.TickOutcome | agent/src/main.rs:468-507 | After a tick exactly the queued and held requests and the listing are left whose clients are there and whose time is not over, and the grants that have not expired, with every other prompt withdrawn; a load past its grace period has failed, and then nothing is held or listed |
| AgentLoads.EveryTick | agent/src/main.rs:468-507 | So it is for every tick of every run |
| AgentLoads.WaitingAreListed | agent/src/main.rs:867-890 | Every listing that waits is answered with all the public keys, without names if it is forwarded |
| AgentLoads.LockOutcome | agent/src/main.rs:357-375 | After a lock or logout: gate closed, no load, nothing waiting, no grant, the epoch never lower, and which keys are left |
| AgentLoads.RevokeOutcome | agent/src/main.rs:405-406 | Revoking takes the one grant or all of them, and nothing else |
| AgentLoads.ControlOutcome | agent/src/main.rs:343-407 | The first hello is answered, a second or a line that cannot be read ends the helper, the options change nothing else, and after the end nothing happens |
| AgentLoops.AgentLoop.Dispatch | agent/src/main.rs:343-509 | One turn of the loop on the mutable state is the specified transition of that event, and keeps the invariant |
| AgentLoops.AgentLoop.HandleClient | agent/src/main.rs:585-593 | A sign frame becomes a request whose kind is read off its own bytes and the connection's binds |
| AgentLoops.AgentLoop.HandleSign | agent/src/main.rs:585-703 | Gate closed: hold with a fresh id, or refuse an unknown key, a wrong uid or a full queue; gate open: submit |
| AgentLoops.AgentLoop.HandleList | agent/src/main.rs:544-584 | A listing is answered from the cache, or waits on one shared unlock prompt when the cache is empty and unlock on demand is on |
| AgentLoops.AgentLoop.Ask | agent/src/main.rs:735-817 | Authorize, submit at the current epoch, then sign, queue with a prompt, consume a held approval, or refuse |
| AgentLoops.AgentLoop.ReleaseHeld | agent/src/main.rs:713-822 | The held requests are released in the order they were raised, then covered ones are settled |
| AgentLoops.AgentLoop.SettleGranted | agent/src/main.rs:826-848 | Every request the manager releases is answered once and its prompt withdrawn |
| AgentLoops.AgentLoop.AuthorizedSignature | agent/src/main.rs:1067-1078 | The reply is a signature exactly when the store still allows that epoch, key and flags |
| AgentLoops.AgentLoop.FinishLoad | agent/src/main.rs:974-1065 | A ready load publishes, opens the gate and releases what was held, or locks and refuses it |
| AgentLoops.AgentLoop.LoadPayload | agent/src/load.rs:142-173 | Decode, nonce check, begin, add every item and publish, with the store left as the failing step left it |
| AgentLoops.AgentLoop.VaultLocked | agent/src/main.rs:357-366 | The lock event: gate, load, store, queue, held requests and listings in one transition |
| AgentLoops.AgentLoop.VaultLoggedOut | agent/src/main.rs:367-375 | The logout event, at one epoch above the current one |
| AgentLoops.AgentLoop.Approve | agent/src/main.rs:376-394 | The approve event: recorded on a held request, consumed on a queued one, ignored otherwise |
| AgentLoops.AgentLoop.Deny | agent/src/main.rs:395-403 | The deny event refuses the one request with that id, wherever it is |
| AgentLoops.AgentLoop.KeyLoadBegin | agent/src/main.rs:408-425 | A load begin closes the gate, drops queue and grants and arms the nonce; a second one ends the helper |
| AgentLoops.AgentLoop.KeyLoadEnd | agent/src/main.rs:426-450 | A load end fails the load or starts the grace period and settles it if its payload is there |
| AgentLoops.AgentLoop.PayloadArrived | agent/src/main.rs:453-467 | A payload of the active load is kept and settles it; any other is dropped |
| AgentLoops.AgentLoop.Tick | agent/src/main.rs:468-507 | The tick expires, times out a load, and withdraws what its client left or its deadline ended |
| AgentLoops.AgentLoop.Shutdown | agent/src/main.rs:511-517 | The end of the loop answers everyone and logs the store out |
| AgentLoops.AgentLoop.FailPending | agent/src/main.rs:951-955 | Draining the reply map in any order refuses exactly the requests in it |
| AgentLoops.AgentLoop.CancelHeld | agent/src/main.rs:893-910 | Draining the held map in any order refuses exactly its requests and withdraws exactly their prompts |
| AgentLoops.AgentLoop.ReleaseListing | agent/src/main.rs:867-890 | Waiting listings are answered once each, forwarded ones without item names |
| Approvals.SubmitOutcome | agent/src/approvals.rs:128-166 | A submission is granted exactly when an unexpired grant covers it; otherwise queued under a new id if there is room; other requests are neither lost nor changed |
| Approvals.ApproveOutcome | agent/src/approvals.rs:169-208 | Approving takes exactly the named live request out, once, and opens at most one grant, covering what it asked for and bounded in time |
| Approvals.ReleaseOutcome | agent/src/approvals.rs:211-237 | Settling splits the live queue: what a live grant covers comes out, the rest stays |
| Approvals.SubmitVerdict | agent/src/approvals.rs:128-166 | Exactly when a submission is granted, queued under the next id with its full lifetime, or refused, by the live requests and grants |
| Approvals.ApproveOpens | agent/src/approvals.rs:169-208 | An approval with a window opens exactly one grant, for what was asked, until that many seconds from now up to the cap, if and only if the request can be granted and a grant id is left |
| Approvals.ReleaseExactly | agent/src/approvals.rs:211-237 | Settling takes out exactly the live requests that a live grant covers, in queue order |
| Approvals.RevokeTakesOne | agent/src/approvals.rs:255-257 | Revoking a grant leaves exactly the others |
| AgentObjects.ApprovalManager.Submit | agent/src/approvals.rs:128-166 | The submission in place, with its error order |
| AgentObjects.ApprovalManager.Approve | agent/src/approvals.rs:169-208 | The approval in place: expire, find, remove by position, open a grant |
| AgentObjects.ApprovalManager.ReleaseGranted | agent/src/approvals.rs:211-237 | One pass over the queue gives the released and the kept requests in order |
| AgentObjects.ApprovalManager.Expire | agent/src/approvals.rs:243-248 | Requests and grants past their time go, the rest stay in order |
| AgentObjects.ApprovalManager.ReserveRequestId | agent/src/approvals.rs:270-277 | Ids come from one counter that stops rather than wraps |
| KeyStores.PublishNeedsUndisturbedCandidate | agent/src/state.rs:33-63 | Over every sequence of moves a publish is accepted exactly when its candidate was begun and no lock, logout, newer begin or publish came since |
| KeyStores.PublishEpochsStrictlyIncrease | agent/src/state.rs:33-48 | Accepted publishes have strictly increasing epochs |
| KeyStores.NothingAllowedUntilPublish | agent/src/state.rs:50-67 | After a lock or logout the vault is unlocked only after a publish under a greater epoch |
| KeyStores.AddAllKeepsSound | agent/src/keystore.rs:116-199 | Whatever the items, a whole candidate has one private key per public identity, distinct blobs and at most `MAX_KEYS` |
| KeyStores.LoadHoldsExactly | agent/src/keystore.rs:116-199 | A whole candidate holds exactly the blobs of its items that have a usable key and need no password prompt, each listed with the id, the name cut to 256 bytes, and the fingerprint of such an item |
| KeyStores.LoadIff | agent/src/keystore.rs:230-267 | A load succeeds if and only if its epoch is newer, its payload and every item are within the limits and there are at most `MAX_KEYS` items; then exactly the usable keys sign; otherwise the public keys stay |
| KeyCandidates.LoadSigns | agent/src/keystore.rs:294-321 | After a load a blob is signed for exactly by the key of the first item that has it, without flags for Ed25519 and with one of two for RSA |
| KeyCandidates.EveryItemAccounted | agent/src/keystore.rs:116-199 | Every item of a whole load is listed, or skipped for its own reason and reported in order |
| Utf8.Truncate | agent/src/keystore.rs:134-141 | Cutting back from the limit to where a character begins leaves as many whole characters as fit |
| Utf8.FittingIsLongest | agent/src/keystore.rs:134-141 | What is left is a prefix, and a prefix fits the limit if and only if it is no longer |
| KeyStores.FindPrivateIff | agent/src/keystore.rs:294-304 | Authorization finds exactly the blobs that have a private key |
| KeyStores.LoadKeepsSound | agent/src/keystore.rs:230-266 | A load succeeds only under a greater epoch, then signing is open for exactly the listed blobs; a failed one never leaves the new keys open |
| AgentObjects.CandidateLoad.Add | agent/src/keystore.rs:116-199 | One item is added, skipped with its code, or fails the candidate, in the order of the checks |
| AgentObjects.KeyStore.BeginLoad | agent/src/keystore.rs:230-251 | A begin under a newer epoch drops the private keys before anything else is checked |
| AgentObjects.KeyStore.Publish | agent/src/keystore.rs:253-267 | Both key lists are replaced, or neither |
| AgentObjects.KeyStore.Lock | agent/src/keystore.rs:269-273 | A lock keeps the public list and drops the private one |
| AgentObjects.KeyStore.Logout | agent/src/keystore.rs:275-279 | A logout drops both |
| AgentObjects.KeyStore.Authorize | agent/src/keystore.rs:294-304 | The search finds a key exactly when the unlocked vault has one for the blob |
| AgentObjects.KeyStore.Sign | agent/src/keystore.rs:308-321 | The last check: current epoch, unlocked, key present, flags it takes |
| AgentObjects.StateTracker.BeginLoad | agent/src/state.rs:33-40 | Only a greater epoch begins a load |
| AgentObjects.StateTracker.Publish | agent/src/state.rs:42-48 | Only the epoch being loaded publishes |
| Connection.Serve | agent/src/server.rs:69-113 | After any frames, forwarded is set exactly when some frame was a forwarding bind, a refused bind, an unreadable extension or a bind past the sixteenth, and the record is the first sixteen binds |
| Connection.UnmarkedBindsAreOnRecord | agent/src/server.rs:69-113 | While a connection is not marked, every bind it sent parsed, said not forwarding, and is on record |
| Connection.MarkedForGood | agent/src/server.rs:69-113 | No later frame clears the mark |
| Wire.SignRoundTrip | agent/src/protocol.rs:231-305 | A sign request that fits a frame is read back as sent |
| Wire.SignOnlyFrame | agent/src/protocol.rs:231-305 | A frame read as a sign request is the one frame that sends it |
| Wire.BindRoundTrip | agent/src/protocol.rs:264-291 | A session bind within the limits is read back, its forwarding flag included |
| Wire.BindOnlyEncoding | agent/src/protocol.rs:264-291 | Whatever is read as a session bind is the encoding of one within the limits |
| Wire.LoginRoundTrip | agent/src/protocol.rs:146-193 | A login within the limits is read back field by field |
| Wire.LoginShownIsLoginSigned | agent/src/protocol.rs:115-193 | Data shown as a login is the login of that user with that key, and the host shown is the bound one or the one in the data, never a disagreement |
| Wire.SshSigRoundTrip | agent/src/protocol.rs:130-144 | Signature data in a displayable namespace is read back for that namespace |
| Wire.SshSigOnlyEncoding | agent/src/protocol.rs:130-144 | Whatever is read as signature data in a namespace is the encoding of such data, with one of the two hashes and no byte ignored |
| Wire.ShapesAreExclusive | agent/src/protocol.rs:115-144 | Data with the signature preamble is never read as a login |
| Wire.SignatureIsShown | agent/src/protocol.rs:115-144 | Data is shown as a signature in a namespace if and only if it is one with an allowed hash and the namespace can be shown |
| Wire.LoginIsShown | agent/src/protocol.rs:115-193 | Data of a frame is shown as a login of a user to a host if and only if it is that login with the signing key, the user can be shown, and bound host and host in the data agree |
| WireStrings.StringRoundTrip | agent/src/protocol.rs:293-305 | A length-prefixed string is read back, whatever follows it |
| Utf8.RoundTrip | agent/src/protocol.rs:223-229 | Decoding the UTF-8 of a text gives the text |
| Utf8.OnlyEncoding | agent/src/protocol.rs:223-229 | Bytes accepted as UTF-8 are the encoding of what they decode to |
| Accumulator.Feed | agent/src/runtime.rs:71-112 | For every way of cutting a stream into chunks the result is the first newline-ended line within the limit that the filter locates, from the located offset |
| Accumulator.PayloadAccumulator.Push | agent/src/runtime.rs:71-112 | One chunk: the payload of everything seen so far, or the accumulator holds exactly what a later chunk needs |
| Base64.DecodeText | agent/src/load.rs:73-98 | The group loop computes the specified decoding |
| Base64.RoundTrip | agent/src/load.rs:69-98 | Decoding the canonical encoding of any nonempty bytes gives them back |
| Base64.OnlyEncoding | agent/src/load.rs:69-98 | Any accepted text is the canonical encoding of what it decodes to |
| VaultRuns.SignalsReachTheirOwn | vault/src/main.rs:576-593 | Over every interleaving: each signal reached a child of the helper that was not reaped; every signal but a delayed kill reached the very child it was meant for, and a delayed kill did if and only if no run was started under its id between the request and the kill |
| VaultRuns.NoReuseNoMiss | vault/src/main.rs:836-844 | In an interleaving in which no run id is used twice, every signal reaches its own child |
| VaultRuns.DelayedKillHitsItsOwn | vault/src/main.rs:836-844 | Over every interleaving: a delayed kill goes to the run it was asked for if and only if no run was started under that id since |
| VaultInterleavings.DelayedKillCanMiss | vault/src/main.rs:836-844 | A concrete interleaving in which a second run under the same id and a recycled pid takes the first one's delayed kill |
| VaultRuns.ListsAndCounters | vault/src/main.rs:63-85 | Over every interleaving: no listed pid is anybody else's, each slot counter is its live slots and within its cap, at most one auto-type and at most `MAX_RUNS` runs |
| VaultRuns.RunIdsAreNotOverwritten | vault/src/main.rs:495-536 | A listed run id is never given to another run |
| VaultRuns.StoppedIff | vault/src/main.rs:952-976 | Over every interleaving: an auto-type answers "stopped" if and only if a stop took its entry and it did not both take the whole text and end with status 0; it answers "all" exactly in that last case |
| VaultRuns.FoundRunningIsStopped | vault/src/main.rs:952-976 | One that a stop found running answers "stopped" |
| VaultInterleavings.LateStop | vault/src/main.rs:952-976 | Two interleavings in which the stop finds a child that has ended: one that had typed everything answers so, one that had failed by itself answers "stopped" |
| VaultRuns.EveryRunKeeps | vault/src/main.rs:66-85 | Every interleaving of the loop, the waiting threads, the stop threads and the kernel keeps the invariant |
| VaultSignals.KillTerminates | vault/src/main.rs:274-284 | In every state the invariant allows: killing a listed run terminates its own process and leaves a stop for it; killing any other id does nothing |
| VaultSignals.StopKills | vault/src/main.rs:836-844 | A stop that fires kills what is listed under its id and group, and nothing otherwise |
| VaultSignals.TypingIsKilled | vault/src/main.rs:368-373 | Stopping the auto-type, or quitting, kills exactly the one listed and takes its entry |
| VaultSignals.QuitSignalsAll | vault/src/main.rs:169-182 | Quitting terminates every listed run, each its own process, and then kills those still listed |
| VaultSignals.RequestsAreTaken | vault/src/main.rs:478-506 | A run is taken if and only if fewer than `MAX_RUNS` are listed and its id is not; an auto-type or a detached child if and only if its slots are not used up, and then it has one |
| VaultSignals.SpawnedIsListed | vault/src/main.rs:530-541 | What was spawned is listed under its own id and pid |
| VaultSignals.EndedChildGoes | vault/src/main.rs:576-593 | A child that ended is taken off the list, reaped and answered in three steps of its own thread, and its slot is free again |
| VaultSignals.RunningChildKeepsPid | vault/src/main.rs:576-593 | A child that has not ended keeps its pid whatever anyone does |
| VaultGeneration.SessionIsOfThisVault | vault/src/main.rs:633-646 | With fewer than 2^64 forgets, the session held came from a run started after the last forget |
| VaultGeneration.ItemsAreOfThisVault | vault/src/main.rs:666-684 | With fewer than 2^64 forgets, every item held came from a run started after the last forget |
| VaultGeneration.SecretsAreKeptOnPurpose | vault/src/main.rs:647-665 | Each secret held was captured, or copied from the session key, in the vault then open, and was named in the keep list of every forget since |
| VaultGeneration.OutlivedIff | vault/src/store.rs:134-177 | A run that outlived a forget is taken for current if and only if the forgets since its start are a positive multiple of 2^64 |
| VaultGeneration.LateRunIsKept | vault/src/store.rs:170-177 | After exactly 2^64 forgets a run from before the first is taken for current and its key is held |
| VaultGeneration.Keep | vault/src/main.rs:620-685 | For each capture: the new store, what the panel is shown, and exactly when a key and when a secret was kept |
| VaultGeneration.CapturedIsNotShown | vault/src/main.rs:620-685 | Of a captured secret or answer nothing is shown, of a vault read the stripped one exactly when it is kept and otherwise the save marker or nothing, of a run without a capture everything |
| VaultGeneration.ShownHidesSecrets | vault/src/main.rs:620-685 | Outputs that differ only in what was captured, or in the secrets of the vault read, are shown the same |
| VaultGeneration.FinishedIsKept | vault/src/main.rs:620-685 | Over every interleaving: a run of the present generation that finishes leaves exactly what it captured, beside what there was; one of an earlier generation leaves nothing |
| VaultGeneration.ForgetLeaves | vault/src/store.rs:170-177 | A forget leaves exactly the secrets it names |
| VaultGeneration.EditLeaves | vault/src/store.rs:179-196 | Copying the session key, and forgetting one secret or one item, change that one thing |
| VaultSession.ExportedIsRead | vault/src/store.rs:104-117 | Every key of at least 32 token characters that is exported in quotes is the one read, whatever follows it |
| VaultSession.ExtractedIsToken | vault/src/store.rs:94-117 | Only such a key is ever read |
| VaultRedaction.RedactionHidesIff | vault/src/main.rs:633-646 | For every session key: no output from which that key is read is shown with the key in it, if and only if the key does not clash with the placeholder |
| VaultRedaction.KeysInNStayShown | vault/src/main.rs:633-646 | For every key that begins with N, an output from which it is read and which is shown with the key still in it |
| VaultStore.Store.Hold | vault/src/store.rs:292-317 | The item is held under its id in full, replacing in place or appended, with every other as it was |
| VaultStore.Store.ForgetItem | vault/src/store.rs:179-187 | The shifting loop leaves every index right: the item is deleted from the ordered map and nothing else moves |
| VaultStore.Store.Forget | vault/src/store.rs:170-177 | Everything goes but the secrets named, and the generation advances with 64-bit wrap-around |
| VaultStore.Store.HoldSession | vault/src/store.rs:190-196 | The session key is copied under a name, if there is one |
| VaultStore.Store.Item | vault/src/store.rs:198-200 | Looking up by index is looking up in the ordered map |
| VaultStore.Store.Search | vault/src/store.rs:241-258 | For a query that lowers to text without NUL, an id is found if and only if the panel's own search finds the item held under it; the ids are distinct and in load order, and all of them for an empty query |
| VaultStore.Store.StripVault | vault/src/store.rs:264-290 | A vault read is held in full, replacing or merging; what is returned has every item stripped, as many in the same order, and everything else as it was |
| VaultStore.ReadIsStripped | vault/src/store.rs:264-290 | In the read that is returned each item is its public part and flags, nothing is left at a secret path or in a hidden field, and every other element and key is unchanged |
| VaultStore.ReadHidesExactlySecrets | vault/src/store.rs:264-290 | Two vault reads are returned the same if and only if they differ at most in the secrets of their items |
| VaultStore.LoadHolds | vault/src/store.rs:264-317 | After a load each id holds in full the last SSH key read with it, else the last item, else what was held before unless the load replaces; ids and order stay in step |
| VaultStore.DeleteLeaves | vault/src/store.rs:179-187 | Deleting an item leaves exactly the others, in their order |
| VaultStore.FoundExactly | vault/src/store.rs:241-258 | Which ids a query finds, by the panel's own search |
| VaultSearch.FieldsAreSearched | BitwardenModel.js:4080-4111 | An item has a lowered field with the needle if and only if the panel's search finds it: ten fields, the full name, the websites, and the notes unless the item asks for the password |
| VaultSearch.FullNameIs | vault/src/store.rs:368-374 | A full name is its trimmed parts with one space between those that are left |
| VaultSearch.SearchIsFieldwise | vault/src/store.rs:351-383 | For a lowered nonempty needle: searching the held text finds an item exactly when one of its lowered fields has the needle or its card ends with the digits, for every item, if and only if the needle has no NUL (for any lower-casing that keeps a NUL and does not look across it) |
| VaultSearch.FoundAcrossFields | vault/src/store.rs:241-258 | For every needle with a NUL, an item that is found though no field of it has the needle |
| VaultSearch.FieldwiseIff | vault/src/store.rs:382-383 | Searching the joined text is searching each part, for every list of parts, if and only if the needle has no NUL |
| VaultStrip.StripItem | vault/src/store.rs:387-439 | The edits in place compute the stripped item |
| VaultStrip.StrippedIsPublic | vault/src/store.rs:387-439 | The edits in their order leave, key by key, exactly the public part and the flags |
| VaultStrip.StrippingHidesExactlySecrets | vault/src/store.rs:387-439 | Two items strip to the same if and only if they differ at most in secret values, hidden field values, card digits before the last four and a `qsbwHeld` of their own, with the same flags |
| VaultStrip.SecretEditIsInvisible | vault/src/store.rs:12-22 | Changing a nested secret without moving a flag does not change the stripped item |
| VaultStrip.TopEditIsInvisible | vault/src/store.rs:12-22 | Nor does changing notes or password history |
| VaultStrip.HiddenEditIsInvisible | vault/src/store.rs:425-437 | Nor does changing the value of a hidden custom field |
| VaultStrip.CardEditIsInvisible | vault/src/store.rs:411-424 | Nor does changing card digits before the last four |
| VaultStrip.NoSecretIsLeft | vault/src/store.rs:408-410 | A stripped item has nothing at any secret path |
| VaultStrip.NoHiddenValueIsLeft | vault/src/store.rs:425-437 | A hidden field of a stripped item has no value |
| VaultStrip.CardNumberLeft | vault/src/store.rs:411-424 | A card number that is text keeps its last four characters; one that is not text is kept whole |
| VaultEscape.EscapeInto | vault/src/main.rs:783-802 | The loop appends the escaped characters in order |
| VaultEscape.EscapedLen | vault/src/main.rs:769-778 | The computed length is the UTF-8 length of the escaper's output |
| VaultEscape.StringReadsBack | vault/src/main.rs:783-802 | Every string, escaped and quoted, is read by a JSON reader as itself, whatever follows |
| VaultEscape.EscapeIsOneLine | vault/src/main.rs:783-802 | The output has no character below space |
| VaultEscape.JsonLine | vault/src/main.rs:697-718 | A line never outgrows its buffer while it is built and fills it exactly |
| VaultEscape.LineIsOneLine | vault/src/main.rs:697-718 | A reply whose raw parts have no line break is one line |
| VaultEscape.PartReadsBack | vault/src/main.rs:697-718 | Every string part of a line is read back where it stands |
| Totp.DecodeKey | vault/src/totp.rs:161-177 | The 16-bit masked loop yields exactly the floor(5n/8) whole bytes of the unbounded 5-bit stream (the panel's loop is the same) |
| Totp.CounterBytes | TotpModel.js:117-122 | The two-half loop gives the eight big-endian bytes of the counter |
| Totp.NumberOfBigEndian | TotpModel.js:117-122 | Big-endian bytes read as a number give the number they were written for |
| Totp.TruncatedIs31Bits | vault/src/totp.rs:185-189 | The masked bytes are the four bytes at the offset modulo 2^31 |
| Totp.NumericCode | TotpModel.js:138-141 | The padded code has exactly `digits` decimal digits and writes the number modulo 10^digits |
| Totp.FormattedIsCode | vault/src/totp.rs:199-205 | So has the formatted one |
| Totp.CodesAgree | vault/src/totp.rs:199-205 | The helper and the panel show the same code for the same number |
| Totp.SteamCode | vault/src/totp.rs:190-198 | The Steam loop writes the number modulo 26^digits, lowest place first |
| Envelopes.EveryWayInAgrees | unlock-key/src/lib.rs:330-573 | For every sequence of operations on a created envelope: every way in present opens exactly the last created or rotated password with the key it was last added with, any other key is refused, every operation fails as the plain ledger says, credentials stay distinct and at most 16 |
| Envelopes.ApplyAgrees | unlock-key/src/lib.rs:471-573 | One operation on the envelope and on the ledger have the same outcome and leave them in agreement |
| Envelopes.OpenAgrees | unlock-key/src/lib.rs:429-466 | Opening gives what the ledger says, with the same error |
| EnvelopeOutcomes.EveryEffect | unlock-key/src/lib.rs:471-573 | After every history: an operation succeeds if and only if it is within its limits, its own way in opens, and there is room or something to remove; then exactly the ways in it is about change, every other opens as before, or the new password after a rotation; a failed one changes nothing |
| EnvelopeOutcomes.CreateEffect | unlock-key/src/lib.rs:330-354 | An envelope is made exactly within the limits, and opens with the master key alone |
| Envelopes.BuildAad | unlock-key/src/lib.rs:606-613 | The loop writes the domain and each part after its length |
| Envelopes.AadInjectiveIff | unlock-key/src/lib.rs:604-613 | Part lists with parts up to a bound encode differently if and only if the bound is at most `u32::MAX` |
| Envelopes.SameEncoding | unlock-key/src/lib.rs:606-613 | Two different lists, one with a part of 2^32 bytes, that encode the same |
| EnvelopeBinding.OtherAccountRefused | unlock-key/src/lib.rs:615-645 | With another account or server in it, no way into the envelope opens |
| EnvelopeBinding.OtherKdfRefused | unlock-key/src/lib.rs:623-633 | With other derivation parameters the master or PIN wrap refuses every key |
| EnvelopeBinding.OtherFidoRefused | unlock-key/src/lib.rs:635-645 | With another credential, relying party or salt a security-key wrap refuses every key |
| EnvelopeBinding.MovedBoxRefused | unlock-key/src/lib.rs:615-645 | A box moved between the password, master, PIN and security-key places of an envelope opens there with no key |
| EnvelopeBinding.MovedBoxDoesNotOpen | unlock-key/src/lib.rs:429-466 | No way in that goes through such a place opens the envelope |
| EnvelopeBinding.EveryEnvelopeValidates | unlock-key/src/lib.rs:366-390 | Whatever the operations make passes the validation of its fields |
| EnvelopeSize.SizeAgrees | unlock-key/src/lib.rs:392-396 | The JSON written for an envelope is exactly as long as its ledger says, whatever the nonces and ciphertexts |
| JsonText.PrintSize | unlock-key/src/lib.rs:392-396 | The computed size of a JSON value is the UTF-8 length of its text |
| EnvelopeCommands.ReadBackIff | unlock-key/src/lib.rs:357-364 | After every history of operations the written envelope is read back if and only if its length is at most 64 KiB, and is refused as against policy otherwise |
| EnvelopeCommands.Fits | unlock-key/src/lib.rs:357-364 | It is at most that long for n security keys with relying parties of c characters when n(1552 + 4c) is at most 51,000: sixteen keys with 400, nine with any allowed |
| EnvelopeCommands.CommandsAgree | unlock-key/src/main.rs:132-358 | Over every history of commands, those given another account and those that only read included, with relying parties of at most 400 characters: every command reads what the last one wrote, the envelope is what the operations for its account make, and each command is answered as their ledger says |
| EnvelopeCommands.CommandsStop | unlock-key/src/main.rs:348-358 | Any history of commands is one of the operations for its account up to where the envelope is first not read back; from there on nothing changes |
| EnvelopeCommands.AnswerAgrees | unlock-key/src/main.rs:132-225 | An envelope that is read back answers every command as its ledger says: the account check, the operation, the opening and the summary |
| EnvelopeCommands.TwelveKeysAreNotReadBack | unlock-key/src/lib.rs:703-740 | Twelve security keys within every limit can be added to any envelope, one by one, and then no command reads it again |
| UnlockObject.Envelope.Create | unlock-key/src/lib.rs:330-354 | Creation with its checks in order, under a fresh data key |
| UnlockObject.Envelope.DataKey | unlock-key/src/lib.rs:434-466 | The data key through one wrap, or why not |
| UnlockObject.Envelope.Open | unlock-key/src/lib.rs:429-432 | The password through one way in, or why not |
| UnlockObject.Envelope.AddPin | unlock-key/src/lib.rs:471-484 | Limits, the higher PIN floor, then the key; the wrap is replaced only on success |
| UnlockObject.Envelope.AddFingerprint | unlock-key/src/lib.rs:487-493 | The data key is stored only for an authorized caller |
| UnlockObject.Envelope.AddFido | unlock-key/src/lib.rs:497-527 | Field checks, the key, the cap of 16, then replace or append |
| UnlockObject.Envelope.Remove | unlock-key/src/lib.rs:530-550 | One way is removed, or is missing; the master wrap stays |
| UnlockObject.Envelope.Rotate | unlock-key/src/lib.rs:559-573 | A new password and master wrap under the same data key, so every other way stays valid |
| Supervisor.GateIffReady | BitwardenModel.js:7006-7110 | Over every sequence of events the gate is open if and only if the phase is ready |
| Supervisor.GateOpensOnGreeting | BitwardenModel.js:7051-7082 | Exactly which events open the gate and which close it |
| Supervisor.AtMostSixStarts | BitwardenModel.js:6980-7001 | From switching on, without a reset, the helper is started at most `SSH_AGENT_MAX_RESTARTS` + 1 times |
| Supervisor.AtMostSixFromAnywhere | BitwardenModel.js:6980-7001 | From any reachable state, without a reset, there are at most that many starts left |
| Supervisor.SixStartsThenFailed | BitwardenModel.js:6980-7001 | The bound is reached by a helper that dies at once, and the next exit is final |
| Supervisor.FailedStays | BitwardenModel.js:7013-7035 | Once failed, nothing but the user's switch changes the state or starts the helper |
| Supervisor.DelayGrows | BitwardenModel.js:5606-5611 | The restart delay doubles, never shrinks and stays between 500 ms and 30 s |
| Supervisor.CrashSetsDelay | BitwardenModel.js:6980-7001 | Over every sequence of events the k-th crash since the last reset waits 500 ms times 2^(k-1) and starts nothing, up to the limit; the next one is final |
| Supervisor.CountsCrashes | BitwardenModel.js:6980-7001 | The failures counted are the crashes since the last healthy run or reset |
| Supervisor.LockSetsDelay | BitwardenModel.js:7083-7096 | An exit with the lock held elsewhere waits 30 s |
| Supervisor.EveryAction | BitwardenModel.js:7006-7110 | For each action, exactly when it is taken: start, hello, stop, cancel, restart timer and message |
| Supervisor.EveryMove | BitwardenModel.js:7006-7110 | Over every sequence of events: which events move the phase, the paths of the greeting, the reason shown, and that switching off forgets everything |
| Shell.BuildCommandLine | BitwardenModel.js:483-494 | The loop writes each argument bare when it is safe and quoted otherwise |
| Shell.ShellReadsTheArguments | BitwardenModel.js:483-499 | For any argument list, empty arguments included, the shell reads `bw` and exactly those arguments, whatever redirections, control operator or end follow |
| Shell.DescriptorIsNoArgument | BitwardenModel.js:483-499 | Without a blank before it a redirection takes a last argument of digits for its descriptor |
| Shell.ScriptRunsTheArguments | BitwardenModel.js:470-499 | In the capped script, behind an error limit that does not depend on the arguments, the first command sets `pipefail` and the next is `bw` with exactly the arguments |
| Shell.CommandLineInjective | BitwardenModel.js:483-494 | Two argument lists never make the same command |
| Shell.QuoteReads | BitwardenModel.js:82-84 | A quoted value joins the word as it is, whatever it holds |
| Shell.NestedReads | BitwardenModel.js:2607-2607 | Whatever redirections, control operator or end follow, a nested script is read as `bash`, `-c` and the script itself |
| Shell.QuietNestedReads | BitwardenModel.js:2983-2988 | So it is with its output thrown away |
| Shell.NestingRoundTrip | BitwardenModel.js:2607-2607 | Quoting a script inside a script to any depth recovers the innermost one |

## Left out

- AgentLoops.AgentLoop.Dispatch: a full control channel, which ends the helper in the middle of an event, is not modelled; what was logged up to there is a prefix of a safe log, and EveryEventFits bounds what one event sends.
- Totp.DecodeKey: takes the key as bytes; a panel key with characters outside ASCII, where upper-casing can make letters, is not modelled.
- Shell.ScriptRunsTheArguments: gives no reading of the error limit itself, which uses process substitution; and an argument with a NUL, which no process can be given, is read like any other.
- Shell.ShellReadsTheArguments: knows redirections to and from plain file names and descriptors only; here-documents, appending and process substitution are no answer.
- AgentTheorems.HeldApprovalIsConsumed: a release uses one clock reading throughout, where the agent reads the clock anew for each request and again before each approval.
- AgentLoops.AgentLoop.ReleaseHeld: uses one clock reading for the whole release, where the agent reads the clock anew for each request.
- UnlockObject.Envelope.Create: takes the random data key as an argument; a failing random source is not modelled.
- The texts of prompts and announcements.
- The encoding of the identities answer and of signatures, and the signing primitives.
- Sockets, FIFOs, `/proc`, process spawning and timeouts of a connection: only the events they deliver.
- JSON parsing, and printing of control lines and items; the payload filter's own search.
- Zeroizing, core-dump hardening and self-tests, which have no effect on the state.
- Percent-decoding of PIN answers and otpauth links, HMAC and SHA.
- The envelope tool's flags, environment and hexadecimal key input; clipboard copies and the text an auto-type types.
- Everything else in `BitwardenModel.js`: the scripts it writes, matching, settings, labels and Send.
