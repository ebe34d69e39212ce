# Orbitport verification

Dafny models of the parts of Orbitport (the Rust gateway and its Go plugins) whose correctness is not visible
from one function, with proofs over all inputs, all runs and all interleavings.

| area | modules | main results |
|---|---|---|
| Deterministic randomness | `Words`, `ChaChaBlock`, `ChaChaVectors`, `ChaChaRng`, `Hex`, `MasterSeed`, `RandIndex`, `SeedAllocator`, `SeedRuns` | the in-place block is the block of section 2.3 of RFC 8439, with its test vector as a theorem, and its rounds are invertible; seeking refines reading; the answers served from a ring entry tile its keystream |
| Threshold key generation | `Permutations`, `DkgRequest`, `DkgCoordinator` | acceptance is exact and, like the seeds, independent of order; every call is in lock step; a run fails if and only if its calls show one of three causes; call counts are bounded |
| Versioned signing keys | `Signatures`, `KeyVersions`, `Rotations`, `KeyRequests` | the stored version always exists, and every signature is of the message that arrived, for the key's owner, and verifies under every public key ever returned for its version; exactly when a rotation raises or lowers the stored version, and a run in which it falls |
| Personal access tokens | `Base64`, `PatTokens`, `JwksCache`, `JwksLookups` | exactly when a token is minted; minted tokens verify under every later key set, and under every key the concurrent cache hands out |
| Gateway | `RateLimit`, `Credits`, `CreditRequests` | exact limits of the fixed window; one resolution per hold, conservation of credits, every charge and refund traced back to what the request did |
| Beacons | `BeaconChain`, `BeaconPublications`, `BeaconBlocks`, `BeaconScheduler` | every published head reaches genesis with numbers falling by one, and every length is reached; exactly when a success raises the number by one, and runs in which it does not; sends are spaced, queued once and never lost |
| Names | `Text`, `KeyNames`, `KeyStorePaths`, `KeyStoreListing` | gateway and plugin accept the same strings; names and paths round trip; listings are usable |

Two shapes recur. Code that one thread runs is a `method`, or a `class` with its fields, proved against a
specification function (`ChaCha20Rng`, `Plugin`, `RateLimiter`, `Scheduler`, the DKG coordinator, `ParseJwks`,
`ListSecrets`). Code whose calls interleave inside a request is a machine: a `World`, a `Step` for every access
to shared state, `Enabled`, `Apply`, and `Run` over a sequence of steps; an invariant is kept by each step, and
the theorems quantify over every run (`SeedRuns`, `KeyVersions`, `JwksCache`, `Credits`, `BeaconChain`). The theorems tie answers to
the steps themselves, not to what a machine remembers of them, and runs show that the good outcomes are reached.
Where a property fails, a run from the initial world shows it and a theorem over every run says exactly when it holds.

What lies outside is a parameter or a choice of the step: replies of nodes and backends, clocks, random words,
lost answers, the signature scheme (only that its signatures verify), HMAC (any function), JSON of a token header
(only that it can be read back), content addresses (only that they are injective).

`dafny verify dfyconfig.toml` checks the whole project.

## Model

| member | source | states |
|---|---|---|
| ChaChaBlock.QuarterRoundExample | plugins/pkg/chacha20/chacha20_rng.go:125-149 | the quarter round maps the words of section 2.1.1 of RFC 8439 to the result printed there |
| ChaChaBlock.QuarterRoundUndone | plugins/pkg/chacha20/chacha20_rng.go:125-141 | running the eight operations backwards undoes a quarter round, for any invertible add and mix |
| ChaChaBlock.MixUndone | plugins/pkg/chacha20/chacha20_rng.go:125-149 | xor and rotate by 16, 12, 8 or 7 is undone by rotating back and xoring again, for all words |
| ChaChaBlock.PermuteUndone | plugins/pkg/chacha20/chacha20_rng.go:79-97 | the 20 rounds are a bijection on all 16-word states: the inverse undoes them and they undo the inverse |
| ChaChaBlock.DistinctCountersNeverCollide | plugins/pkg/chacha20/chacha20_rng.go:79-108 | for one key, two different 64-bit counters never give the same state before the feed-forward |
| ChaChaBlock.BlockIsRfc8439Block | plugins/pkg/chacha20/chacha20_rng.go:79-108 | below counter 2^32 the block is the block function of section 2.3 of RFC 8439 with a zero nonce |
| ChaChaVectors.BlockVector | plugins/pkg/chacha20/chacha20_rng.go:79-108 | the block for the key, counter and nonce of section 2.3.2 of RFC 8439 is the 64 bytes printed there |
| ChaChaVectors.PermuteIsTenDoubleRounds | plugins/pkg/chacha20/chacha20_rng.go:81-91 | the rounds are ten column and diagonal rounds in turn, written out |
| ChaChaVectors.BlockWord | plugins/pkg/chacha20/chacha20_rng.go:79-103 | for every state, the bytes of output word i spell the sum modulo 2^32 of word i after ten double rounds and word i of the state |
| ChaChaBlock.ColumnsInSequence | plugins/pkg/chacha20/chacha20_rng.go:84-91 | the four in-place column rounds in sequence are the column round of the whole state |
| ChaChaBlock.DiagonalsInSequence | plugins/pkg/chacha20/chacha20_rng.go:84-91 | the four in-place diagonal rounds in sequence are the diagonal round of the whole state |
| ChaChaBlock.QuarterRoundInPlace | plugins/pkg/chacha20/chacha20_rng.go:125-141 | the array changes at its four indexes by the quarter round and nowhere else |
| ChaChaBlock.PermuteInPlace | plugins/pkg/chacha20/chacha20_rng.go:79-97 | the loop over the array computes the 20-round permutation |
| ChaChaBlock.GenerateBlock | plugins/pkg/chacha20/chacha20_rng.go:79-108 | the buffer holds the block of the state: rounds, feed-forward, little-endian bytes |
| ChaChaRng.KeystreamPeriodic | plugins/pkg/chacha20/chacha20_rng.go:110-119 | the keystream repeats exactly with the 64-bit block counter |
| ChaChaRng.ReadsCompose | plugins/pkg/chacha20/chacha20_rng.go:58-75 | m bytes and then n bytes are the m + n bytes read at once, across counter wrap-around too |
| ChaChaRng.ChaCha20Rng.constructor | plugins/pkg/chacha20/chacha20_rng.go:30-56 | a new generator stands at position 0 of its key's keystream |
| ChaChaRng.ChaCha20Rng.IncrementCounter | plugins/pkg/chacha20/chacha20_rng.go:110-119 | the two-word increment with carry is the successor of the 64-bit counter, wrapping to 0 |
| ChaChaRng.ChaCha20Rng.RefillBlock | plugins/pkg/chacha20/chacha20_rng.go:77-108 | the buffer becomes the block of the old counter, the counter its successor |
| ChaChaRng.ChaCha20Rng.BufferIsKeystream | plugins/pkg/chacha20/chacha20_rng.go:60-108 | in every valid state the unread buffer is the keystream from the current position |
| ChaChaRng.ChaCha20Rng.FillBytes | plugins/pkg/chacha20/chacha20_rng.go:58-75 | the destination gets exactly the next bytes of the keystream and the position advances by their number |
| ChaChaRng.ChaCha20Rng.SetCounter | plugins/pkg/chacha20/chacha20_rng.go:156-162 | the counter words hold the given counter and the buffer is spent |
| ChaChaRng.ChaCha20Rng.DiscardBytesFast | plugins/pkg/chacha20/chacha20_rng.go:164-198 | from every valid state and for every 64-bit n the position moves by n modulo the period |
| ChaChaRng.SeekAgreesWithReading | plugins/pkg/chacha20/chacha20_rng.go:164-198 | after skipping n bytes a generator yields the same output as one that read and dropped n bytes |
| Hex.HexRoundTrip | plugins/pkg/plugin/masterseed/master_seed.go:17-31 | decoding the hex text of any bytes gives the bytes back |
| Hex.DecodesExactly | plugins/pkg/plugin/masterseed/master_seed.go:17-31 | text decodes if and only if it is pairs of hexadecimal digits, and then spells its bytes up to case |
| MasterSeed.SeedOfKey | plugins/pkg/plugin/masterseed/master_seed.go:17-31 | the hex text of a 32-byte key parses to that key |
| MasterSeed.SeedExactly | plugins/pkg/plugin/masterseed/master_seed.go:17-31 | a seed parses if and only if it is 64 hexadecimal digits, and spells its key up to case |
| MasterSeed.MulChecked | plugins/pkg/plugin/masterseed/plugin.go:285-293 | the product, exactly when it fits 64 bits, by dividing instead of overflowing |
| MasterSeed.AddChecked | plugins/pkg/plugin/masterseed/plugin.go:295-300 | the sum, exactly when it fits 64 bits |
| MasterSeed.DeriveBulkAtOffset | plugins/pkg/plugin/masterseed/master_seed.go:36-73 | output i is the hex text of its own slice of the seed's keystream at the offset; all error cases |
| MasterSeed.DerivesExactlyWhen | plugins/pkg/plugin/masterseed/master_seed.go:36-58 | success, in numbers: no outputs asked for, or at most 2^63 - 1 bytes and a seed of 64 hexadecimal digits; the default length is 32 |
| MasterSeed.DerivesFromKey | plugins/pkg/plugin/masterseed/master_seed.go:36-73 | output i is the hex text of bytes offset + i * len onwards of the keystream of the key that the seed spells |
| MasterSeed.ReadAt | plugins/pkg/plugin/masterseed/master_seed.go:60-64 | seeking a fresh generator and filling reads the keystream at that offset |
| MasterSeed.OutputsTileKeystream | plugins/pkg/plugin/masterseed/master_seed.go:36-73 | decoded and concatenated, the outputs of one call are one contiguous keystream range |
| RandIndex.UniformlyDistributed | plugins/pkg/plugin/masterseed/plugin.go:181-200 | each index is selected by exactly limit/n of the accepted 32-bit words |
| RandIndex.LimitIsLargestMultiple | plugins/pkg/plugin/masterseed/plugin.go:185-188 | words are accepted below the largest multiple of n that is a 32-bit word |
| RandIndex.UniformExactlyBelowTwo32 | plugins/pkg/plugin/masterseed/plugin.go:181-200 | all n indexes are equally likely if and only if n fits 32 bits; beyond that the cut to 32 bits leaves some out |
| RandIndex.AtLeastHalfAccepted | plugins/pkg/plugin/masterseed/plugin.go:181-200 | at least half of all 32-bit words are accepted |
| RandIndex.CryptoRandIndex | plugins/pkg/plugin/masterseed/plugin.go:181-200 | the index is the residue of the first accepted word by n cut to 32 bits; it fails only on n below 1, a multiple of 2^32 or a failing source |
| SeedAllocator.Plugin.constructor | plugins/pkg/plugin/masterseed/plugin.go:31-70 | each parameter is the configured one if it is in range and otherwise 32, 100 or 25000; the ring is empty |
| SeedAllocator.Plugin.AddMasterSeed | plugins/pkg/plugin/masterseed/plugin.go:136-155 | bad seeds change nothing; a good one enters at offset 0 and the oldest entry leaves when the ring is full |
| SeedAllocator.Plugin.ReserveSeedOffset | plugins/pkg/plugin/masterseed/plugin.go:209-254 | success moves one drawn entry's cursor by the range it returns; failure changes nothing and has a stated cause |
| SeedAllocator.ReservedDerives | plugins/pkg/plugin/masterseed/plugin.go:257-280 | after a granted reservation the derivation cannot fail any more |
| SeedAllocator.Plugin.GetSeeds | plugins/pkg/plugin/masterseed/plugin.go:257-280 | a reply has as many outputs as were asked for (one if none) and is the derivation of exactly the range reserved for it; an error leaves the ring unchanged and has a stated cause |
| SeedRuns.RunKeepsInv | plugins/pkg/plugin/masterseed/plugin.go:136-280 | in every run, what was handed out of each entry in reservation order is its keystream up to its cursor |
| SeedRuns.ReplyIsItsRange | plugins/pkg/plugin/masterseed/plugin.go:257-280 | every reply succeeds and decodes to exactly its reserved range, however late it is derived |
| SeedRuns.ServedIsKeystreamPrefix | plugins/pkg/plugin/masterseed/plugin.go:209-280 | the decoded answers of an entry, concatenated in reservation order, are keystream[0..offset): no gap, no overlap, no counter wrap |
| SeedRuns.ServedIsOfItsKey | plugins/pkg/plugin/masterseed/plugin.go:209-280 | the same for the key that the entry's seed spells: what is served is that key's own keystream |
| SeedRuns.RunFollowsSteps | plugins/pkg/plugin/masterseed/plugin.go:136-254 | entry e is the e-th good seed inserted, and grant k has the count of the k-th reservation |
| SeedRuns.RangesAreDisjoint | plugins/pkg/plugin/masterseed/plugin.go:209-254 | two ranges granted on one entry never overlap, answered or not |
| SeedRuns.EvictedEntriesAreFrozen | plugins/pkg/plugin/masterseed/plugin.go:136-155 | eviction carries an entry's cursor unchanged, and no later step moves it |
| DkgRequest.FromProto | plugins/pkg/plugin/threshold/plugin.go:97-169 | accepts exactly the acceptable requests and returns the canonical one |
| DkgRequest.Collect | plugins/pkg/plugin/threshold/plugin.go:124-163 | the loop accepts exactly when all members are valid and ids and indexes are distinct |
| DkgRequest.SortByPartyIndex | plugins/pkg/plugin/threshold/plugin.go:165-167 | the result is sorted by index and a permutation of the input |
| DkgRequest.CanonicalIndexes | plugins/pkg/plugin/threshold/plugin.go:117-169 | accepted indexes are a permutation of 0..n-1: participant i has index i and carries the trimmed id, address and mount of the member that claimed it |
| DkgRequest.CanonicalIdsDistinct | plugins/pkg/plugin/threshold/plugin.go:117-169 | ordered participants have distinct node ids |
| DkgRequest.OrderIsIrrelevant | plugins/pkg/plugin/threshold/plugin.go:97-169 | permuting the participants changes neither acceptance nor the accepted request |
| DkgCoordinator.CallWithRetry | plugins/pkg/plugin/threshold/coordinator.go:234-279 | between one and max(1, retryAttempts) equal calls, before the last only transport failures and statuses 408, 429 and 500 up, and no call after the context ended in a backoff; gives up for one of three reasons |
| DkgCoordinator.AskParticipant | plugins/pkg/plugin/threshold/coordinator.go:158-198 | a node hands over its round output or the last call explains the failure |
| DkgCoordinator.CollectOutputs | plugins/pkg/plugin/threshold/coordinator.go:158-198 | outputs of exactly the participants, each handed over in the trace, after the previous round was delivered |
| DkgCoordinator.DeliverToReceiver | plugins/pkg/plugin/threshold/coordinator.go:200-232 | one receiver has had every other node's message, and nobody its own |
| DkgCoordinator.DeliverRound | plugins/pkg/plugin/threshold/coordinator.go:200-232 | on success every ordered pair of different nodes has had its delivery; n(n-1) operations |
| DkgCoordinator.NewBootstrap | plugins/pkg/plugin/threshold/coordinator.go:120-143 | the nested loop fills a matrix whose row i holds the pair seeds with exactly the other nodes |
| DkgCoordinator.SeedMatrixIsSymmetric | plugins/pkg/plugin/threshold/coordinator.go:120-143 | the matrix is symmetric and has no diagonal |
| DkgCoordinator.SeedMatrixIsUnique | plugins/pkg/plugin/threshold/coordinator.go:120-156 | settings and request fix the whole matrix |
| DkgCoordinator.OrderKeepsSeeds | plugins/pkg/plugin/threshold/coordinator.go:120-143 | permuting the participants of an accepted request leaves the seed matrix unchanged |
| DkgCoordinator.CheckAgreement | plugins/pkg/plugin/threshold/coordinator.go:91-105 | whatever the order of the map, success exactly when all completed with one non-empty public key |
| DkgCoordinator.OutputsAreUnique | plugins/pkg/plugin/threshold/coordinator.go:158-198 | a trace fixes each node's output of a round, so "the sender's broadcast" is one value |
| DkgCoordinator.CollectAndDeliver | plugins/pkg/plugin/threshold/coordinator.go:57-90 | a round ends delivered, or in a stated failure |
| DkgCoordinator.CoordinateDKG | plugins/pkg/plugin/threshold/coordinator.go:57-113 | for any replies: lock step at every call, each with the reply it got; at least 3n²+n and at most max(1, retryAttempts) times that many calls; success has exactly the participants in agreement; with distinct ids a run fails if and only if its trace shows a cause |
| DkgCoordinator.SuccessIsNotBlamed | plugins/pkg/plugin/threshold/coordinator.go:57-113 | a successful trace shows none of the causes: no bad last call, no missing message in any round, no disagreement |
| DkgCoordinator.CoordinateDkg | plugins/pkg/plugin/threshold/plugin.go:60-95 | a rejected request makes no call; an accepted one runs in lock step in the session fixed by its canonical participants, common seed and seed matrix, fails if and only if the trace shows a cause, and succeeds only with one non-empty key |
| KeyVersions.PublicKeyIsOfVersion | plugins/pkg/plugin/kms/openbao.go:169-180 | a public key found for version v is the key of version v, never of the latest one by mistake |
| KeyVersions.PublicKeyIsFound | plugins/pkg/plugin/kms/openbao.go:169-180 | a key is found if and only if the backend shows one for that version, as the latest or in its list |
| KeyVersions.ScopedKeysAreDistinct | plugins/pkg/plugin/kms/tenant.go:26-32 | paths with equally long namespaces have different backend keys |
| KeyVersions.NextRequestOk | plugins/pkg/plugin/kms/transit_provider.go:20-184 | after each backend call, what the request carries on is consistent with the backend it leaves behind |
| KeyVersions.StepKeepsInv | plugins/pkg/plugin/kms/plugin.go:143-392 | every call of create, rotate, sign and get-public-key, successful, failed or with a lost answer, keeps the invariant |
| KeyVersions.RunKeepsInv | plugins/pkg/plugin/kms/plugin.go:143-392 | the invariant holds after every interleaving |
| KeyVersions.PrimaryVersionExists | plugins/pkg/plugin/kms/plugin.go:356-392 | the stored primary version stays between 1 and the backend's latest, even when rotations overwrite each other |
| KeyVersions.SignaturesVerify | plugins/pkg/plugin/kms/plugin.go:143-171 | every signature returned with version v verifies under every public key ever returned for version v of that key |
| KeyRequests.AnswersBelongToRequests | plugins/pkg/plugin/kms/plugin.go:143-330 | in every run, each signature answers a request that arrived for that message, each public key one for that version (or for the stored one), and the key was created by that client or for nobody |
| KeyRequests.ArrivedMessageVerifies | plugins/pkg/plugin/kms/transit_provider.go:98-117 | the message that a client sent verifies with the signature it got, under every public key returned for its version |
| KeyRequests.SigningWorks | plugins/pkg/plugin/kms/plugin.go:143-330 | a run from the empty world: a created key signs the message that was sent, and its public key is returned |
| Rotations.StoredIsLastStored | plugins/pkg/plugin/kms/plugin.go:356-392 | in every run, what is stored under a path is what the last put of any request stored there |
| Rotations.RotationIsNewer | plugins/pkg/plugin/kms/transit_provider.go:175-184 | a rotation carries a newer version than any stored when it made its rotate call |
| Rotations.RotationRaisesExactlyWhen | plugins/pkg/plugin/kms/plugin.go:356-392 | in every run, a rotation's put raises the stored version if and only if there was no store under the path since its rotate call or the last one was older, and lowers it if and only if that one was newer |
| Rotations.CreationLowersExactlyWhen | plugins/pkg/plugin/kms/plugin.go:221-283 | the same for the put of a creation that found the path free: first store, or lowering exactly a newer one stored since |
| Rotations.OlderRotationMayWin | plugins/pkg/plugin/kms/plugin.go:356-392 | the stored version need not grow: in a run from the empty world it is 3, and the put of the slower rotation makes it 2 |
| Base64.DecodersAgree | plugins/pkg/plugin/patissuer/transit.go:261-278 | each of the four decoders inverts its own encoder, and on another's text yields the same bytes or nothing |
| Base64.Examples | plugins/pkg/plugin/patissuer/transit.go:261-278 | vectors of section 10 of RFC 4648 and of both alphabets |
| PatTokens.ItoaRoundTrip | plugins/pkg/plugin/patissuer/transit.go:61-138 | a decimal kid is made of digits and reads back as its version |
| PatTokens.EnvelopeIsStripped | plugins/pkg/plugin/patissuer/transit.go:261-278 | whichever base64 variant the backend answers in, the token gets the base64url text of the same bytes |
| PatTokens.OnlyEnvelopesAreStripped | plugins/pkg/plugin/patissuer/transit.go:261-278 | nothing but `vault:` version `:` and text that one of the decoders reads is accepted |
| PatTokens.MintsExactlyWhen | plugins/pkg/plugin/patissuer/transit.go:61-138 | a token is minted if and only if the key is P-256, the version read still exists, and its signature has 64 bytes |
| PatTokens.MintedTokenParses | plugins/pkg/plugin/patissuer/transit.go:61-138 | every minted token parses to its header, the given claims and a signature of exactly 64 bytes |
| PatTokens.CompactRoundTrip | plugins/pkg/plugin/patissuer/transit.go:61-138 | parsing the compact serialization of section 7.1 of RFC 7515 gives header, payload, signing input and signature back |
| PatTokens.MintedToken | plugins/pkg/plugin/patissuer/transit.go:61-138 | a minted token is signed by the version its kid names, although the key may have been rotated since |
| PatTokens.KeyIsPublished | plugins/pkg/plugin/patissuer/transit.go:140-187 | the key set holds every version under its own kid, none overwritten by another |
| PatTokens.MintedTokensVerify | plugins/pkg/plugin/patissuer/transit.go:61-230 | under any rotations a minted token verifies under the key published for its kid in every key set read no earlier than its key read |
| JwksCache.ParseJwks | plugins/pkg/plugin/auth/pat.go:154-193 | succeeds exactly when all usable entries are well formed and there is one; the last entry of a kid counts |
| JwksCache.PublishedSetIsRead | plugins/pkg/plugin/auth/pat.go:154-193 | the entries of a published key set parse back to the published pairs |
| JwksCache.StepKeepsInv | plugins/pkg/plugin/auth/pat.go:97-151 | every step of any lookup, rotation, delay and failure keeps the cache's invariant |
| JwksCache.RunKeepsInv | plugins/pkg/plugin/auth/pat.go:97-151 | the invariant holds after every interleaving |
| JwksCache.FetchesAreSpaced | plugins/pkg/plugin/auth/pat.go:125-151 | fetches i and j are at least (j - i) * minRefresh apart and never go back to an older key set |
| JwksCache.FoundKeyIsCurrent | plugins/pkg/plugin/auth/pat.go:75-121 | a returned key is the one of the latest fetch at a moment of the lookup, as the issuer published it, at most five minutes old when judged |
| JwksCache.DueLookupsFindTheirKey | plugins/pkg/plugin/auth/pat.go:97-151 | a lookup begun with no refresh under way, at least minRefresh after the last fetch, for a published kid, is never told that the kid is unknown |
| JwksLookups.AnswersBelongToLookups | plugins/pkg/plugin/auth/pat.go:97-121 | each answer is to a lookup that arrived for that kid, and what it says about its start is how things stood then |
| JwksLookups.HitNeedsNoFetch | plugins/pkg/plugin/auth/pat.go:97-108 | a key held for at most five minutes is handed out without a fetch |
| JwksLookups.MissIsThrottled | plugins/pkg/plugin/auth/pat.go:109-112 | an unknown kid does not reach the issuer while the last fetch is younger than the throttle |
| JwksLookups.ColdLookupFetches | plugins/pkg/plugin/auth/pat.go:97-151 | with an empty cache a lookup for a published kid fetches once and finds its key |
| JwksCache.MintedTokenPassesCache | plugins/pkg/plugin/auth/pat.go:97-151 | any key the cache returns for the kid of a minted token verifies that token |
| RateLimit.RateLimiter.Check | gateway/src/filters.rs:461-491 | the verdict is that of the token's own request history; other tokens are untouched |
| RateLimit.WindowsAreApart | gateway/src/filters.rs:472-480 | every request lies in its window, and a window starts only after the previous one has run out |
| RateLimit.WindowLimit | gateway/src/filters.rs:472-487 | a window accepts at most max requests if and only if it has fewer than 2^32 of them; then exactly min(n, max) |
| RateLimit.WrapLetsOneMoreThrough | gateway/src/filters.rs:480-487 | 2^32 requests in one window get max + 1 through, because the counter wraps |
| RateLimit.SpanLimit | gateway/src/filters.rs:461-491 | any span no longer than the window has at most 2 * max - 1 accepted requests (none if max is 0) |
| RateLimit.SpanLimitIsReached | gateway/src/filters.rs:461-491 | for every max and window there are requests that reach this bound |
| Credits.StepKeepsInv | gateway/src/server.rs:322-562 | every step of every request, delivery and sweep keeps the protocol's invariant |
| Credits.RunKeepsInv | gateway/src/server.rs:322-562 | the invariant holds after every run |
| Credits.OneCallPerHold | gateway/src/filters.rs:371-458 | a hold gets at most one settle or release call, and a settle exactly when its request's execution succeeded |
| CreditRequests.CallsFollowExecution | gateway/src/server.rs:322-562 | a settle goes back to an execution that succeeded, a release to a failed execution or check |
| CreditRequests.HoldsBelongToRequests | gateway/src/filters.rs:288-368 | every hold is for a request that arrived, with its client and units, and for an RPC request only after validation |
| CreditRequests.OnlyCutRequestsLeaveHolds | gateway/src/server.rs:377-562 | a request that ends with an unresolved hold was dropped, or is a REST request that could not be parsed |
| CreditRequests.SuccessIsCharged | gateway/src/server.rs:341-357 | a run in which a successful RPC request is charged its units |
| CreditRequests.FailureIsRefunded | gateway/src/server.rs:377-430 | a run in which a REST request that fails a check gets its units back |
| CreditRequests.LedgerActsOnHeldRows | plugins/proto/plugins/account_grpc.pb.go:35-45 | a release refunds a held row, a settle commits it |
| Credits.FinishedHoldsAreResolved | gateway/src/server.rs:495-562 | a request that finishes with a hold has settled it on success and released it on failure, never both |
| Credits.RejectedRequestsHoldNothing | gateway/src/server.rs:331-339 | requests that fail validation or are refused have no hold |
| Credits.CreditsAreConserved | plugins/proto/plugins/account_grpc.pb.go:35-45 | balance plus pending plus charged of each client never changes, with late, repeated and lost calls and the sweeper |
| Credits.OnlySuccessIsCharged | gateway/src/filters.rs:371-373 | only successful requests are charged, each once and its own hold; charges never exceed the holds of successful requests |
| Credits.VerdictsAreFinal | plugins/proto/plugins/account_grpc.pb.go:39-45 | what is charged or refunded stays so: a settle that arrives after the sweeper charges nothing |
| BeaconChain.AddKeepsStore | plugins/pkg/plugin/beacon/builder.go:156-187 | adding a block that continues a stored one, or a genesis block, keeps the store a set of chains |
| BeaconChain.StepKeepsInv | plugins/pkg/plugin/beacon/builder.go:113-213 | every call of any execution or creation, also with a lost answer, keeps the invariant |
| BeaconChain.RunKeepsInv | plugins/pkg/plugin/beacon/plugin.go:95-206 | the invariant holds after every interleaving |
| BeaconChain.HeadsReachGenesis | plugins/pkg/plugin/beacon/builder.go:126-197 | each published head reaches genesis, numbers falling by one modulo 2^64; the number is the length exactly while that is below 2^64 |
| BeaconChain.OnlyOneLength | plugins/pkg/plugin/beacon/types.go:21-25 | a block reaches genesis in only one number of links |
| BeaconPublications.SuccessRaisesByOne | plugins/pkg/plugin/beacon/builder.go:126-213 | a published head continues the head that was read; it continues the head it replaces if and only if that is the head that was read, and the number rises by exactly one if and only if the replaced head carries the number that was read; undisturbed, both hold |
| BeaconPublications.SameBaseSameNumber | plugins/pkg/plugin/beacon/builder.go:87-95 | overlapping executions that read one head publish the same number |
| BeaconPublications.OverlapDoesNotAddUp | plugins/pkg/plugin/beacon/builder.go:87-95 | from a beacon of any length there is a run in which two executions read one head, both succeed, and the second leaves the number where the first has put it |
| BeaconPublications.EveryLengthIsReached | plugins/pkg/plugin/beacon/builder.go:113-213 | for every n, a creation and n executions give a head n links away from genesis |
| BeaconPublications.NumberWrapsAround | plugins/pkg/plugin/beacon/builder.go:156-160 | after 2^64 executions the head is 2^64 links away from genesis and numbered 0 |
| BeaconBlocks.BlocksCarryTheirInputs | plugins/pkg/plugin/beacon/builder.go:143-206 | every stored block is a genesis block of a creation or carries exactly the values and the time of its own execution; heads are published under the name of an execution or creation |
| BeaconScheduler.Scheduler.CheckAndTriggerBeacons | plugins/pkg/plugin/beacon/scheduler.go:90-125 | a tick is its visits in order, with the builder receiving in between |
| BeaconScheduler.Scheduler.SetLastExec | plugins/pkg/plugin/beacon/scheduler.go:153-158 | the time of one beacon changes and nothing else |
| BeaconScheduler.QueueIsFifo | plugins/pkg/plugin/beacon/scheduler.go:25-40 | the queue never exceeds 16, and every event sent is received or queued, once and in order |
| BeaconScheduler.TicksCompose | plugins/pkg/plugin/beacon/scheduler.go:54-65 | ticks one after the other are one sequence of visits |
| BeaconScheduler.SendsAreSpaced | plugins/pkg/plugin/beacon/scheduler.go:90-125 | any two sends of a beacon are at least its interval apart |
| BeaconScheduler.FullQueueChangesNothing | plugins/pkg/plugin/beacon/scheduler.go:108-123 | a visit that finds the queue full leaves the noted times alone, so the beacon stays due |
| BeaconScheduler.DueIsSentOnceThereIsRoom | plugins/pkg/plugin/beacon/scheduler.go:98-123 | a beacon whose interval has passed is sent, noted and queued last at its first visit with room |
| KeyNames.ReferencesAgree | gateway/src/services/kms.rs:1396-1404 | the gateway accepts a key reference if and only if the plugin resolves it |
| KeyNames.AliasAccepted | plugins/pkg/plugin/kms/plugin.go:505-521 | accepted aliases are exactly 1 to 128 letters, digits, dots and dashes, in bytes as in characters |
| KeyNames.AliasExactly | plugins/pkg/plugin/kms/tenant.go:63-69 | accepted, without the spaces around it, if and only if that leaves 1 to 128 of those characters |
| KeyNames.ReferenceExactly | plugins/pkg/plugin/kms/tenant.go:42-61 | a reference resolves to an alias if and only if it is that alias, with or without `kms:` and spaces |
| Text.TrimsExactly | plugins/pkg/plugin/kms/tenant.go:63-69 | trimming takes away all spaces around a text and nothing else |
| KeyNames.ResolutionIsIdempotent | plugins/pkg/plugin/kms/tenant.go:42-69 | the id and the alias that a reference resolves to both resolve to the same key again |
| KeyNames.NamespacesAreDistinct | plugins/pkg/plugin/kms/tenant.go:14-24 | equal namespaces come from digests with equal first halves |
| KeyNames.BackendKeysAreDistinct | plugins/pkg/plugin/kms/tenant.go:26-32 | different namespaces or different aliases never share a backend key |
| KeyStorePaths.NamesAgree | gateway/src/services/kms.rs:1350-1394 | gateway and plugin accept the same entry names and the same prefixes |
| KeyStorePaths.NameAccepted | plugins/pkg/plugin/kms/key_store.go:130-148 | a name is accepted, trimmed and otherwise unchanged, if and only if it is 1 to 256 characters of valid segments |
| KeyStorePaths.PrefixAccepted | plugins/pkg/plugin/kms/key_store.go:150-165 | a prefix is accepted if and only if it is empty or a name once spaces and slashes around it are gone |
| KeyStorePaths.NameExactly | plugins/pkg/plugin/kms/key_store.go:130-175 | the same in full: lengths, characters and forbidden segments spelled out |
| KeyStorePaths.NameRoundTrip | plugins/pkg/plugin/kms/key_store_openbao.go:137-149 | splitting an accepted name succeeds and joining the segments gives the name back |
| KeyStorePaths.CleanKeepsSegments | plugins/pkg/plugin/kms/openbao.go:402-410 | path cleaning leaves valid segments as they are, whatever precedes them |
| KeyStorePaths.PathIsHeadThenTail | plugins/pkg/plugin/kms/key_store_openbao.go:117-135 | a backend path is the cleaned base and mount, then kind, owner and the name's segments unchanged |
| KeyStorePaths.PathsInFull | plugins/pkg/plugin/kms/key_store_openbao.go:117-135 | for a plain mount the paths are v1/mount/data/owners/owner/name and v1/mount/metadata/owners/owner with or without a name |
| KeyStorePaths.PathsAreDistinct | plugins/pkg/plugin/kms/key_store_openbao.go:117-135 | equal paths have the same kind, the same owner and the same name |
| KeyStorePaths.NamespaceIsSegment | plugins/pkg/plugin/kms/tenant.go:14-24 | an owner's namespace is a valid path segment |
| KeyStoreListing.ListSecrets | plugins/pkg/plugin/kms/key_store_openbao.go:65-107 | the sorted names of exactly the safe keys that are short enough |
| KeyStoreListing.ListedNamesComeFromKeys | plugins/pkg/plugin/kms/key_store_openbao.go:65-107 | a name is listed if and only if one of the keys is listed under it |
| KeyStoreListing.ListedExactly | plugins/pkg/plugin/kms/key_store_openbao.go:78-104 | a key is listed if and only if its segment is valid and its name has at most 256 characters, under that name, folders with a slash |
| KeyStoreListing.AtMostIsLexicographic | plugins/pkg/plugin/kms/key_store_openbao.go:105-106 | the order of the listing is lexicographic |
| KeyStoreListing.ListedEntryIsReachable | plugins/pkg/plugin/kms/key_store_openbao.go:65-107 | a listed entry is accepted unchanged by both validators, and its path is the listed prefix's path with the raw key appended |
| KeyStoreListing.ListedFolderIsPrefix | plugins/pkg/plugin/kms/key_store_openbao.go:65-107 | a listed folder is a prefix that both validators accept, one segment further down |
| KeyStoreListing.ListedIsInjective | plugins/pkg/plugin/kms/key_store_openbao.go:151-161 | different keys are listed under different names |

## Left out

- HTTP, gRPC, warp filters, metrics, logging, configuration loading and generated code.
- SHA-256, HMAC, ECDSA, ML-KEM and JSON internals; pair seeds of different node pairs are not claimed to differ.
- The OpenBao, dashboard and IPFS backends beyond what the models need: append-only versions, the documented idempotent ledger with its sweeper, a content-addressed store with names.
- Uniqueness of outputs across two ring entries that hold the same seed: every insertion starts at offset 0, so the allocator theorems are stated for each entry.
- Panics: a ring whose length is a multiple of 2^32 makes `cryptoRandIndex` divide by zero, and here that is an error result.
- JwksCache, KeyVersions, Credits and BeaconChain: they are machines over values instead of classes with methods, because their requests interleave inside a call; aliasing of the shared maps is not modelled.
- DkgCoordinator.AskParticipant: a client implementation that answers round 4 with a nil status would make the coordinator dereference it; here that is an error result. The OpenBao client never does (`plugins/pkg/plugin/threshold/openbao.go:95-103`).
- Claim checks of `validatePAT` (issuer, audience, expiry) and the Auth0 path.
- The key lookup of the metadata record's own public-key field and `exportedPublicKey`; only keys by version are modelled.
- That every hold is resolved by the gateway: REST holds are placed before query and body are parsed and rely on the sweeper (`gateway/src/server.rs:102-134`); the model has them end without a call.
- The order of the checks inside the REST handlers and the contents of query and body; a check either passes or fails.
- Overflow of the rate limiter's counter in debug builds, where it panics; the model is the release build, where it wraps.
- Percent-encoding of paths by `url.String`; segments need none.
- Equivalence of key creation between gateway and plugin: the gateway trims the scheme and the plugin does not.
- Capability tables, key-spec mappings, Cedar policies, Ethereum and PQC providers, encryption and data keys, health waiters, token managers: case tables or library calls.
- The form of block links: a block links to the path of its predecessor (`/ipfs/` and the address, `plugins/pkg/plugin/ipfs/plugin.go:246-249`), while adding a block answers with the bare address; the model uses the address for both.
- IPFS caches, the beacon registry and the fetching of random values for a block.
