# futchain reconciliation core, in Dafny

A model of the `x/futchain` module of futchain, a Cosmos SDK chain that acts as a
football-data oracle. On every block whose height the fetch modulo divides,
`BeginBlock` takes the leagues the feed delivers and reconciles them with the
chain's store. A league, team or match seen for the first time is saved and
announced with `new_league` or `new_match`. A match that is already stored is read
back and compared with the incoming one by the change classifier. If it changed, it
is rewritten, and announced with the classifier's event name when the change is worth
an event. The keeper also keeps a side index of unfinished matches. Four gRPC
queries read the store.

The model is organised by source file:

| Dafny module | file | source |
|---|---|---|
| `Keys` | keys.dfy | the key scheme: a kind prefix, then the 8-byte big-endian `uint64(id)` |
| `Codec` | codec.dfy | the flatbuffers encoder/decoder, as a projection onto the fields the tables keep |
| `Fotmob` | fotmob.dfy | the feed's entities, the priorities and event names, and `Match.Compare` |
| `KVStore` | kvstore.dfy | the key-value substrate: a class over a map, with injected faults and an ordered prefix scan |
| `Keeper` | keeper.dfy | the entity store: save-if-absent, reads that re-hydrate teams, the unfinished index |
| `FutchainParams` | params.dfy | the module parameters |
| `FutchainModule` | module.dfy | `BeginBlock`, as a class whose loops are proved against a fold over the leagues |
| `Queries` | queries.dfy | the four query handlers |

The support modules are `Wrappers` (Option and Result), `Errors` (the error values and
their texts), `GoInts` (Go integer widths, conversions, `%` and `strconv.Itoa`) and
`Bytes` (big-endian encoding and lexicographic byte order).

Each state-changing operation is a method of a class (`KVStore.Store`,
`Keeper.Keeper`, `FutchainModule.AppModule`). Its `ensures` ties the new state and
the results to a specification function of the old state: `SetResult`,
`SaveIfAbsent`, `ReadMatch`, `MatchStep`, `BeginBlockSpec` and so on. The lemmas
then state what the source promises in terms of those functions.

Store failures are modelled by a `Faults` value. It lists the failing
(operation, key) pairs and whether opening an iterator fails. A fault-free store is
`NoFaults`.

Behaviours of the code worth noting:

- `BeginBlock` never writes or deletes an entry of the unfinished index (`BeginBlockFrame`, `BeginBlockKeepsListing`). So a finished match stays listed, although the comment at x/futchain/keeper/types.go:26 says it should be deleted once it finishes.
- `GetMatch` takes the team names from the team records, but keeps the id and score of the match record (`ReadMatchRehydrates`).
- An unknown id is reported as an `Internal` error with the text "data cannot be empty" (`MissingMatchIsInternal`).
- A live match is announced again on every block (`OngoingMatchReannounced`).
- The default fetch modulo is zero, which makes Go's `%` panic. This is modelled as the `Panicked` outcome.

## Model

| member | source | states |
|---|---|---|
| `Errors.Message` | x/futchain/keeper/datasource/flatbuffers/encoder.go:38-40 | Every error has a non-empty text, and the text is "data cannot be empty" exactly for the empty-data error |
| `GoInts.ToInt32` | x/futchain/keeper/datasource/flatbuffers/encoder.go:26-27 | `int32(x)` is the 32-bit signed value congruent to `x` modulo 2^32, and `x` itself when it fits |
| `GoInts.ToUint64` | x/futchain/keeper/types.go:15 | `uint64(id)` is the value in [0, 2^64) congruent to `id` modulo 2^64 |
| `GoInts.ToInt64` | x/futchain/keeper/datasource.go:151 | `int(u)` is the 64-bit signed value congruent to `u` modulo 2^64 |
| `GoInts.SignedUnsignedRoundTrip` | x/futchain/keeper/datasource.go:129-151 | `int(uint64(id))` gives back `id` |
| `GoInts.ToUint64Order` | x/futchain/keeper/types.go:15 | A non-negative id maps below 2^63, a negative one at or above it |
| `GoInts.GoRem` | x/futchain/module/module.go:149 | Go's `%` truncates: the remainder has the dividend's sign, is smaller than the divisor in magnitude, and differs from the dividend by a multiple of the divisor |
| `GoInts.GoRemZeroIffDivides` | x/futchain/module/module.go:149 | The block test `height % modulo == 0` holds exactly when the modulo divides the height |
| `GoInts.ItoaInjective` | x/futchain/module/module.go:194 | Distinct ids give distinct `id` attribute values |
| `Bytes.Uint64BigEndianRoundTrip` | x/futchain/keeper/types.go:15 | Reading back the eight big-endian bytes of a `uint64` gives the number |
| `Keys.Key` | x/futchain/keeper/types.go:13-29 | A key is the kind prefix followed by eight bytes that decode to `uint64(id)` |
| `Keys.KeyLengths` | x/futchain/keeper/types.go:5-29 | Team, match, league and index keys have 12, 13, 14 and 24 bytes |
| `Keys.KeyRoundTrip` | x/futchain/keeper/types.go:13-29 | The id read back from a key is the id the key was made from |
| `Keys.KeyInjective` | x/futchain/keeper/types.go:13-29 | Within one kind, equal keys mean equal ids |
| `Keys.KindsDisjoint` | x/futchain/keeper/types.go:5-29 | Keys of different kinds never coincide |
| `Keys.UnfinishedKeysStartWithMatchPrefix` | x/futchain/keeper/types.go:7-10 | Every index key also starts with the bytes of "match" |
| `Keys.KeyOrder` | x/futchain/keeper/types.go:13-29 | Within one kind, byte order of keys is exactly the `uint64` order of the ids |
| `Keys.NegativeIdsSortLast` | x/futchain/keeper/types.go:13-29 | A negative id's key sorts after every non-negative id's key of the same kind |
| `Keys.TeamKeysFollowUnfinishedPrefix` | x/futchain/keeper/types.go:6-10 | Every team key lies after the index prefix, so inside an open-ended scan from it |
| `Keys.LeagueKeysPrecedeUnfinishedPrefix` | x/futchain/keeper/types.go:8-10 | Every league key lies before the index prefix |
| `Keys.UnfinishedKeysFollowUnfinishedPrefix` | x/futchain/keeper/types.go:27-29 | Every index key lies at or after the index prefix |
| `Fotmob.EventName` | x/futchain/keeper/datasource/fotmob.go:155-181 | Every priority's event name, read from `priorityNamer`, starts with "match_" and is longer than that prefix |
| `Fotmob.Compare` | x/futchain/keeper/datasource/fotmob.go:185-210 | No change is reported exactly when the observed fields (scores, the four flags, period length, live time) are equal; `PriorityStatus` is never returned |
| `Fotmob.CompareIsFirstDifference` | x/futchain/keeper/datasource/fotmob.go:186-209 | The result is the first differing field class in the test order score, cancelled, finished, started, ongoing, period length, live time |
| `Fotmob.CompareSymmetric` | x/futchain/keeper/datasource/fotmob.go:187-209 | Swapping incoming and stored gives the same priority |
| `Fotmob.ScoreDominates` | x/futchain/keeper/datasource/fotmob.go:188-191 | Any score difference is reported as a score change, whatever else differs |
| `Fotmob.CompareOnlyObserved` | x/futchain/keeper/datasource/fotmob.go:185-210 | Fields outside the observed ones (ids, names, times, stage, status id, the match-level ongoing flag) never affect the result |
| `Fotmob.FinishedShadowsStarted` | x/futchain/keeper/datasource/fotmob.go:194-197 | When only finished and started change, `PriorityFinished` is returned, although `PriorityStarted` is larger |
| `Fotmob.EventWorthyIffBeyondLiveTime` | x/futchain/keeper/datasource/fotmob.go:183-210 | A change reaches `MinimumEventPriority` exactly when something other than the live time differs |
| `Fotmob.OngoingChangeIsAnnounced` | x/futchain/keeper/datasource/fotmob.go:198-199 | A change of the ongoing flag is classified at `PriorityOngoing` or above, so it is worth an event |
| `Codec.EncodeTeam` | x/futchain/keeper/datasource/flatbuffers/encoder.go:13-34 | Encoding fails exactly on a nil team, and otherwise gives non-empty data |
| `Codec.EncodeStatus` | x/futchain/keeper/datasource/flatbuffers/encoder.go:53-71 | Encoding fails exactly on a nil status, and otherwise gives non-empty data |
| `Codec.EncodeMatch` | x/futchain/keeper/datasource/flatbuffers/encoder.go:91-156 | Encoding fails exactly on a nil match, and otherwise gives non-empty data |
| `Codec.EncodeLeague` | x/futchain/keeper/datasource/flatbuffers/encoder.go:224-248 | Encoding fails exactly on a nil league, and otherwise gives non-empty data |
| `Codec.DecodeTeam` | x/futchain/keeper/datasource/flatbuffers/encoder.go:36-50 | Empty data, and only empty data, fails with "data cannot be empty"; the decode succeeds exactly on a team table; anything else is undecodable |
| `Codec.DecodeStatus` | x/futchain/keeper/datasource/flatbuffers/encoder.go:73-88 | Empty data, and only empty data, fails with "data cannot be empty"; the decode succeeds exactly on a status table; anything else is undecodable |
| `Codec.DecodeMatch` | x/futchain/keeper/datasource/flatbuffers/encoder.go:158-221 | Empty data, and only empty data, fails with "data cannot be empty"; the decode succeeds exactly on a match table; anything else is undecodable |
| `Codec.DecodeLeague` | x/futchain/keeper/datasource/flatbuffers/encoder.go:250-267 | Empty data, and only empty data, fails with "data cannot be empty"; the decode succeeds exactly on a league table; anything else is undecodable |
| `Codec.TeamRoundTrip` | x/futchain/keeper/datasource/flatbuffers/encoder.go:13-50 | Decoding an encoded team gives the team with id and score truncated to 32 bits; it is the team itself when both fit |
| `Codec.StatusRoundTrip` | x/futchain/keeper/datasource/flatbuffers/encoder.go:53-88 | Decoding an encoded status gives the status as the table keeps it |
| `Codec.MatchRoundTrip` | x/futchain/keeper/datasource/flatbuffers/encoder.go:91-221 | Decoding an encoded match gives the match as the table keeps it |
| `Codec.LeagueRoundTrip` | x/futchain/keeper/datasource/flatbuffers/encoder.go:224-267 | Decoding an encoded league gives the league as the table keeps it, with no matches |
| `Codec.PersistedMatchFields` | x/futchain/keeper/datasource/flatbuffers/encoder.go:122-221 | For values that fit in 32 bits, a stored match keeps ids, time, stage, teams, flags and period length; it loses both ongoing flags, the live time and the sub-second part of the UTC time |
| `Codec.EliminatedRoundTrip` | x/futchain/keeper/datasource/flatbuffers/encoder.go:130-138 | The eliminated team id comes back nil exactly when it was nil, not an `int`/`int32`, or truncates to -1; an `int` that fits and is not -1 survives |
| `Codec.PersistedIsStable` | x/futchain/keeper/datasource/flatbuffers/encoder.go:13-267 | Storing a record that was read back changes nothing |
| `KVStore.Lookup` | x/futchain/keeper/datasource.go:67-71 | Reading a present key gives its stored value; reading an absent key gives empty data |
| `KVStore.RangeScan` | x/futchain/keeper/datasource.go:139-153 | Every scanned entry is a stored key with its stored value |
| `KVStore.RangeScanComplete` | x/futchain/keeper/datasource.go:139-153 | The open-ended scan reaches every stored key at or after its start |
| `KVStore.Store.Has` | x/futchain/keeper/datasource.go:19 | `Has` reports presence, or the injected fault's error |
| `KVStore.Store.Get` | x/futchain/keeper/datasource.go:67 | `Get` returns the value (empty when absent), or the injected fault's error |
| `KVStore.Store.Set` | x/futchain/keeper/datasource.go:30 | `Set` writes the key, or writes nothing and returns the fault's error |
| `KVStore.Store.Delete` | x/futchain/keeper/datasource.go:135 | `Delete` removes the key, or removes nothing and returns the fault's error |
| `KVStore.Store.Iterator` | x/futchain/keeper/datasource.go:139-153 | Draining an iterator from `start` visits every key from `start` on in ascending byte order with its value, or fails when opening fails |
| `Keeper.Keeper.SaveTeamIfNotExists` | x/futchain/keeper/datasource.go:17-31 | Result and new store are `SaveIfAbsent` of the team record under its key |
| `Keeper.Keeper.SaveMatchIfNotExists` | x/futchain/keeper/datasource.go:33-47 | Result and new store are `SaveIfAbsent` of the match record under its key |
| `Keeper.Keeper.SaveLeagueIfNotExists` | x/futchain/keeper/datasource.go:49-63 | Result and new store are `SaveIfAbsent` of the league record under its key |
| `Keeper.Keeper.SaveIfNotExists` | x/futchain/keeper/datasource.go:18-30 | The shared body. Presence is tested before the error, so a present key gives `(false, nil)` even when `Has` also reports an error; a failing `Has` on an absent key stops the save; otherwise the value is written and `true` is returned with `Set`'s error |
| `Keeper.Keeper.GetLeague` | x/futchain/keeper/datasource.go:65-72 | Returns `ReadLeague` of the store |
| `Keeper.Keeper.GetTeam` | x/futchain/keeper/datasource.go:113-120 | Returns `ReadTeam` of the store |
| `Keeper.Keeper.GetMatch` | x/futchain/keeper/datasource.go:74-102 | Returns `ReadMatch` of the store: the match record with its teams re-read from the team records |
| `Keeper.Keeper.SetMatch` | x/futchain/keeper/datasource.go:104-111 | Overwrites the match record unconditionally, or writes nothing on a fault |
| `Keeper.Keeper.SaveUnfinishedMatch` | x/futchain/keeper/datasource.go:122-131 | Writes the index key with the 8-byte big-endian id as its value |
| `Keeper.Keeper.DeleteUnfinishedMatch` | x/futchain/keeper/datasource.go:133-136 | Deletes the index key |
| `Keeper.Keeper.ListUnfinishedMatches` | x/futchain/keeper/datasource.go:138-155 | Returns the iterator's error, or the ids of every 8-byte value in the scan from the index prefix |
| `Keeper.CollectIds` | x/futchain/keeper/datasource.go:145-153 | The loop keeps each 8-byte value, decoded as a big-endian `int`, in scan order, and skips the others |
| `Keeper.UnfinishedIdsMembership` | x/futchain/keeper/datasource.go:146-153 | An id is collected exactly when some scanned entry has an 8-byte value that decodes to it |
| `Keeper.SaveIfAbsentWritesOnlyWhenAbsent` | x/futchain/keeper/datasource.go:17-31 | A save creates exactly when the key is absent and `Has` works; it writes at most that key, and a present key gives `(false, nil)` |
| `Keeper.SaveIfAbsentIdempotent` | x/futchain/keeper/datasource.go:17-31 | After a save without error, a second save of any value returns `(false, nil)` and changes nothing |
| `Keeper.SaveThenReadTeam` | x/futchain/keeper/datasource.go:17-120 | With no faults, a new team reads back as the codec keeps it, and an existing one reads as before |
| `Keeper.SaveThenReadLeague` | x/futchain/keeper/datasource.go:49-72 | With no faults, a new league reads back as the codec keeps it, and an existing one reads as before |
| `Keeper.AbsentReadsFail` | x/futchain/keeper/datasource.go:65-120 | Reading a team, league or match that was never written fails with "data cannot be empty" |
| `Keeper.ReadMatchRehydrates` | x/futchain/keeper/datasource.go:85-99 | A read match takes team names from the team records and ids and scores from the match record; every other field is the match record's |
| `Keeper.ReadMatchNotLive` | x/futchain/keeper/datasource.go:74-102 | A read match is never ongoing and has the zero live time |
| `Keeper.ReadMatchErrors` | x/futchain/keeper/datasource.go:74-102 | A failing `Get` or an undecodable match record is the read's error; otherwise the home team's read error, then the away team's, is the read's error; the read succeeds exactly when both team reads succeed |
| `Keeper.ReadMatchNeedsTeams` | x/futchain/keeper/datasource.go:85-96 | When either team record is missing, and nothing else fails, the match read fails with "data cannot be empty" |
| `Keeper.StoredMatchReadsBack` | x/futchain/keeper/datasource.go:17-111 | Saving both teams, then the match, makes it read back as the codec keeps it |
| `Keeper.TeamNamesAreFirstWritten` | x/futchain/keeper/datasource.go:17-91 | A team record is never overwritten, so a read match shows the first stored team name even after the feed renames the team |
| `Keeper.IndexKeys` | x/futchain/keeper/types.go:27-29 | Only index keys have the index shape, and their last eight bytes are the id's |
| `Keeper.WriteKeepsIndexShape` | x/futchain/keeper/datasource.go:122-131 | Writing a built record off the index, or an index key with its own id bytes, keeps the index invariant |
| `Keeper.DeleteKeepsIndexShape` | x/futchain/keeper/datasource.go:133-136 | Deleting any key keeps the index invariant |
| `Keeper.SaveKeepsIndexShape` | x/futchain/keeper/datasource.go:17-63 | A save of a built record off the index keeps the index invariant |
| `Keeper.SetKeepsIndexShape` | x/futchain/keeper/datasource.go:104-131 | A set of a well-formed value keeps the index invariant, whether or not it fails |
| `Keeper.IndexShapePreserved` | x/futchain/keeper/datasource.go:17-136 | Every keeper write (three saves, `SetMatch`, index add and delete) keeps the index invariant |
| `Keeper.IndexEntryKey` | x/futchain/keeper/datasource.go:122-131 | An index key whose suffix decodes to `x` is the index key of `x` |
| `Keeper.ListedIsIndexed` | x/futchain/keeper/datasource.go:138-155 | Under the index invariant, a listed id has an index entry |
| `Keeper.IndexedIsListed` | x/futchain/keeper/datasource.go:138-155 | Under the index invariant, an id with an index entry is listed |
| `Keeper.ListedIffIndexed` | x/futchain/keeper/datasource.go:122-155 | Under the index invariant, the listed ids are exactly the ids with an index entry |
| `Keeper.SavedUnfinishedIsListed` | x/futchain/keeper/datasource.go:122-155 | After a successful `SaveUnfinishedMatch`, the id is listed |
| `Keeper.DeletedUnfinishedIsUnlisted` | x/futchain/keeper/datasource.go:133-155 | After a successful `DeleteUnfinishedMatch`, the id is not listed |
| `Keeper.TeamRecordsScannedNotListed` | x/futchain/keeper/datasource.go:139-150 | The scan from the index prefix also visits team records, but skips them because a built record is never 8 bytes long |
| `FutchainParams.NewParams` | x/futchain/types/params.go:6-8 | Sets the timezone only; the fetch modulo stays zero |
| `FutchainParams.DefaultParams` | x/futchain/types/params.go:3-13 | Timezone "Europe/Istanbul" and fetch modulo zero |
| `FutchainParams.ValidateTimezone` | x/futchain/types/params.go:23-26 | Accepts every string |
| `FutchainParams.Validate` | x/futchain/types/params.go:16-22 | Accepts every parameter set, including an empty timezone and a zero modulo |
| `FutchainModule.EventManager.Emit` | x/futchain/module/module.go:172 | Appends one event to the block's list |
| `FutchainModule.AppModule.BeginBlock` | x/futchain/module/module.go:138-229 | Outcome, store and events are `BeginBlockSpec` of the old state: parameter error, panic on a zero modulo, skip when the modulo does not divide the height, fetch error, else the fold over the leagues |
| `FutchainModule.AppModule.ReconcileLeague` | x/futchain/module/module.go:161-226 | One pass of the outer loop is `LeagueStep` |
| `FutchainModule.AppModule.ReconcileMatches` | x/futchain/module/module.go:175-224 | The inner loop is `MatchesStep`, the fold of `MatchStep` over the league's matches |
| `FutchainModule.AppModule.ReconcileMatch` | x/futchain/module/module.go:176-223 | One pass of the inner loop is `MatchStep`: save both teams, then save the match as new or compare and rewrite it |
| `FutchainModule.SaveEvolves` | x/futchain/keeper/datasource.go:17-63 | A save only adds a built record under a key outside the index |
| `FutchainModule.SetMatchEvolves` | x/futchain/keeper/datasource.go:104-111 | `SetMatch` only adds or overwrites a match record |
| `FutchainModule.TeamsSavedEvolves` | x/futchain/module/module.go:177-184 | The team saves only add team records |
| `FutchainModule.TeamsSavedKeepsMatch` | x/futchain/module/module.go:177-184 | The team saves leave every match record as it was |
| `FutchainModule.CompareStoredAdvances` | x/futchain/module/module.go:195-223 | The comparison branch only rewrites the match record and appends events |
| `FutchainModule.SaveOrCompareAdvances` | x/futchain/module/module.go:186-223 | Saving or comparing the match only adds or rewrites its record and appends events |
| `FutchainModule.MatchStepAdvances` | x/futchain/module/module.go:176-223 | One match never deletes a key, never writes the index, overwrites only match records and only appends events |
| `FutchainModule.MatchesStepAdvances` | x/futchain/module/module.go:175-224 | The same holds for all matches of a league |
| `FutchainModule.LeagueStepAdvances` | x/futchain/module/module.go:163-224 | The same holds for one league |
| `FutchainModule.LeaguesStepAdvances` | x/futchain/module/module.go:161-226 | The same holds for all leagues |
| `FutchainModule.NoEffectUnlessFetchBlock` | x/futchain/module/module.go:143-159 | A block changes the state only when the parameters read, the modulo is non-zero and divides the height, and the fetch succeeds; it panics exactly on a zero modulo and fails exactly on a parameter or fetch error |
| `FutchainModule.DefaultParamsPanic` | x/futchain/module/module.go:149 | With the default parameters every block panics before fetching |
| `FutchainModule.BeginBlockFrame` | x/futchain/module/module.go:161-226 | A block only appends events, never adds, changes or removes an index entry, and never changes or removes any record other than match records |
| `FutchainModule.BeginBlockKeepsListing` | x/futchain/module/module.go:138-229 | So the index invariant holds after a block, and the unfinished listing is the same as before it |
| `FutchainModule.MatchStepEvents` | x/futchain/module/module.go:192-218 | One match appends at most one event, about itself, of kind `new_match` or a classifier name |
| `FutchainModule.CompareStoredEvents` | x/futchain/module/module.go:204-218 | The comparison branch appends at most one classifier event about the match |
| `FutchainModule.SaveOrCompareEvents` | x/futchain/module/module.go:186-218 | Saving or comparing the match appends at most one match event about it |
| `FutchainModule.MatchesStepEvents` | x/futchain/module/module.go:175-224 | A league's matches append only match events |
| `FutchainModule.NewLeagueIffCreated` | x/futchain/module/module.go:163-174 | `new_league` is emitted exactly when the league record was created without error |
| `FutchainModule.LeagueSaveFailureSkips` | x/futchain/module/module.go:163-167 | A league whose save fails is skipped with all its matches |
| `FutchainModule.NewMatchAnnounced` | x/futchain/module/module.go:186-194 | A match with a new key is written and announced once with `new_match`, whatever its team saves did |
| `FutchainModule.ExistingMatchCompared` | x/futchain/module/module.go:195-223 | A stored match is skipped on a read error; it is rewritten exactly when it changed and `SetMatch` works; it is announced with the change's name exactly when the change is worth an event |
| `FutchainModule.OngoingMatchReannounced` | x/futchain/module/module.go:197-218 | An ongoing match is classified as changed on every block, because the ongoing flag is never stored; it is rewritten, announced at `match_ongoing` or higher, and stays readable |
| `FutchainModule.SteadyMatchQuiet` | x/futchain/module/module.go:204-221 | A stored match that is not live and has values that fit is quiet: reconciling it again changes nothing |
| `Queries.CheckId` | x/futchain/keeper/query_match.go:12-18 | The guard passes exactly for a non-nil request with a positive id |
| `Queries.QueryMatch` | x/futchain/keeper/query_match.go:11-40 | A nil request is "invalid request" and a non-positive id "invalid id"; a valid request fails exactly when `GetMatch` fails, as `Internal` with the read's text; a found match is served with its names joined by " - " and its ids, scores, time and flags |
| `Queries.QueryTeam` | x/futchain/keeper/query_team.go:11-29 | The same guards; a valid request fails exactly when `GetTeam` fails, as `Internal` with the read's text; otherwise the response holds the team's id and name |
| `Queries.QueryLeague` | x/futchain/keeper/query_league.go:11-28 | The same guards; a valid request fails exactly when `GetLeague` fails, as `Internal` with the read's text; otherwise the response holds the league's id, name and group name |
| `Queries.MissingMatchIsInternal` | x/futchain/keeper/query_match.go:20-23 | An unknown match id is an `Internal` error "data cannot be empty", not a not-found error |
| `Queries.MatchResponseSources` | x/futchain/keeper/query_match.go:25-39 | The response joins the team names with " - ", takes names from the team records, and takes ids, scores, time and flags from the match record |
| `Queries.SavedTeamIsServed` | x/futchain/keeper/query_team.go:11-29 | A team saved with no faults is served back with its id and name |
| `Queries.UnfinishedMatches` | x/futchain/keeper/query_unfinished.go:11-30 | A nil request is "invalid request"; a listing error is `Internal`; otherwise the listed ids, in order |
| `Queries.ToInt64s` | x/futchain/keeper/query_unfinished.go:21-24 | The copy into a fresh `[]int64` has the same length and the same ids at every position |

## Left out

- The feed client (`Fetch` in fotmob.go): HTTP, JSON and the clock are outside the model. The fetched leagues, or the fetch error, are a parameter of `BeginBlock`, and the timezone passed to the feed is not modelled.
- The flatbuffers byte layout: a stored record is a `Built` table value, and other stored bytes are `Raw`. Decoding `Raw` non-empty bytes, or a table of another kind, gives an error. The Go decoder would instead read garbage or panic.
- `Halfs`, the logger calls, `fmt.Printf` in `SaveUnfinishedMatch`, and `iterator.Close`: they have no effect on state or results.
- helpers.go, example_usage.go, evm.go, utils.go and the keeper wiring in keeper.go are not part of this model. The `Encoder` wrappers in helpers.go are taken to call the encoder functions directly.
- Reading the parameters from the collections store: the result of `Params.Get` is a parameter of `BeginBlock`.
- Concurrency, gas, and slice aliasing between the feed's structs and the stored copies.
- `KVStore.RangeScan`: its `ensures` states only that entries come from the store. The ascending order and completeness follow from its definition, and completeness is the separate lemma `RangeScanComplete`.
- `FutchainModule.OngoingMatchReannounced`: the re-announcement is proved for one block at a time, with `Readable` preserved. Repeating it over n blocks is left to induction by the reader.
