/**
 * The keeper's entity store (x/futchain/keeper/datasource.go): save-if-absent
 * for teams, matches and leagues, reads that re-hydrate a match's teams from
 * the team records, an unconditional match overwrite, and the side index of
 * unfinished matches with its prefix scan.
 *
 * Each operation is specified by a function of the store contents and its
 * faults; the `Keeper` methods are proved to compute exactly that, and the
 * lemmas below state what the functions promise.
 */
module Keeper {
  import opened Wrappers
  import opened GoInts
  import opened Bytes
  import opened Errors
  import opened Keys
  import opened Fotmob
  import opened Codec
  import opened KVStore

  type Data = map<Bytes, Blob>

  /** The outcome of a save-if-absent: whether it wrote, its error, and the store after it. */
  datatype Saved = Saved(created: bool, err: Option<Error>, data: Data)

  // ---------------------------------------------------------------------
  // Specification functions
  // ---------------------------------------------------------------------

  /**
   * `Save*IfNotExists`: presence is tested before the error, so a present
   * key gives `(false, nil)` even when `Has` also reports an error; a failing
   * `Has` on an absent key stops the save; otherwise the value is written
   * and `true` is reported together with whatever error `Set` returns.
   */
  function SaveIfAbsent(data: Data, f: Faults, key: Bytes, value: Blob): Saved
  {
    var (found, err) := HasResult(data, f, key);
    if found then Saved(false, None, data)
    else if err.Some? then Saved(false, err, data)
    else
      var (data', err') := SetResult(data, f, key, value);
      Saved(true, err', data')
  }

  function TeamBlob(t: Team): (b: Blob)
    ensures b.Built?
  {
    EncodeTeam(Some(t)).value
  }

  function MatchBlob(m: Match): (b: Blob)
    ensures b.Built?
  {
    EncodeMatch(Some(m)).value
  }

  function LeagueBlob(l: League): (b: Blob)
    ensures b.Built?
  {
    EncodeLeague(Some(l)).value
  }

  /** The 8-byte value of an index entry: `binary.BigEndian.PutUint64(val, uint64(id))`. */
  function IndexValue(id: Int64): Blob
  {
    Raw(Uint64ToBigEndian(ToUint64(id)))
  }

  function ReadTeam(data: Data, f: Faults, id: Int64): Result<Team, Error>
  {
    var got := GetResult(data, f, Key(TeamKind, id));
    if got.Err? then Err(got.error) else DecodeTeam(got.value)
  }

  function ReadLeague(data: Data, f: Faults, id: Int64): Result<League, Error>
  {
    var got := GetResult(data, f, Key(LeagueKind, id));
    if got.Err? then Err(got.error) else DecodeLeague(got.value)
  }

  /**
   * `GetMatch`: the match record, whose home and away teams are replaced by
   * the team records stored under their ids, keeping the id and score the
   * match record holds.
   */
  function ReadMatch(data: Data, f: Faults, id: Int64): Result<Match, Error>
  {
    var got := GetResult(data, f, Key(MatchKind, id));
    if got.Err? then Err(got.error)
    else
      var decoded := DecodeMatch(got.value);
      if decoded.Err? then Err(decoded.error)
      else
        var m := decoded.value;
        var home := ReadTeam(data, f, m.home.id);
        if home.Err? then Err(home.error)
        else
          var away := ReadTeam(data, f, m.away.id);
          if away.Err? then Err(away.error)
          else
            Ok(m.(home := home.value.(score := m.home.score, id := m.home.id),
                  away := away.value.(score := m.away.score, id := m.away.id)))
  }

  /** The ids `ListUnfinishedMatches` collects from scanned entries: every 8-byte value, read as a big-endian `int`. */
  function UnfinishedIdsOf(entries: seq<(Bytes, Blob)>): seq<Int64>
  {
    if entries == [] then []
    else
      var rest := UnfinishedIdsOf(entries[..|entries| - 1]);
      var v := entries[|entries| - 1].1;
      if v.Raw? && |v.bytes| == 8 then rest + [ToInt64(BigEndianToUint64(v.bytes))] else rest
  }

  lemma UnfinishedIdsSnoc(entries: seq<(Bytes, Blob)>, e: (Bytes, Blob))
    ensures UnfinishedIdsOf(entries + [e]) ==
      UnfinishedIdsOf(entries) + (if e.1.Raw? && |e.1.bytes| == 8 then [ToInt64(BigEndianToUint64(e.1.bytes))] else [])
  {
    assert (entries + [e])[..|entries|] == entries;
  }

  ghost function ListedIds(data: Data, f: Faults): Result<seq<Int64>, Error>
  {
    if f.scan then Err(IteratorFailure) else Ok(UnfinishedIdsOf(RangeScan(data, UnfinishedPrefix)))
  }

  // ---------------------------------------------------------------------
  // The keeper
  // ---------------------------------------------------------------------

  class Keeper {
    const store: Store

    constructor (store: Store)
      ensures this.store == store
    {
      this.store := store;
    }

    method SaveTeamIfNotExists(team: Team) returns (created: bool, err: Option<Error>)
      modifies store
      ensures Saved(created, err, store.data) == SaveIfAbsent(old(store.data), store.faults, Key(TeamKind, team.id), TeamBlob(team))
    {
      created, err := SaveIfNotExists(Key(TeamKind, team.id), TeamBlob(team));
    }

    method SaveMatchIfNotExists(m: Match) returns (created: bool, err: Option<Error>)
      modifies store
      ensures Saved(created, err, store.data) == SaveIfAbsent(old(store.data), store.faults, Key(MatchKind, m.id), MatchBlob(m))
    {
      created, err := SaveIfNotExists(Key(MatchKind, m.id), MatchBlob(m));
    }

    method SaveLeagueIfNotExists(league: League) returns (created: bool, err: Option<Error>)
      modifies store
      ensures Saved(created, err, store.data) == SaveIfAbsent(old(store.data), store.faults, Key(LeagueKind, league.id), LeagueBlob(league))
    {
      created, err := SaveIfNotExists(Key(LeagueKind, league.id), LeagueBlob(league));
    }

    /** The body the three `Save*IfNotExists` share. */
    method SaveIfNotExists(key: Bytes, value: Blob) returns (created: bool, err: Option<Error>)
      modifies store
      ensures Saved(created, err, store.data) == SaveIfAbsent(old(store.data), store.faults, key, value)
    {
      var found, hasErr := store.Has(key);
      if found {
        return false, None;
      } else if hasErr.Some? {
        return false, hasErr;
      }
      err := store.Set(key, value);
      created := true;
    }

    method GetLeague(id: Int64) returns (r: Result<League, Error>)
      ensures r == ReadLeague(store.data, store.faults, id)
    {
      var got := store.Get(Key(LeagueKind, id));
      if got.Err? {
        return Err(got.error);
      }
      r := DecodeLeague(got.value);
    }

    method GetTeam(id: Int64) returns (r: Result<Team, Error>)
      ensures r == ReadTeam(store.data, store.faults, id)
    {
      var got := store.Get(Key(TeamKind, id));
      if got.Err? {
        return Err(got.error);
      }
      r := DecodeTeam(got.value);
    }

    method GetMatch(id: Int64) returns (r: Result<Match, Error>)
      ensures r == ReadMatch(store.data, store.faults, id)
    {
      var got := store.Get(Key(MatchKind, id));
      if got.Err? {
        return Err(got.error);
      }
      var decoded := DecodeMatch(got.value);
      if decoded.Err? {
        return Err(decoded.error);
      }
      var m := decoded.value;
      var home := GetTeam(m.home.id);
      if home.Err? {
        return Err(home.error);
      }
      var away := GetTeam(m.away.id);
      if away.Err? {
        return Err(away.error);
      }
      m := m.(home := home.value.(score := m.home.score, id := m.home.id),
              away := away.value.(score := m.away.score, id := m.away.id));
      return Ok(m);
    }

    /** Overwrites the match record unconditionally. */
    method SetMatch(m: Match) returns (err: Option<Error>)
      modifies store
      ensures (store.data, err) == SetResult(old(store.data), store.faults, Key(MatchKind, m.id), MatchBlob(m))
    {
      err := store.Set(Key(MatchKind, m.id), MatchBlob(m));
    }

    method SaveUnfinishedMatch(m: Match) returns (err: Option<Error>)
      modifies store
      ensures (store.data, err) == SetResult(old(store.data), store.faults, Key(UnfinishedKind, m.id), IndexValue(m.id))
    {
      err := store.Set(Key(UnfinishedKind, m.id), IndexValue(m.id));
    }

    method DeleteUnfinishedMatch(id: Int64) returns (err: Option<Error>)
      modifies store
      ensures (store.data, err) == DeleteResult(old(store.data), store.faults, Key(UnfinishedKind, id))
    {
      err := store.Delete(Key(UnfinishedKind, id));
    }

    /** Scans from the index prefix with no upper bound and keeps every 8-byte value. */
    method ListUnfinishedMatches() returns (r: Result<seq<Int64>, Error>)
      ensures r == ListedIds(store.data, store.faults)
    {
      var scanned := store.Iterator(UnfinishedPrefix);
      if scanned.Err? {
        return Err(scanned.error);
      }
      var ids := CollectIds(scanned.value);
      return Ok(ids);
    }
  }

  /** The loop over the iterator: every 8-byte value, decoded, in scan order; other values are skipped. */
  method CollectIds(entries: seq<(Bytes, Blob)>) returns (ids: seq<Int64>)
    ensures ids == UnfinishedIdsOf(entries)
  {
    ids := [];
    var i := 0;
    while i < |entries|
      invariant 0 <= i <= |entries|
      invariant ids == UnfinishedIdsOf(entries[..i])
    {
      assert entries[..i + 1] == entries[..i] + [entries[i]];
      UnfinishedIdsSnoc(entries[..i], entries[i]);
      var v := entries[i].1;
      if v.Raw? && |v.bytes| == 8 {
        ids := ids + [ToInt64(BigEndianToUint64(v.bytes))];
      }
      i := i + 1;
    }
    assert entries[..i] == entries;
  }

  // ---------------------------------------------------------------------
  // Save-if-absent
  // ---------------------------------------------------------------------

  /** A save writes exactly when the key is absent and `Has` works, and then only that key. */
  lemma SaveIfAbsentWritesOnlyWhenAbsent(data: Data, f: Faults, key: Bytes, value: Blob)
    ensures var s := SaveIfAbsent(data, f, key, value);
      && (s.created <==> key !in data && !Fails(f, HasOp, key))
      && (s.data != data ==> s.created && s.err == None)
      && (s.data == data || s.data == data[key := value])
      && (key in data ==> s == Saved(false, None, data))
  {
  }

  /** Saving twice: the second save reports no creation, no error, and keeps the first value. */
  lemma SaveIfAbsentIdempotent(data: Data, f: Faults, key: Bytes, v1: Blob, v2: Blob)
    requires SaveIfAbsent(data, f, key, v1).err == None
    ensures var s := SaveIfAbsent(data, f, key, v1);
      && key in s.data
      && SaveIfAbsent(s.data, f, key, v2) == Saved(false, None, s.data)
  {
  }

  /** With no faults on the key, a saved team reads back as the codec keeps it, or as first stored. */
  lemma SaveThenReadTeam(data: Data, f: Faults, t: Team)
    requires Key(TeamKind, t.id) !in data ==> !Fails(f, HasOp, Key(TeamKind, t.id)) && !Fails(f, SetOp, Key(TeamKind, t.id))
    requires !Fails(f, GetOp, Key(TeamKind, t.id))
    ensures var s := SaveIfAbsent(data, f, Key(TeamKind, t.id), TeamBlob(t));
      && s.err == None
      && (Key(TeamKind, t.id) !in data ==> s.created && ReadTeam(s.data, f, t.id) == Ok(PersistedTeam(t)))
      && (Key(TeamKind, t.id) in data ==> !s.created && ReadTeam(s.data, f, t.id) == ReadTeam(data, f, t.id))
  {
    TeamRoundTrip(t);
  }

  /** The same for leagues: a saved league reads back as the codec keeps it, or as first stored. */
  lemma SaveThenReadLeague(data: Data, f: Faults, l: League)
    requires Key(LeagueKind, l.id) !in data ==> !Fails(f, HasOp, Key(LeagueKind, l.id)) && !Fails(f, SetOp, Key(LeagueKind, l.id))
    requires !Fails(f, GetOp, Key(LeagueKind, l.id))
    ensures var s := SaveIfAbsent(data, f, Key(LeagueKind, l.id), LeagueBlob(l));
      && s.err == None
      && (Key(LeagueKind, l.id) !in data ==> s.created && ReadLeague(s.data, f, l.id) == Ok(PersistedLeague(l)))
      && (Key(LeagueKind, l.id) in data ==> !s.created && ReadLeague(s.data, f, l.id) == ReadLeague(data, f, l.id))
  {
    LeagueRoundTrip(l);
  }

  /** Reading a key that was never written fails with "data cannot be empty". */
  lemma AbsentReadsFail(data: Data, f: Faults, id: Int64)
    ensures Key(TeamKind, id) !in data && !Fails(f, GetOp, Key(TeamKind, id)) ==> ReadTeam(data, f, id) == Err(EmptyData)
    ensures Key(LeagueKind, id) !in data && !Fails(f, GetOp, Key(LeagueKind, id)) ==> ReadLeague(data, f, id) == Err(EmptyData)
    ensures Key(MatchKind, id) !in data && !Fails(f, GetOp, Key(MatchKind, id)) ==> ReadMatch(data, f, id) == Err(EmptyData)
  {
  }

  // ---------------------------------------------------------------------
  // Match re-hydration
  // ---------------------------------------------------------------------

  /**
   * A read match's teams carry the names of the team records, not of the
   * match record; its ids and scores come from the match record.
   */
  lemma ReadMatchRehydrates(data: Data, f: Faults, id: Int64)
    requires ReadMatch(data, f, id).Ok?
    ensures var m := ReadMatch(data, f, id).value;
      var stored := DecodeMatch(Lookup(data, Key(MatchKind, id))).value;
      && DecodeMatch(Lookup(data, Key(MatchKind, id))).Ok?
      && m.home.id == stored.home.id && m.home.score == stored.home.score
      && m.away.id == stored.away.id && m.away.score == stored.away.score
      && m.home.name == ReadTeam(data, f, stored.home.id).value.name
      && m.home.longName == ReadTeam(data, f, stored.home.id).value.longName
      && m.away.name == ReadTeam(data, f, stored.away.id).value.name
      && m.away.longName == ReadTeam(data, f, stored.away.id).value.longName
      && m.(home := stored.home, away := stored.away) == stored
  {
  }

  /** A read match never shows a live match: neither ongoing flag nor the live time is stored. */
  lemma ReadMatchNotLive(data: Data, f: Faults, id: Int64)
    requires ReadMatch(data, f, id).Ok?
    ensures !ReadMatch(data, f, id).value.status.ongoing && !ReadMatch(data, f, id).value.ongoing
    ensures ReadMatch(data, f, id).value.status.liveTime == NoLiveTime
  {
  }

  /**
   * How `GetMatch` fails: a failing `Get` or an undecodable match record is
   * the read's error; otherwise the home team's read error, then the away
   * team's, is the read's error; the read succeeds exactly when both team
   * records can be read.
   */
  lemma ReadMatchErrors(data: Data, f: Faults, id: Int64)
    ensures var got := GetResult(data, f, Key(MatchKind, id));
      var r := ReadMatch(data, f, id);
      && (got.Err? ==> r == Err(got.error))
      && (got.Ok? && DecodeMatch(got.value).Err? ==> r == Err(DecodeMatch(got.value).error))
      && (got.Ok? && DecodeMatch(got.value).Ok? ==>
            var stored := DecodeMatch(got.value).value;
            var home := ReadTeam(data, f, stored.home.id);
            var away := ReadTeam(data, f, stored.away.id);
            && (home.Err? ==> r == Err(home.error))
            && (home.Ok? && away.Err? ==> r == Err(away.error))
            && (r.Ok? <==> home.Ok? && away.Ok?))
  {
  }

  /**
   * A match read needs both team records: when either is missing, and the
   * team reads do not fail for another reason, the read reports empty data.
   */
  lemma ReadMatchNeedsTeams(data: Data, f: Faults, id: Int64)
    requires !Fails(f, GetOp, Key(MatchKind, id))
    requires DecodeMatch(Lookup(data, Key(MatchKind, id))).Ok?
    requires var stored := DecodeMatch(Lookup(data, Key(MatchKind, id))).value;
      && (Key(TeamKind, stored.home.id) !in data || Key(TeamKind, stored.away.id) !in data)
      && !Fails(f, GetOp, Key(TeamKind, stored.home.id))
      && !Fails(f, GetOp, Key(TeamKind, stored.away.id))
      && (Key(TeamKind, stored.home.id) in data ==> DecodeTeam(data[Key(TeamKind, stored.home.id)]).Ok?)
    ensures ReadMatch(data, f, id) == Err(EmptyData)
  {
  }

  /**
   * Storing the two teams and then the match, with no faults, makes the
   * match read back as the codec keeps it, provided the ids fit in 32 bits
   * (the table's width) and the two teams are distinct.
   */
  lemma StoredMatchReadsBack(data: Data, m: Match)
    requires FitsInt32(m.id) && FitsInt32(m.home.id) && FitsInt32(m.away.id) && m.home.id != m.away.id
    requires Key(TeamKind, m.home.id) !in data && Key(TeamKind, m.away.id) !in data
    ensures var d1 := SaveIfAbsent(data, NoFaults, Key(TeamKind, m.home.id), TeamBlob(m.home)).data;
      var d2 := SaveIfAbsent(d1, NoFaults, Key(TeamKind, m.away.id), TeamBlob(m.away)).data;
      var d3 := SetResult(d2, NoFaults, Key(MatchKind, m.id), MatchBlob(m)).0;
      ReadMatch(d3, NoFaults, m.id) == Ok(PersistedMatch(m))
  {
    MatchRoundTrip(m);
    TeamRoundTrip(m.home);
    TeamRoundTrip(m.away);
    KindsDisjoint(TeamKind, MatchKind, m.home.id, m.id);
    KindsDisjoint(TeamKind, MatchKind, m.away.id, m.id);
    if Key(TeamKind, m.home.id) == Key(TeamKind, m.away.id) {
      KeyInjective(TeamKind, m.home.id, m.away.id);
    }
  }

  /**
   * A team record is written once: when the match names its team differently
   * later, the re-hydrated match still shows the first stored name.
   */
  lemma TeamNamesAreFirstWritten(data: Data, m: Match, first: Team)
    requires FitsInt32(m.id) && FitsInt32(m.home.id) && FitsInt32(m.away.id) && first.id == m.home.id
    requires m.home.id != m.away.id && Key(TeamKind, m.away.id) in data
    requires Key(TeamKind, m.home.id) in data && data[Key(TeamKind, m.home.id)] == TeamBlob(first)
    requires DecodeTeam(data[Key(TeamKind, m.away.id)]).Ok?
    ensures var d1 := SaveIfAbsent(data, NoFaults, Key(TeamKind, m.home.id), TeamBlob(m.home)).data;
      var d2 := SetResult(d1, NoFaults, Key(MatchKind, m.id), MatchBlob(m)).0;
      && ReadMatch(d2, NoFaults, m.id).Ok?
      && ReadMatch(d2, NoFaults, m.id).value.home.name == first.name
  {
    MatchRoundTrip(m);
    TeamRoundTrip(first);
    KindsDisjoint(TeamKind, MatchKind, m.home.id, m.id);
    KindsDisjoint(TeamKind, MatchKind, m.away.id, m.id);
  }

  // ---------------------------------------------------------------------
  // The unfinished-match index
  // ---------------------------------------------------------------------

  lemma {:induction false} UnfinishedIdsMembership(entries: seq<(Bytes, Blob)>, x: Int64)
    ensures x in UnfinishedIdsOf(entries) <==>
      exists i :: 0 <= i < |entries| && entries[i].1.Raw? && |entries[i].1.bytes| == 8
                  && ToInt64(BigEndianToUint64(entries[i].1.bytes)) == x
  {
    if entries != [] {
      var n := |entries| - 1;
      var front := entries[..n];
      UnfinishedIdsMembership(front, x);
      if x in UnfinishedIdsOf(front) {
        var i :| 0 <= i < |front| && front[i].1.Raw? && |front[i].1.bytes| == 8
                 && ToInt64(BigEndianToUint64(front[i].1.bytes)) == x;
        assert entries[i] == front[i];
      }
      if exists i :: 0 <= i < |entries| && entries[i].1.Raw? && |entries[i].1.bytes| == 8
                     && ToInt64(BigEndianToUint64(entries[i].1.bytes)) == x {
        var i :| 0 <= i < |entries| && entries[i].1.Raw? && |entries[i].1.bytes| == 8
                 && ToInt64(BigEndianToUint64(entries[i].1.bytes)) == x;
        if i < n {
          assert front[i] == entries[i];
        }
      }
    }
  }

  /** An index key: the index prefix followed by eight bytes. */
  predicate IsIndexKey(k: Bytes)
  {
    |k| == 24 && k[..16] == UnfinishedPrefix
  }

  /**
   * The shape the keeper's own writes give the store: the 8-byte values are
   * exactly the index entries, and each holds the id bytes of its key.
   */
  predicate IndexShape(data: Data)
  {
    forall k :: k in data ==>
      (IsIndexKey(k) <==> data[k].Raw? && |data[k].bytes| == 8) &&
      (IsIndexKey(k) ==> data[k].bytes == k[16..])
  }

  lemma IndexKeys(kind: Kind, id: Int64)
    ensures IsIndexKey(Key(kind, id)) <==> kind == UnfinishedKind
    ensures kind == UnfinishedKind ==> Key(kind, id)[16..] == Uint64ToBigEndian(ToUint64(id))
  {
    KeyLengths(id);
  }

  lemma WriteKeepsIndexShape(data: Data, key: Bytes, v: Blob)
    requires IndexShape(data)
    requires IsIndexKey(key) ==> v == Raw(key[16..])
    requires !IsIndexKey(key) ==> v.Built?
    ensures IndexShape(data[key := v])
  {
  }

  lemma DeleteKeepsIndexShape(data: Data, key: Bytes)
    requires IndexShape(data)
    ensures IndexShape(data - {key})
  {
  }

  lemma SaveKeepsIndexShape(data: Data, f: Faults, key: Bytes, v: Blob)
    requires IndexShape(data) && !IsIndexKey(key) && v.Built?
    ensures IndexShape(SaveIfAbsent(data, f, key, v).data)
  {
    WriteKeepsIndexShape(data, key, v);
  }

  lemma SetKeepsIndexShape(data: Data, f: Faults, key: Bytes, v: Blob)
    requires IndexShape(data)
    requires IsIndexKey(key) ==> v == Raw(key[16..])
    requires !IsIndexKey(key) ==> v.Built?
    ensures IndexShape(SetResult(data, f, key, v).0)
  {
    WriteKeepsIndexShape(data, key, v);
  }

  /** Every keeper write keeps the index shape. */
  lemma IndexShapePreserved(data: Data, f: Faults, kind: Kind, id: Int64, t: Team, m: Match, l: League)
    requires IndexShape(data)
    ensures IndexShape(SaveIfAbsent(data, f, Key(TeamKind, id), TeamBlob(t)).data)
    ensures IndexShape(SaveIfAbsent(data, f, Key(MatchKind, id), MatchBlob(m)).data)
    ensures IndexShape(SaveIfAbsent(data, f, Key(LeagueKind, id), LeagueBlob(l)).data)
    ensures IndexShape(SetResult(data, f, Key(MatchKind, id), MatchBlob(m)).0)
    ensures IndexShape(SetResult(data, f, Key(UnfinishedKind, id), IndexValue(id)).0)
    ensures IndexShape(DeleteResult(data, f, Key(kind, id)).0)
  {
    IndexKeys(TeamKind, id);
    IndexKeys(MatchKind, id);
    IndexKeys(LeagueKind, id);
    IndexKeys(UnfinishedKind, id);
    SaveKeepsIndexShape(data, f, Key(TeamKind, id), TeamBlob(t));
    SaveKeepsIndexShape(data, f, Key(MatchKind, id), MatchBlob(m));
    SaveKeepsIndexShape(data, f, Key(LeagueKind, id), LeagueBlob(l));
    SetKeepsIndexShape(data, f, Key(MatchKind, id), MatchBlob(m));
    SetKeepsIndexShape(data, f, Key(UnfinishedKind, id), IndexValue(id));
    DeleteKeepsIndexShape(data, Key(kind, id));
  }

  /** The key of an index entry is the index key of the id its value holds. */
  lemma IndexEntryKey(k: Bytes, x: Int64)
    requires IsIndexKey(k) && ToInt64(BigEndianToUint64(k[16..])) == x
    ensures k == Key(UnfinishedKind, x)
  {
    var u := BigEndianToUint64(k[16..]);
    BigEndianUint64RoundTrip(k[16..]);
    SignedUnsignedRoundTrip(x, u);
    IndexKeys(UnfinishedKind, x);
    assert Key(UnfinishedKind, x) == UnfinishedPrefix + k[16..];
    assert k == UnfinishedPrefix + k[16..];
  }

  /** A listed id has an index entry. */
  lemma ListedIsIndexed(data: Data, f: Faults, x: Int64)
    requires IndexShape(data) && !f.scan
    requires x in ListedIds(data, f).value
    ensures Key(UnfinishedKind, x) in data
  {
    var scan := RangeScan(data, UnfinishedPrefix);
    UnfinishedIdsMembership(scan, x);
    var i :| 0 <= i < |scan| && scan[i].1.Raw? && |scan[i].1.bytes| == 8
             && ToInt64(BigEndianToUint64(scan[i].1.bytes)) == x;
    var k := scan[i].0;
    assert k in data && data[k] == scan[i].1;
    assert IsIndexKey(k) && data[k].bytes == k[16..];
    IndexEntryKey(k, x);
  }

  /** An index entry is listed. */
  lemma IndexedIsListed(data: Data, f: Faults, x: Int64)
    requires IndexShape(data) && !f.scan
    requires Key(UnfinishedKind, x) in data
    ensures x in ListedIds(data, f).value
  {
    var scan := RangeScan(data, UnfinishedPrefix);
    var key := Key(UnfinishedKind, x);
    IndexKeys(UnfinishedKind, x);
    UnfinishedKeysFollowUnfinishedPrefix(x);
    RangeScanComplete(data, UnfinishedPrefix, key);
    var i :| 0 <= i < |scan| && scan[i].0 == key;
    assert scan[i].1.bytes == Uint64ToBigEndian(ToUint64(x));
    Uint64BigEndianRoundTrip(ToUint64(x));
    SignedUnsignedRoundTrip(x, ToUint64(x));
    UnfinishedIdsMembership(scan, x);
  }

  /** Under the index shape, the listed ids are exactly the ids with an index entry. */
  lemma ListedIffIndexed(data: Data, f: Faults, x: Int64)
    requires IndexShape(data) && !f.scan
    ensures x in ListedIds(data, f).value <==> Key(UnfinishedKind, x) in data
  {
    if x in ListedIds(data, f).value {
      ListedIsIndexed(data, f, x);
    }
    if Key(UnfinishedKind, x) in data {
      IndexedIsListed(data, f, x);
    }
  }

  /** A successful `SaveUnfinishedMatch` puts the id in the listing. */
  lemma SavedUnfinishedIsListed(data: Data, f: Faults, id: Int64)
    requires IndexShape(data) && !f.scan && !Fails(f, SetOp, Key(UnfinishedKind, id))
    ensures id in ListedIds(SetResult(data, f, Key(UnfinishedKind, id), IndexValue(id)).0, f).value
  {
    var data' := SetResult(data, f, Key(UnfinishedKind, id), IndexValue(id)).0;
    IndexShapePreserved(data, f, UnfinishedKind, id, Team(0, 0, "", ""), ZeroMatch(), ZeroLeague());
    ListedIffIndexed(data', f, id);
  }

  /** A successful `DeleteUnfinishedMatch` takes the id out of the listing. */
  lemma DeletedUnfinishedIsUnlisted(data: Data, f: Faults, id: Int64)
    requires IndexShape(data) && !f.scan && !Fails(f, DeleteOp, Key(UnfinishedKind, id))
    ensures id !in ListedIds(DeleteResult(data, f, Key(UnfinishedKind, id)).0, f).value
  {
    var data' := DeleteResult(data, f, Key(UnfinishedKind, id)).0;
    IndexShapePreserved(data, f, UnfinishedKind, id, Team(0, 0, "", ""), ZeroMatch(), ZeroLeague());
    ListedIffIndexed(data', f, id);
  }

  /** Team records lie inside the index scan, but are never listed: a built record is never 8 bytes. */
  lemma TeamRecordsScannedNotListed(data: Data, id: Int64, t: Team)
    requires Key(TeamKind, id) in data && data[Key(TeamKind, id)] == TeamBlob(t)
    ensures exists i :: 0 <= i < |RangeScan(data, UnfinishedPrefix)| && RangeScan(data, UnfinishedPrefix)[i].0 == Key(TeamKind, id)
    ensures !(data[Key(TeamKind, id)].Raw? && |data[Key(TeamKind, id)].bytes| == 8)
  {
    TeamKeysFollowUnfinishedPrefix(id);
    RangeScanComplete(data, UnfinishedPrefix, Key(TeamKind, id));
  }

  function ZeroMatch(): Match
  {
    Match(0, 0, "", Team(0, 0, "", ""), Team(0, 0, "", ""), Null, 0, "",
          Status(ZeroTime, 0, false, false, false, false, NoLiveTime), false, 0)
  }

  function ZeroLeague(): League
  {
    League(false, "", "", 0, 0, "", [])
  }
}
