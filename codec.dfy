/**
 * The flatbuffers codec (x/futchain/keeper/datasource/flatbuffers/encoder.go)
 * as a projection onto the fields each table stores. The byte layout the
 * flatbuffers builder produces is not modelled: a built buffer is represented
 * by the table it holds, whose fields are exactly the builder's `Add*` calls.
 */
module Codec {
  import opened Wrappers
  import opened GoInts
  import opened Bytes
  import opened Errors
  import opened Fotmob

  datatype TeamTable = TeamTable(id: Int32, score: Int32, name: string, longName: string)

  datatype StatusTable = StatusTable(
    utcTime: Int64,
    periodLength: Int32,
    started: bool,
    cancelled: bool,
    finished: bool)

  /** A match table; its team and status sub-tables are optional fields of the schema. */
  datatype MatchTable = MatchTable(
    id: Int32,
    leagueId: Int32,
    time: string,
    home: Option<TeamTable>,
    away: Option<TeamTable>,
    eliminatedTeamId: Int32,
    statusId: Int32,
    tournamentStage: string,
    status: Option<StatusTable>,
    timeTs: Int64)

  datatype LeagueTable = LeagueTable(
    isGroup: bool,
    groupName: string,
    ccode: string,
    id: Int32,
    primaryId: Int32,
    name: string)

  datatype Table =
    | TeamRoot(teamTable: TeamTable)
    | StatusRoot(statusTable: StatusTable)
    | MatchRoot(matchTable: MatchTable)
    | LeagueRoot(leagueTable: LeagueTable)

  /**
   * A byte slice as the store holds it: either arbitrary bytes, or a finished
   * flatbuffer with the given root table. A finished flatbuffer holds a 4-byte
   * root offset, a vtable of at least 4 bytes and a table of at least 4 bytes,
   * so it is never empty and never exactly 8 bytes long.
   */
  datatype Blob = Raw(bytes: Bytes) | Built(root: Table)

  predicate IsEmpty(b: Blob)
  {
    b.Raw? && b.bytes == []
  }

  // ---------------------------------------------------------------------
  // Field conversions performed by the encoders and decoders
  // ---------------------------------------------------------------------

  function TeamToTable(t: Team): TeamTable
  {
    TeamTable(ToInt32(t.id), ToInt32(t.score), t.name, t.longName)
  }

  function TableToTeam(t: TeamTable): Team
  {
    Team(t.id, t.score, t.name, t.longName)
  }

  /** `Status.Ongoing`, `LiveTime` and `Halfs` have no field in the table. */
  function StatusToTable(s: Status): StatusTable
  {
    StatusTable(s.utcTime.unix, ToInt32(s.periodLength), s.started, s.cancelled, s.finished)
  }

  /** `time.Unix(sec, 0)`: whole seconds only. */
  function TableToStatus(t: StatusTable): Status
  {
    Status(Instant(t.utcTime, 0), t.periodLength, t.started, t.cancelled, t.finished, false, NoLiveTime)
  }

  /** The stored `EliminatedTeamId`: -1 stands for "none". */
  function EliminatedToSlot(d: Dynamic): Int32
  {
    match d
    case GoInt(v) => ToInt32(v)
    case GoInt32(v) => v
    case _ => -1
  }

  function SlotToEliminated(v: Int32): Dynamic
  {
    if v != -1 then GoInt(v) else Null
  }

  /** `Match.Ongoing` has no field in the table either. */
  function MatchToTable(m: Match): MatchTable
  {
    MatchTable(ToInt32(m.id), ToInt32(m.leagueId), m.time,
               Some(TeamToTable(m.home)), Some(TeamToTable(m.away)),
               EliminatedToSlot(m.eliminatedTeamId), ToInt32(m.statusId), m.tournamentStage,
               Some(StatusToTable(m.status)), m.timeTS)
  }

  /** Missing sub-tables decode to Go zero values. */
  function TableToMatch(t: MatchTable): Match
  {
    var zeroTeam := Team(0, 0, "", "");
    var zeroStatus := Status(ZeroTime, 0, false, false, false, false, NoLiveTime);
    Match(t.id, t.leagueId, t.time,
          if t.home.Some? then TableToTeam(t.home.value) else zeroTeam,
          if t.away.Some? then TableToTeam(t.away.value) else zeroTeam,
          SlotToEliminated(t.eliminatedTeamId), t.statusId, t.tournamentStage,
          if t.status.Some? then TableToStatus(t.status.value) else zeroStatus,
          false, t.timeTs)
  }

  function LeagueToTable(l: League): LeagueTable
  {
    LeagueTable(l.isGroup, l.groupName, l.ccode, ToInt32(l.id), ToInt32(l.primaryId), l.name)
  }

  /** The decoded league always has an empty match list. */
  function TableToLeague(t: LeagueTable): League
  {
    League(t.isGroup, t.groupName, t.ccode, t.id, t.primaryId, t.name, [])
  }

  // ---------------------------------------------------------------------
  // Encoders and decoders; a `None` argument is a nil pointer.
  // ---------------------------------------------------------------------

  function EncodeTeam(t: Option<Team>): (r: Result<Blob, Error>)
    ensures r.Err? <==> t.None?
    ensures r.Ok? ==> !IsEmpty(r.value)
  {
    match t
    case None => Err(NilInput("team"))
    case Some(team) => Ok(Built(TeamRoot(TeamToTable(team))))
  }

  function DecodeTeam(b: Blob): (r: Result<Team, Error>)
    ensures r == Err(EmptyData) <==> IsEmpty(b)
    ensures r.Ok? <==> b.Built? && b.root.TeamRoot?
    ensures r.Err? && !IsEmpty(b) ==> r.error == Undecodable
  {
    if IsEmpty(b) then Err(EmptyData)
    else if b.Built? && b.root.TeamRoot? then Ok(TableToTeam(b.root.teamTable))
    else Err(Undecodable)
  }

  function EncodeStatus(s: Option<Status>): (r: Result<Blob, Error>)
    ensures r.Err? <==> s.None?
    ensures r.Ok? ==> !IsEmpty(r.value)
  {
    match s
    case None => Err(NilInput("status"))
    case Some(status) => Ok(Built(StatusRoot(StatusToTable(status))))
  }

  function DecodeStatus(b: Blob): (r: Result<Status, Error>)
    ensures r == Err(EmptyData) <==> IsEmpty(b)
    ensures r.Ok? <==> b.Built? && b.root.StatusRoot?
    ensures r.Err? && !IsEmpty(b) ==> r.error == Undecodable
  {
    if IsEmpty(b) then Err(EmptyData)
    else if b.Built? && b.root.StatusRoot? then Ok(TableToStatus(b.root.statusTable))
    else Err(Undecodable)
  }

  function EncodeMatch(m: Option<Match>): (r: Result<Blob, Error>)
    ensures r.Err? <==> m.None?
    ensures r.Ok? ==> !IsEmpty(r.value)
  {
    match m
    case None => Err(NilInput("match"))
    case Some(mt) => Ok(Built(MatchRoot(MatchToTable(mt))))
  }

  function DecodeMatch(b: Blob): (r: Result<Match, Error>)
    ensures r == Err(EmptyData) <==> IsEmpty(b)
    ensures r.Ok? <==> b.Built? && b.root.MatchRoot?
    ensures r.Err? && !IsEmpty(b) ==> r.error == Undecodable
  {
    if IsEmpty(b) then Err(EmptyData)
    else if b.Built? && b.root.MatchRoot? then Ok(TableToMatch(b.root.matchTable))
    else Err(Undecodable)
  }

  function EncodeLeague(l: Option<League>): (r: Result<Blob, Error>)
    ensures r.Err? <==> l.None?
    ensures r.Ok? ==> !IsEmpty(r.value)
  {
    match l
    case None => Err(NilInput("league"))
    case Some(league) => Ok(Built(LeagueRoot(LeagueToTable(league))))
  }

  function DecodeLeague(b: Blob): (r: Result<League, Error>)
    ensures r == Err(EmptyData) <==> IsEmpty(b)
    ensures r.Ok? <==> b.Built? && b.root.LeagueRoot?
    ensures r.Err? && !IsEmpty(b) ==> r.error == Undecodable
  {
    if IsEmpty(b) then Err(EmptyData)
    else if b.Built? && b.root.LeagueRoot? then Ok(TableToLeague(b.root.leagueTable))
    else Err(Undecodable)
  }

  // ---------------------------------------------------------------------
  // What survives a round trip, stated field by field
  // ---------------------------------------------------------------------

  function PersistedTeam(t: Team): Team
  {
    t.(id := ToInt32(t.id), score := ToInt32(t.score))
  }

  function PersistedStatus(s: Status): Status
  {
    s.(utcTime := Instant(s.utcTime.unix, 0), periodLength := ToInt32(s.periodLength),
       ongoing := false, liveTime := NoLiveTime)
  }

  /** An `int` or `int32` survives unless it is (or truncates to) -1; anything else comes back as nil. */
  function PersistedEliminated(d: Dynamic): Dynamic
  {
    match d
    case GoInt(v) => if ToInt32(v) == -1 then Null else GoInt(ToInt32(v))
    case GoInt32(v) => if v == -1 then Null else GoInt(v)
    case _ => Null
  }

  function PersistedMatch(m: Match): Match
  {
    m.(id := ToInt32(m.id), leagueId := ToInt32(m.leagueId),
       home := PersistedTeam(m.home), away := PersistedTeam(m.away),
       eliminatedTeamId := PersistedEliminated(m.eliminatedTeamId),
       statusId := ToInt32(m.statusId), status := PersistedStatus(m.status), ongoing := false)
  }

  function PersistedLeague(l: League): League
  {
    l.(id := ToInt32(l.id), primaryId := ToInt32(l.primaryId), matches := [])
  }

  lemma TeamRoundTrip(t: Team)
    ensures DecodeTeam(EncodeTeam(Some(t)).value) == Ok(PersistedTeam(t))
    ensures FitsInt32(t.id) && FitsInt32(t.score) ==> PersistedTeam(t) == t
  {
  }

  lemma StatusRoundTrip(s: Status)
    ensures DecodeStatus(EncodeStatus(Some(s)).value) == Ok(PersistedStatus(s))
  {
  }

  lemma MatchRoundTrip(m: Match)
    ensures DecodeMatch(EncodeMatch(Some(m)).value) == Ok(PersistedMatch(m))
  {
  }

  lemma LeagueRoundTrip(l: League)
    ensures DecodeLeague(EncodeLeague(Some(l)).value) == Ok(PersistedLeague(l))
  {
  }

  /**
   * The fields a decoded match keeps, and the ones it loses: `Ongoing`
   * (both), `LiveTime` and the sub-second part of `UtcTime`.
   */
  lemma PersistedMatchFields(m: Match)
    requires FitsInt32(m.id) && FitsInt32(m.leagueId) && FitsInt32(m.statusId)
    requires FitsInt32(m.home.id) && FitsInt32(m.home.score)
    requires FitsInt32(m.away.id) && FitsInt32(m.away.score)
    requires FitsInt32(m.status.periodLength)
    ensures var p := PersistedMatch(m);
      && p.id == m.id && p.leagueId == m.leagueId && p.time == m.time
      && p.statusId == m.statusId && p.tournamentStage == m.tournamentStage && p.timeTS == m.timeTS
      && p.home == m.home && p.away == m.away
      && p.status.started == m.status.started && p.status.cancelled == m.status.cancelled
      && p.status.finished == m.status.finished && p.status.periodLength == m.status.periodLength
      && p.status.utcTime.unix == m.status.utcTime.unix && p.status.utcTime.nanos == 0
      && !p.status.ongoing && p.status.liveTime == NoLiveTime && !p.ongoing
  {
  }

  /** The eliminated team id: -1 encodes "none", and an int that truncates to -1 is read back as none. */
  lemma EliminatedRoundTrip(d: Dynamic)
    ensures SlotToEliminated(EliminatedToSlot(d)) == PersistedEliminated(d)
    ensures PersistedEliminated(d) == Null <==>
      (d.Null? || d.OtherValue? || (d.GoInt? && ToInt32(d.intValue) == -1) || (d.GoInt32? && d.int32Value == -1))
    ensures d.GoInt? && FitsInt32(d.intValue) && d.intValue != -1 ==> PersistedEliminated(d) == d
  {
  }

  /** Storing a decoded record again changes nothing. */
  lemma PersistedIsStable(t: Team, m: Match, l: League)
    ensures PersistedTeam(PersistedTeam(t)) == PersistedTeam(t)
    ensures PersistedMatch(PersistedMatch(m)) == PersistedMatch(m)
    ensures PersistedLeague(PersistedLeague(l)) == PersistedLeague(l)
  {
  }
}
