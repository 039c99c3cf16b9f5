/**
 * The gRPC query handlers (x/futchain/keeper/query_match.go, query_team.go,
 * query_league.go, query_unfinished.go): guard clauses on the request, a
 * keeper read, and a projection of the result onto the response. A nil
 * request is `None`.
 */
module Queries {
  import opened Wrappers
  import opened GoInts
  import opened Errors
  import opened Keys
  import opened Fotmob
  import opened Codec
  import opened KVStore
  import opened Keeper

  datatype Code = InvalidArgument | Internal

  /** A gRPC status error: `status.Error(code, message)`. */
  datatype GrpcError = GrpcError(code: Code, message: string)

  datatype IdRequest = IdRequest(id: Int64)

  datatype UnfinishedRequest = UnfinishedRequest

  datatype MatchResponse = MatchResponse(
    id: Int64, leagueId: Int64, name: string, time: string,
    homeId: Int64, awayId: Int64, homeScore: Int64, awayScore: Int64,
    homeName: string, awayName: string,
    started: bool, finished: bool, cancelled: bool)

  datatype TeamResponse = TeamResponse(id: Int64, name: string)

  datatype LeagueResponse = LeagueResponse(id: Int64, name: string, groupName: string)

  const InvalidRequest: GrpcError := GrpcError(InvalidArgument, "invalid request")
  const InvalidId: GrpcError := GrpcError(InvalidArgument, "invalid id")

  /** A keeper error, reported as `Internal` with the error's text. */
  function InternalError(e: Error): GrpcError
  {
    GrpcError(Internal, Message(e))
  }

  /** The guard every id query applies first: a request, then a positive id. */
  function CheckId(req: Option<IdRequest>): (r: Option<GrpcError>)
    ensures r == None <==> req.Some? && req.value.id > 0
  {
    if req.None? then Some(InvalidRequest)
    else if req.value.id <= 0 then Some(InvalidId)
    else None
  }

  function MatchToResponse(m: Match): MatchResponse
  {
    MatchResponse(m.id, m.leagueId, m.home.name + " - " + m.away.name, m.time,
                  m.home.id, m.away.id, m.home.score, m.away.score,
                  m.home.name, m.away.name,
                  m.status.started, m.status.finished, m.status.cancelled)
  }

  /**
   * `Match`: the guards, then `GetMatch`; a failed read is an `Internal`
   * error with the read's text, and a found match is served with its two
   * team names joined by " - ".
   */
  function QueryMatch(data: Data, f: Faults, req: Option<IdRequest>): (r: Result<MatchResponse, GrpcError>)
    ensures req.None? ==> r == Err(InvalidRequest)
    ensures req.Some? && req.value.id <= 0 ==> r == Err(InvalidId)
    ensures req.Some? && req.value.id > 0 ==>
      var m := ReadMatch(data, f, req.value.id);
      && (m.Err? <==> r.Err?)
      && (m.Err? ==> r == Err(GrpcError(Internal, Message(m.error))))
      && (m.Ok? ==>
            && r.value.name == r.value.homeName + " - " + r.value.awayName
            && r.value.homeName == m.value.home.name && r.value.awayName == m.value.away.name
            && r.value.id == m.value.id && r.value.leagueId == m.value.leagueId && r.value.time == m.value.time
            && r.value.homeId == m.value.home.id && r.value.awayId == m.value.away.id
            && r.value.homeScore == m.value.home.score && r.value.awayScore == m.value.away.score
            && r.value.started == m.value.status.started && r.value.finished == m.value.status.finished
            && r.value.cancelled == m.value.status.cancelled)
  {
    var bad := CheckId(req);
    if bad.Some? then Err(bad.value)
    else
      var m := ReadMatch(data, f, req.value.id);
      if m.Err? then Err(InternalError(m.error)) else Ok(MatchToResponse(m.value))
  }

  /** `Team`: the guards, then `GetTeam`; the response copies the record's id and name. */
  function QueryTeam(data: Data, f: Faults, req: Option<IdRequest>): (r: Result<TeamResponse, GrpcError>)
    ensures req.None? ==> r == Err(InvalidRequest)
    ensures req.Some? && req.value.id <= 0 ==> r == Err(InvalidId)
    ensures req.Some? && req.value.id > 0 ==>
      var t := ReadTeam(data, f, req.value.id);
      && (t.Err? <==> r.Err?)
      && (t.Err? ==> r == Err(GrpcError(Internal, Message(t.error))))
      && (t.Ok? ==> r.value.id == t.value.id && r.value.name == t.value.name)
  {
    var bad := CheckId(req);
    if bad.Some? then Err(bad.value)
    else
      var t := ReadTeam(data, f, req.value.id);
      if t.Err? then Err(InternalError(t.error)) else Ok(TeamResponse(t.value.id, t.value.name))
  }

  /** `League`: the guards, then `GetLeague`; the response copies the record's id, name and group name. */
  function QueryLeague(data: Data, f: Faults, req: Option<IdRequest>): (r: Result<LeagueResponse, GrpcError>)
    ensures req.None? ==> r == Err(InvalidRequest)
    ensures req.Some? && req.value.id <= 0 ==> r == Err(InvalidId)
    ensures req.Some? && req.value.id > 0 ==>
      var l := ReadLeague(data, f, req.value.id);
      && (l.Err? <==> r.Err?)
      && (l.Err? ==> r == Err(GrpcError(Internal, Message(l.error))))
      && (l.Ok? ==> r.value.id == l.value.id && r.value.name == l.value.name && r.value.groupName == l.value.groupName)
  {
    var bad := CheckId(req);
    if bad.Some? then Err(bad.value)
    else
      var l := ReadLeague(data, f, req.value.id);
      if l.Err? then Err(InternalError(l.error)) else Ok(LeagueResponse(l.value.id, l.value.name, l.value.groupName))
  }

  /** `UnfinishedMatches`: only the nil check, then the keeper's list copied into a fresh `[]int64`. */
  method UnfinishedMatches(keeper: Keeper, req: Option<UnfinishedRequest>) returns (r: Result<seq<Int64>, GrpcError>)
    ensures req.None? ==> r == Err(InvalidRequest)
    ensures req.Some? ==>
      var listed := ListedIds(keeper.store.data, keeper.store.faults);
      && (listed.Err? ==> r == Err(InternalError(listed.error)))
      && (listed.Ok? ==> r == Ok(listed.value))
  {
    if req.None? {
      return Err(InvalidRequest);
    }
    ghost var listed := ListedIds(keeper.store.data, keeper.store.faults);
    var ids := keeper.ListUnfinishedMatches();
    assert ids == listed;
    if ids.Err? {
      return Err(InternalError(ids.error));
    }
    var int64s := ToInt64s(ids.value);
    assert int64s == ids.value;
    return Ok(int64s);
  }

  /** `int64s[i] = int64(id)` over a fresh slice of the same length: `int` is 64 bits wide, so nothing changes. */
  method ToInt64s(ids: seq<Int64>) returns (out: seq<Int64>)
    ensures |out| == |ids| && forall i :: 0 <= i < |ids| ==> out[i] == ids[i]
  {
    var int64s := new Int64[|ids|];
    for i := 0 to |ids|
      invariant forall j :: 0 <= j < i ==> int64s[j] == ids[j]
    {
      int64s[i] := ids[i];
    }
    out := int64s[..];
  }

  // ---------------------------------------------------------------------
  // What the handlers promise
  // ---------------------------------------------------------------------

  /** A missing match is an internal error reading "data cannot be empty". */
  lemma MissingMatchIsInternal(data: Data, f: Faults, id: Int64)
    requires id > 0 && Key(MatchKind, id) !in data && !Fails(f, GetOp, Key(MatchKind, id))
    ensures QueryMatch(data, f, Some(IdRequest(id))) == Err(GrpcError(Internal, "data cannot be empty"))
  {
    AbsentReadsFail(data, f, id);
  }

  /**
   * A match response joins the team names with " - ", takes the names from
   * the team records, and the ids and scores from the match record.
   */
  lemma MatchResponseSources(data: Data, f: Faults, id: Int64)
    requires id > 0 && QueryMatch(data, f, Some(IdRequest(id))).Ok?
    ensures var r := QueryMatch(data, f, Some(IdRequest(id))).value;
      var stored := DecodeMatch(Lookup(data, Key(MatchKind, id))).value;
      && DecodeMatch(Lookup(data, Key(MatchKind, id))).Ok?
      && r.name == r.homeName + " - " + r.awayName
      && r.homeName == ReadTeam(data, f, stored.home.id).value.name
      && r.awayName == ReadTeam(data, f, stored.away.id).value.name
      && r.id == stored.id && r.leagueId == stored.leagueId && r.time == stored.time
      && r.homeId == stored.home.id && r.awayId == stored.away.id
      && r.homeScore == stored.home.score && r.awayScore == stored.away.score
      && r.started == stored.status.started && r.finished == stored.status.finished
      && r.cancelled == stored.status.cancelled
  {
    ReadMatchRehydrates(data, f, id);
  }

  /** A saved team is served back under its id, as the record keeps it. */
  lemma SavedTeamIsServed(data: Data, t: Team)
    requires t.id > 0 && FitsInt32(t.id) && Key(TeamKind, t.id) !in data
    ensures var d := SaveIfAbsent(data, NoFaults, Key(TeamKind, t.id), TeamBlob(t)).data;
      QueryTeam(d, NoFaults, Some(IdRequest(t.id))) == Ok(TeamResponse(t.id, t.name))
  {
    SaveThenReadTeam(data, NoFaults, t);
  }
}
