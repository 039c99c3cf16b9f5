/**
 * The football-data entities the feed delivers, and the change classifier
 * that compares an incoming match with the stored one
 * (x/futchain/keeper/datasource/fotmob.go).
 */
module Fotmob {
  import opened GoInts

  datatype Team = Team(id: Int64, score: Int64, name: string, longName: string)

  datatype LiveTime = LiveTime(long: string, maxTime: Int64, addedTime: Int64)

  /** The zero `LiveTime`. */
  const NoLiveTime: LiveTime := LiveTime("", 0, 0)

  type Nanos = n: int | 0 <= n < 1_000_000_000

  /** A `time.Time`: whole seconds since the Unix epoch and the nanoseconds within that second. */
  datatype Instant = Instant(unix: Int64, nanos: Nanos)

  /** The zero `time.Time` (1 January of year 1, UTC), whose `Unix()` is this. */
  const ZeroTime: Instant := Instant(-62_135_596_800, 0)

  datatype Status = Status(
    utcTime: Instant,
    periodLength: Int64,
    started: bool,
    cancelled: bool,
    finished: bool,
    ongoing: bool,
    liveTime: LiveTime)

  /**
   * The dynamic value held by the `any`-typed `EliminatedTeamID`: nil, a Go
   * `int`, a Go `int32`, or anything else (JSON numbers arrive as `float64`).
   */
  datatype Dynamic = Null | GoInt(intValue: Int64) | GoInt32(int32Value: Int32) | OtherValue

  datatype Match = Match(
    id: Int64,
    leagueId: Int64,
    time: string,
    home: Team,
    away: Team,
    eliminatedTeamId: Dynamic,
    statusId: Int64,
    tournamentStage: string,
    status: Status,
    ongoing: bool,
    timeTS: Int64)

  datatype League = League(
    isGroup: bool,
    groupName: string,
    ccode: string,
    id: Int64,
    primaryId: Int64,
    name: string,
    matches: seq<Match>)

  // ---------------------------------------------------------------------
  // Change priorities
  // ---------------------------------------------------------------------

  /** `ComparePriority`: the nine `iota` constants below. */
  type ComparePriority = p: int | 0 <= p <= 8

  const PriorityNoChanges: ComparePriority := 0
  const PriorityLiveTime: ComparePriority := 1
  const PriorityPeriodLength: ComparePriority := 2
  const PriorityStatus: ComparePriority := 3
  const PriorityOngoing: ComparePriority := 4
  const PriorityFinished: ComparePriority := 5
  const PriorityStarted: ComparePriority := 6
  const PriorityCancelled: ComparePriority := 7
  const PriorityScore: ComparePriority := 8

  /** `priorityNamer`, indexed by priority. */
  const PriorityNames: seq<string> := [
    "match_no_changes",
    "match_live_time",
    "match_period_length",
    "match_status",
    "match_ongoing",
    "match_finished",
    "match_started",
    "match_cancelled",
    "match_score"
  ]

  /** Changes below this priority are stored without an event. */
  const MinimumEventPriority: ComparePriority := PriorityPeriodLength

  /** `ComparePriority.EventName`: the name at index `p` of `priorityNamer`. */
  function EventName(p: ComparePriority): (name: string)
    ensures |name| > 6 && name[..6] == "match_"
  {
    PriorityNamesAreMatchEvents(p);
    PriorityNames[p]
  }

  /** Every name in `priorityNamer` is a "match_" name. */
  lemma PriorityNamesAreMatchEvents(p: ComparePriority)
    ensures |PriorityNames[p]| > 6 && PriorityNames[p][..6] == "match_"
  {
    if p == 0 {
    } else if p == 1 {
    } else if p == 2 {
    } else if p == 3 {
    } else if p == 4 {
    } else if p == 5 {
    } else if p == 6 {
    } else if p == 7 {
    } else {
    }
  }

  // ---------------------------------------------------------------------
  // The classifier
  // ---------------------------------------------------------------------

  /** The fields of a match that `Compare` looks at. */
  datatype Observation = Observation(
    homeScore: Int64,
    awayScore: Int64,
    cancelled: bool,
    finished: bool,
    started: bool,
    ongoing: bool,
    periodLength: Int64,
    liveTime: LiveTime)

  function Observed(m: Match): Observation
  {
    Observation(m.home.score, m.away.score, m.status.cancelled, m.status.finished,
                m.status.started, m.status.ongoing, m.status.periodLength, m.status.liveTime)
  }

  /**
   * `Match.Compare`: the first difference, testing the score, then the
   * cancelled, finished, started and ongoing flags, then the period length,
   * then the live time.
   */
  function Compare(incoming: Match, stored: Match): (p: ComparePriority)
    ensures p == PriorityNoChanges <==> Observed(incoming) == Observed(stored)
    ensures p != PriorityStatus
  {
    if incoming.home.score != stored.home.score then PriorityScore
    else if incoming.away.score != stored.away.score then PriorityScore
    else if incoming.status.cancelled != stored.status.cancelled then PriorityCancelled
    else if incoming.status.finished != stored.status.finished then PriorityFinished
    else if incoming.status.started != stored.status.started then PriorityStarted
    else if incoming.status.ongoing != stored.status.ongoing then PriorityOngoing
    else if incoming.status.periodLength != stored.status.periodLength then PriorityPeriodLength
    else if incoming.status.liveTime.long != stored.status.liveTime.long then PriorityLiveTime
    else if incoming.status.liveTime.maxTime != stored.status.liveTime.maxTime then PriorityLiveTime
    else if incoming.status.liveTime.addedTime != stored.status.liveTime.addedTime then PriorityLiveTime
    else PriorityNoChanges
  }

  /** Whether two matches differ in the field class that priority `p` reports. */
  predicate Differs(a: Match, b: Match, p: ComparePriority)
  {
    if p == PriorityScore then a.home.score != b.home.score || a.away.score != b.away.score
    else if p == PriorityCancelled then a.status.cancelled != b.status.cancelled
    else if p == PriorityStarted then a.status.started != b.status.started
    else if p == PriorityFinished then a.status.finished != b.status.finished
    else if p == PriorityOngoing then a.status.ongoing != b.status.ongoing
    else if p == PriorityPeriodLength then a.status.periodLength != b.status.periodLength
    else if p == PriorityLiveTime then a.status.liveTime != b.status.liveTime
    else false
  }

  /** The order in which `Compare` tests the field classes. */
  const CheckOrder: seq<ComparePriority> := [
    PriorityScore, PriorityCancelled, PriorityFinished, PriorityStarted,
    PriorityOngoing, PriorityPeriodLength, PriorityLiveTime
  ]

  /** The first class in `order` in which the matches differ. */
  function FirstDifference(a: Match, b: Match, order: seq<ComparePriority>): ComparePriority
  {
    if order == [] then PriorityNoChanges
    else if Differs(a, b, order[0]) then order[0]
    else FirstDifference(a, b, order[1..])
  }

  /** `Compare` is the first difference in `CheckOrder`, not the largest priority that differs. */
  lemma CompareIsFirstDifference(a: Match, b: Match)
    ensures Compare(a, b) == FirstDifference(a, b, CheckOrder)
  {
    var o := CheckOrder;
    assert o == [8, 7, 5, 6, 4, 2, 1];
    assert FirstDifference(a, b, []) == PriorityNoChanges;
    assert o[6..] == [PriorityLiveTime] && o[6..][1..] == [];
    var d := FirstDifference(a, b, o[6..]);
    assert d == if Differs(a, b, PriorityLiveTime) then PriorityLiveTime else PriorityNoChanges;
    assert o[5..][1..] == o[6..];
    var d5 := FirstDifference(a, b, o[5..]);
    assert d5 == if Differs(a, b, PriorityPeriodLength) then PriorityPeriodLength else d;
    assert o[4..][1..] == o[5..];
    var d4 := FirstDifference(a, b, o[4..]);
    assert d4 == if Differs(a, b, PriorityOngoing) then PriorityOngoing else d5;
    assert o[3..][1..] == o[4..];
    var d3 := FirstDifference(a, b, o[3..]);
    assert d3 == if Differs(a, b, PriorityStarted) then PriorityStarted else d4;
    assert o[2..][1..] == o[3..];
    var d2 := FirstDifference(a, b, o[2..]);
    assert d2 == if Differs(a, b, PriorityFinished) then PriorityFinished else d3;
    assert o[1..][1..] == o[2..];
    var d1 := FirstDifference(a, b, o[1..]);
    assert d1 == if Differs(a, b, PriorityCancelled) then PriorityCancelled else d2;
    assert FirstDifference(a, b, o) == if Differs(a, b, PriorityScore) then PriorityScore else d1;
  }

  /** Every test is an inequality, so the argument order does not matter. */
  lemma CompareSymmetric(a: Match, b: Match)
    ensures Compare(a, b) == Compare(b, a)
  {
  }

  /** Any score difference is reported as a score change, whatever else differs. */
  lemma ScoreDominates(a: Match, b: Match)
    requires a.home.score != b.home.score || a.away.score != b.away.score
    ensures Compare(a, b) == PriorityScore
  {
  }

  /** Only the observed fields matter: ids, names, times, stage, status id and `Match.Ongoing` are ignored. */
  lemma CompareOnlyObserved(a: Match, a': Match, b: Match, b': Match)
    requires Observed(a) == Observed(a') && Observed(b) == Observed(b')
    ensures Compare(a, b) == Compare(a', b')
  {
  }

  /**
   * A finished-flag change hides a started-flag change, although
   * `PriorityStarted` is the larger constant.
   */
  lemma FinishedShadowsStarted(a: Match, b: Match)
    requires Observed(a).(finished := false, started := false) == Observed(b).(finished := false, started := false)
    requires a.status.finished != b.status.finished && a.status.started != b.status.started
    ensures Compare(a, b) == PriorityFinished < PriorityStarted
  {
  }

  /** A change is announced exactly when something other than the live time differs. */
  lemma EventWorthyIffBeyondLiveTime(a: Match, b: Match)
    ensures Compare(a, b) >= MinimumEventPriority
        <==> Observed(a).(liveTime := NoLiveTime) != Observed(b).(liveTime := NoLiveTime)
  {
  }

  /** An ongoing-flag change is announced at least at `PriorityOngoing`, unless a higher class differs first. */
  lemma OngoingChangeIsAnnounced(a: Match, b: Match)
    requires a.status.ongoing != b.status.ongoing
    ensures PriorityOngoing <= Compare(a, b) && MinimumEventPriority <= Compare(a, b)
  {
  }
}
