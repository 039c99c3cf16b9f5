/**
 * The block-begin reconciliation (x/futchain/module/module.go, `BeginBlock`):
 * on every block whose height the fetch modulo divides, every fetched league
 * is saved if new, every match's teams are saved if new, and every match is
 * either saved as new or compared with the stored one and rewritten when it
 * changed. Events are appended to the block's event list. A failure on one
 * league or match skips that entity only.
 */
module FutchainModule {
  import opened Wrappers
  import opened GoInts
  import opened Bytes
  import opened Errors
  import opened Keys
  import opened Fotmob
  import opened Codec
  import opened KVStore
  import opened Keeper
  import opened FutchainParams

  /** An SDK event: its type and its attributes in order. */
  datatype Event = Event(kind: string, attributes: seq<(string, string)>)

  /** The store contents and the block's event list. */
  datatype State = State(data: Data, events: seq<Event>)

  /** How `BeginBlock` ends: normally, with an error, or by a run-time panic (an integer division by zero). */
  datatype Outcome = Completed | Failed(err: Error) | Panicked

  function NewLeagueEvent(l: League): Event
  {
    Event("new_league", [("league", l.name), ("id", Itoa(l.id))])
  }

  /** The attributes `new_match` and the change events share. */
  function MatchEvent(kind: string, m: Match): Event
  {
    Event(kind, [("id", Itoa(m.id)), ("league_id", Itoa(m.leagueId)),
                 ("match", m.home.name + "/" + m.away.name),
                 ("home_id", Itoa(m.home.id)), ("away_id", Itoa(m.away.id)),
                 ("event", kind)])
  }

  // ---------------------------------------------------------------------
  // Specification functions
  // ---------------------------------------------------------------------

  /** The stored record `m` is compared with: the store after both team saves. */
  function TeamsSaved(data: Data, f: Faults, m: Match): Data
  {
    var d1 := SaveIfAbsent(data, f, Key(TeamKind, m.home.id), TeamBlob(m.home)).data;
    SaveIfAbsent(d1, f, Key(TeamKind, m.away.id), TeamBlob(m.away)).data
  }

  /** One match: save its teams (errors ignored), then save it as new or compare it with the stored record. */
  function MatchStep(s: State, f: Faults, m: Match): State
  {
    SaveOrCompare(State(TeamsSaved(s.data, f, m), s.events), f, m)
  }

  /** A match whose key is new is saved and announced; a stored one is compared. */
  function SaveOrCompare(s: State, f: Faults, m: Match): State
  {
    var saved := SaveIfAbsent(s.data, f, Key(MatchKind, m.id), MatchBlob(m));
    if saved.err.Some? then State(saved.data, s.events)
    else if saved.created then State(saved.data, s.events + [MatchEvent("new_match", m)])
    else CompareStored(s, f, m)
  }

  /** Read the stored match; on a change, rewrite it, and announce the change when it is worth an event. */
  function CompareStored(s: State, f: Faults, m: Match): State
  {
    var stored := ReadMatch(s.data, f, m.id);
    if stored.Err? then s
    else
      var p := Compare(m, stored.value);
      if p == PriorityNoChanges then s
      else
        var (d', err) := SetResult(s.data, f, Key(MatchKind, m.id), MatchBlob(m));
        if err.Some? then State(d', s.events)
        else if p >= MinimumEventPriority then State(d', s.events + [MatchEvent(EventName(p), m)])
        else State(d', s.events)
  }

  function MatchesStep(s: State, f: Faults, ms: seq<Match>): State
  {
    if ms == [] then s else MatchStep(MatchesStep(s, f, ms[..|ms| - 1]), f, ms[|ms| - 1])
  }

  lemma MatchesStepSnoc(s: State, f: Faults, ms: seq<Match>, m: Match)
    ensures MatchesStep(s, f, ms + [m]) == MatchStep(MatchesStep(s, f, ms), f, m)
  {
    assert (ms + [m])[..|ms|] == ms;
  }

  lemma MatchesStepNext(s: State, f: Faults, ms: seq<Match>, j: nat)
    requires j < |ms|
    ensures MatchesStep(s, f, ms[..j + 1]) == MatchStep(MatchesStep(s, f, ms[..j]), f, ms[j])
  {
    assert ms[..j + 1] == ms[..j] + [ms[j]];
    MatchesStepSnoc(s, f, ms[..j], ms[j]);
  }

  /** One league: save it if new (a failure skips the league and its matches), then its matches. */
  function LeagueStep(s: State, f: Faults, l: League): State
  {
    var saved := SaveIfAbsent(s.data, f, Key(LeagueKind, l.id), LeagueBlob(l));
    if saved.err.Some? then State(saved.data, s.events)
    else
      var events := if saved.created then s.events + [NewLeagueEvent(l)] else s.events;
      MatchesStep(State(saved.data, events), f, l.matches)
  }

  function LeaguesStep(s: State, f: Faults, ls: seq<League>): State
  {
    if ls == [] then s else LeagueStep(LeaguesStep(s, f, ls[..|ls| - 1]), f, ls[|ls| - 1])
  }

  lemma LeaguesStepSnoc(s: State, f: Faults, ls: seq<League>, l: League)
    ensures LeaguesStep(s, f, ls + [l]) == LeagueStep(LeaguesStep(s, f, ls), f, l)
  {
    assert (ls + [l])[..|ls|] == ls;
  }
  lemma LeaguesStepNext(s: State, f: Faults, ls: seq<League>, i: nat)
    requires i < |ls|
    ensures LeaguesStep(s, f, ls[..i + 1]) == LeagueStep(LeaguesStep(s, f, ls[..i]), f, ls[i])
  {
    assert ls[..i + 1] == ls[..i] + [ls[i]];
    LeaguesStepSnoc(s, f, ls[..i], ls[i]);
  }


  /**
   * `BeginBlock`, given the parameter read, the block height and what the
   * feed would deliver (consulted only when the block is a fetch block).
   */
  function BeginBlockSpec(s: State, f: Faults, params: Result<Params, Error>, height: Int64,
                          fetched: Result<seq<League>, Error>): (Outcome, State)
  {
    if params.Err? then (Failed(params.error), s)
    else if params.value.fetchModulo == 0 then (Panicked, s)
    else if GoRem(height, params.value.fetchModulo) != 0 then (Completed, s)
    else if fetched.Err? then (Failed(fetched.error), s)
    else (Completed, LeaguesStep(s, f, fetched.value))
  }

  // ---------------------------------------------------------------------
  // The module
  // ---------------------------------------------------------------------

  /** The block's event manager: events are only ever appended. */
  class EventManager {
    var events: seq<Event>

    constructor ()
      ensures events == []
    {
      events := [];
    }

    method Emit(e: Event)
      modifies this
      ensures events == old(events) + [e]
    {
      events := events + [e];
    }
  }

  class AppModule {
    const keeper: Keeper
    const eventManager: EventManager

    constructor (keeper: Keeper, eventManager: EventManager)
      ensures this.keeper == keeper && this.eventManager == eventManager
    {
      this.keeper := keeper;
      this.eventManager := eventManager;
    }

    method BeginBlock(params: Result<Params, Error>, height: Int64, fetched: Result<seq<League>, Error>)
      returns (outcome: Outcome)
      modifies keeper.store, eventManager
      ensures (outcome, State(keeper.store.data, eventManager.events))
        == BeginBlockSpec(old(State(keeper.store.data, eventManager.events)), keeper.store.faults, params, height, fetched)
    {
      if params.Err? {
        return Failed(params.error);
      }
      var p := params.value;
      if p.fetchModulo == 0 {
        return Panicked;
      }
      if GoRem(height, p.fetchModulo) != 0 {
        return Completed;
      }
      if fetched.Err? {
        return Failed(fetched.error);
      }
      var leagues := fetched.value;
      ghost var s0 := State(keeper.store.data, eventManager.events);
      ghost var f := keeper.store.faults;
      var i := 0;
      while i < |leagues|
        invariant 0 <= i <= |leagues|
        invariant State(keeper.store.data, eventManager.events) == LeaguesStep(s0, f, leagues[..i])
      {
        LeaguesStepNext(s0, f, leagues, i);
        ReconcileLeague(leagues[i]);
        i := i + 1;
      }
      assert leagues[..i] == leagues;
      return Completed;
    }

    /** The body of the outer loop; the early return is the source's `continue`. */
    method ReconcileLeague(l: League)
      modifies keeper.store, eventManager
      ensures State(keeper.store.data, eventManager.events)
        == LeagueStep(old(State(keeper.store.data, eventManager.events)), keeper.store.faults, l)
    {
      ghost var s := State(keeper.store.data, eventManager.events);
      ghost var f := keeper.store.faults;
      ghost var saved := SaveIfAbsent(s.data, f, Key(LeagueKind, l.id), LeagueBlob(l));
      var created, err := keeper.SaveLeagueIfNotExists(l);
      assert saved == Saved(created, err, keeper.store.data);
      if err.Some? {
        return;
      }
      if created {
        eventManager.Emit(NewLeagueEvent(l));
      }
      ghost var sl := State(keeper.store.data, eventManager.events);
      assert LeagueStep(s, f, l) == MatchesStep(sl, f, l.matches);
      ReconcileMatches(l.matches);
    }

    /** The inner loop, over one league's matches. */
    method ReconcileMatches(ms: seq<Match>)
      modifies keeper.store, eventManager
      ensures State(keeper.store.data, eventManager.events)
        == MatchesStep(old(State(keeper.store.data, eventManager.events)), keeper.store.faults, ms)
    {
      ghost var s := State(keeper.store.data, eventManager.events);
      ghost var f := keeper.store.faults;
      var j := 0;
      while j < |ms|
        invariant 0 <= j <= |ms|
        invariant State(keeper.store.data, eventManager.events) == MatchesStep(s, f, ms[..j])
      {
        MatchesStepNext(s, f, ms, j);
        ReconcileMatch(ms[j]);
        j := j + 1;
      }
      assert ms[..j] == ms;
    }

    /** The body of the inner loop; each early return is the source's `continue`. */
    method ReconcileMatch(m: Match)
      modifies keeper.store, eventManager
      ensures State(keeper.store.data, eventManager.events)
        == MatchStep(old(State(keeper.store.data, eventManager.events)), keeper.store.faults, m)
    {
      var _, _ := keeper.SaveTeamIfNotExists(m.home);
      var _, _ := keeper.SaveTeamIfNotExists(m.away);
      ghost var s := State(keeper.store.data, eventManager.events);
      assert s == State(TeamsSaved(old(keeper.store.data), keeper.store.faults, m), old(eventManager.events));
      var created, err := keeper.SaveMatchIfNotExists(m);
      if err.Some? {
        return;
      }
      if created {
        eventManager.Emit(MatchEvent("new_match", m));
        return;
      }
      assert s == State(keeper.store.data, eventManager.events);
      var stored := keeper.GetMatch(m.id);
      if stored.Err? {
        return;
      }
      var p := Compare(m, stored.value);
      if p != PriorityNoChanges {
        var setErr := keeper.SetMatch(m);
        if setErr.Some? {
          return;
        }
        if p >= MinimumEventPriority {
          eventManager.Emit(MatchEvent(EventName(p), m));
        }
      }
    }
  }

  // ---------------------------------------------------------------------
  // What a cycle may change
  // ---------------------------------------------------------------------

  predicate IsMatchKey(k: Bytes)
  {
    |k| == 13 && k[..5] == MatchPrefix
  }

  predicate IsTeamKey(k: Bytes)
  {
    |k| == 12 && k[..4] == TeamPrefix
  }

  /**
   * How a reconciliation may change the store: no key disappears, new keys
   * hold built records outside the index, and only match records are
   * overwritten.
   */
  predicate Evolves(d: Data, d': Data)
  {
    (forall k :: k in d ==> k in d') &&
    (forall k :: k in d' && k !in d ==> !IsIndexKey(k) && d'[k].Built?) &&
    (forall k :: k in d && k in d' && d'[k] != d[k] ==> IsMatchKey(k) && d'[k].Built?)
  }

  /** Events are only appended, and the store only evolves. */
  predicate Advances(s: State, s': State)
  {
    s.events <= s'.events && Evolves(s.data, s'.data)
  }

  lemma AdvancesTransitive(s1: State, s2: State, s3: State)
    requires Advances(s1, s2) && Advances(s2, s3)
    ensures Advances(s1, s3)
  {
    forall k | k in s1.data && s3.data[k] != s1.data[k]
      ensures IsMatchKey(k) && s3.data[k].Built?
    {
      if s2.data[k] == s1.data[k] {
        assert s3.data[k] != s2.data[k];
      } else if s3.data[k] != s2.data[k] {
      }
    }
    forall k | k in s3.data && k !in s1.data
      ensures !IsIndexKey(k) && s3.data[k].Built?
    {
      if k in s2.data && s3.data[k] != s2.data[k] {
        assert IsMatchKey(k);
      }
    }
  }

  lemma SaveEvolves(d: Data, f: Faults, key: Bytes, v: Blob)
    requires !IsIndexKey(key) && v.Built?
    ensures Evolves(d, SaveIfAbsent(d, f, key, v).data)
  {
  }

  lemma SetMatchEvolves(d: Data, f: Faults, m: Match)
    ensures Evolves(d, SetResult(d, f, Key(MatchKind, m.id), MatchBlob(m)).0)
  {
    IndexKeys(MatchKind, m.id);
    assert IsMatchKey(Key(MatchKind, m.id));
  }

  lemma TeamsSavedEvolves(d: Data, f: Faults, m: Match)
    ensures Evolves(d, TeamsSaved(d, f, m))
  {
    IndexKeys(TeamKind, m.home.id);
    IndexKeys(TeamKind, m.away.id);
    var d1 := SaveIfAbsent(d, f, Key(TeamKind, m.home.id), TeamBlob(m.home)).data;
    SaveEvolves(d, f, Key(TeamKind, m.home.id), TeamBlob(m.home));
    SaveEvolves(d1, f, Key(TeamKind, m.away.id), TeamBlob(m.away));
    AdvancesTransitive(State(d, []), State(d1, []), State(TeamsSaved(d, f, m), []));
  }

  lemma CompareStoredAdvances(s: State, f: Faults, m: Match)
    ensures Advances(s, CompareStored(s, f, m))
  {
    SetMatchEvolves(s.data, f, m);
  }

  lemma SaveOrCompareAdvances(s: State, f: Faults, m: Match)
    ensures Advances(s, SaveOrCompare(s, f, m))
  {
    IndexKeys(MatchKind, m.id);
    SaveEvolves(s.data, f, Key(MatchKind, m.id), MatchBlob(m));
    CompareStoredAdvances(s, f, m);
  }

  /** A match's teams are saved (never overwritten), and its record is saved or rewritten. */
  lemma MatchStepAdvances(s: State, f: Faults, m: Match)
    ensures Advances(s, MatchStep(s, f, m))
  {
    var s1 := State(TeamsSaved(s.data, f, m), s.events);
    TeamsSavedEvolves(s.data, f, m);
    SaveOrCompareAdvances(s1, f, m);
    AdvancesTransitive(s, s1, MatchStep(s, f, m));
  }

  lemma {:induction false} MatchesStepAdvances(s: State, f: Faults, ms: seq<Match>)
    ensures Advances(s, MatchesStep(s, f, ms))
  {
    if ms != [] {
      var front := MatchesStep(s, f, ms[..|ms| - 1]);
      MatchesStepAdvances(s, f, ms[..|ms| - 1]);
      MatchStepAdvances(front, f, ms[|ms| - 1]);
      AdvancesTransitive(s, front, MatchesStep(s, f, ms));
    }
  }

  lemma LeagueStepAdvances(s: State, f: Faults, l: League)
    ensures Advances(s, LeagueStep(s, f, l))
  {
    IndexKeys(LeagueKind, l.id);
    var saved := SaveIfAbsent(s.data, f, Key(LeagueKind, l.id), LeagueBlob(l));
    SaveEvolves(s.data, f, Key(LeagueKind, l.id), LeagueBlob(l));
    if saved.err.None? {
      var events := if saved.created then s.events + [NewLeagueEvent(l)] else s.events;
      var s1 := State(saved.data, events);
      MatchesStepAdvances(s1, f, l.matches);
      AdvancesTransitive(s, s1, LeagueStep(s, f, l));
    }
  }

  lemma {:induction false} LeaguesStepAdvances(s: State, f: Faults, ls: seq<League>)
    ensures Advances(s, LeaguesStep(s, f, ls))
  {
    if ls != [] {
      var front := LeaguesStep(s, f, ls[..|ls| - 1]);
      LeaguesStepAdvances(s, f, ls[..|ls| - 1]);
      LeagueStepAdvances(front, f, ls[|ls| - 1]);
      AdvancesTransitive(s, front, LeaguesStep(s, f, ls));
    }
  }

  /** `BeginBlock` changes nothing unless the parameters read, the modulo divides the height and the fetch succeeds. */
  lemma NoEffectUnlessFetchBlock(s: State, f: Faults, params: Result<Params, Error>, height: Int64,
                                 fetched: Result<seq<League>, Error>)
    ensures var (outcome, s') := BeginBlockSpec(s, f, params, height, fetched);
      && (s' != s ==> params.Ok? && params.value.fetchModulo != 0
                      && GoRem(height, params.value.fetchModulo) == 0 && fetched.Ok?)
      && (outcome == Panicked <==> params.Ok? && params.value.fetchModulo == 0)
      && (outcome.Failed? <==>
            (params.Err? || (params.value.fetchModulo != 0 && GoRem(height, params.value.fetchModulo) == 0 && fetched.Err?)))
  {
  }

  /** With the default parameters the modulo is zero, so every block panics before fetching. */
  lemma DefaultParamsPanic(s: State, f: Faults, height: Int64, fetched: Result<seq<League>, Error>)
    ensures BeginBlockSpec(s, f, Ok(DefaultParams()), height, fetched) == (Panicked, s)
  {
  }

  /**
   * A block never writes or deletes an entry of the unfinished index, never
   * overwrites a team or league record, and only appends events.
   */
  lemma BeginBlockFrame(s: State, f: Faults, params: Result<Params, Error>, height: Int64,
                        fetched: Result<seq<League>, Error>)
    ensures var s' := BeginBlockSpec(s, f, params, height, fetched).1;
      && s.events <= s'.events
      && (forall k :: IsIndexKey(k) ==> (k in s'.data <==> k in s.data))
      && (forall k :: IsIndexKey(k) && k in s.data ==> s'.data[k] == s.data[k])
      && (forall k :: k in s.data && !IsMatchKey(k) ==> k in s'.data && s'.data[k] == s.data[k])
  {
    if params.Ok? && params.value.fetchModulo != 0 && GoRem(height, params.value.fetchModulo) == 0 && fetched.Ok? {
      LeaguesStepAdvances(s, f, fetched.value);
    }
  }

  /** So the unfinished-match listing after a block is the listing before it. */
  lemma BeginBlockKeepsListing(s: State, f: Faults, params: Result<Params, Error>, height: Int64,
                               fetched: Result<seq<League>, Error>, x: Int64)
    requires IndexShape(s.data) && !f.scan
    ensures var s' := BeginBlockSpec(s, f, params, height, fetched).1;
      && IndexShape(s'.data)
      && (x in ListedIds(s'.data, f).value <==> x in ListedIds(s.data, f).value)
  {
    var s' := BeginBlockSpec(s, f, params, height, fetched).1;
    BeginBlockFrame(s, f, params, height, fetched);
    if s' != s {
      LeaguesStepAdvances(s, f, fetched.value);
      assert Evolves(s.data, s'.data);
      forall k | k in s'.data
        ensures (IsIndexKey(k) <==> s'.data[k].Raw? && |s'.data[k].bytes| == 8)
        ensures (IsIndexKey(k) ==> s'.data[k].bytes == k[16..])
      {
        if k !in s.data {
          assert s'.data[k].Built?;
        } else if s'.data[k] != s.data[k] {
          assert IsMatchKey(k) && s'.data[k].Built?;
        }
      }
    }
    IndexKeys(UnfinishedKind, x);
    ListedIffIndexed(s.data, f, x);
    ListedIffIndexed(s'.data, f, x);
  }

  // ---------------------------------------------------------------------
  // Events
  // ---------------------------------------------------------------------

  /** The event types a match produces: `new_match` or one of the classifier's names. */
  predicate IsMatchEventKind(kind: string)
  {
    kind == "new_match" || (|kind| > 6 && kind[..6] == "match_")
  }

  /** A match emits at most one event, about itself. */
  lemma MatchStepEvents(s: State, f: Faults, m: Match)
    ensures var r := MatchStep(s, f, m);
      && s.events <= r.events && |r.events| <= |s.events| + 1
      && (|r.events| > |s.events| ==>
            r.events[|s.events|] == MatchEvent(r.events[|s.events|].kind, m)
            && IsMatchEventKind(r.events[|s.events|].kind))
  {
    var s1 := State(TeamsSaved(s.data, f, m), s.events);
    SaveOrCompareEvents(s1, f, m);
  }

  /** Events appended by one match: none, or one match event about `m`. */
  predicate AppendsMatchEvent(before: seq<Event>, after: seq<Event>, m: Match)
  {
    after == before
    || (&& |after| == |before| + 1
        && after == before + [MatchEvent(after[|before|].kind, m)]
        && IsMatchEventKind(after[|before|].kind))
  }

  lemma CompareStoredEvents(s: State, f: Faults, m: Match)
    ensures AppendsMatchEvent(s.events, CompareStored(s, f, m).events, m)
  {
  }

  lemma SaveOrCompareEvents(s: State, f: Faults, m: Match)
    ensures AppendsMatchEvent(s.events, SaveOrCompare(s, f, m).events, m)
  {
    CompareStoredEvents(s, f, m);
  }

  lemma {:induction false} MatchesStepEvents(s: State, f: Faults, ms: seq<Match>)
    ensures var r := MatchesStep(s, f, ms);
      && s.events <= r.events
      && forall i :: |s.events| <= i < |r.events| ==> IsMatchEventKind(r.events[i].kind)
  {
    if ms != [] {
      var front := MatchesStep(s, f, ms[..|ms| - 1]);
      MatchesStepEvents(s, f, ms[..|ms| - 1]);
      MatchStepEvents(front, f, ms[|ms| - 1]);
      var r := MatchStep(front, f, ms[|ms| - 1]);
      assert MatchesStep(s, f, ms) == r;
      forall i | |s.events| <= i < |r.events|
        ensures IsMatchEventKind(r.events[i].kind)
      {
        if i < |front.events| {
          assert r.events[i] == front.events[i];
        }
      }
    }
  }

  /** `new_league` is emitted exactly when the league record was created without error. */
  lemma NewLeagueIffCreated(s: State, f: Faults, l: League)
    ensures var saved := SaveIfAbsent(s.data, f, Key(LeagueKind, l.id), LeagueBlob(l));
      var r := LeagueStep(s, f, l);
      (|r.events| > |s.events| && r.events[|s.events|] == NewLeagueEvent(l)) <==> (saved.created && saved.err == None)
  {
    var saved := SaveIfAbsent(s.data, f, Key(LeagueKind, l.id), LeagueBlob(l));
    if saved.err == None {
      var events := if saved.created then s.events + [NewLeagueEvent(l)] else s.events;
      MatchesStepEvents(State(saved.data, events), f, l.matches);
      assert !IsMatchEventKind("new_league") by {
        assert "new_league"[..6] == "new_le";
      }
    }
  }

  /** A league whose save fails is skipped with all its matches: no write, no event. */
  lemma LeagueSaveFailureSkips(s: State, f: Faults, l: League)
    requires SaveIfAbsent(s.data, f, Key(LeagueKind, l.id), LeagueBlob(l)).err.Some?
    ensures LeagueStep(s, f, l) == s
  {
  }

  /**
   * A match whose key is new is saved and announced once with `new_match`,
   * whatever happens to its team saves; it is not compared.
   */
  lemma NewMatchAnnounced(s: State, f: Faults, m: Match)
    requires Key(MatchKind, m.id) !in s.data
    requires !Fails(f, HasOp, Key(MatchKind, m.id)) && !Fails(f, SetOp, Key(MatchKind, m.id))
    ensures var r := MatchStep(s, f, m);
      && r.events == s.events + [MatchEvent("new_match", m)]
      && Key(MatchKind, m.id) in r.data && r.data[Key(MatchKind, m.id)] == MatchBlob(m)
  {
    TeamsSavedKeepsMatch(s.data, f, m);
  }

  /** Saving the teams leaves every match record where it was. */
  lemma TeamsSavedKeepsMatch(data: Data, f: Faults, m: Match)
    ensures var d := TeamsSaved(data, f, m);
      && (Key(MatchKind, m.id) in d <==> Key(MatchKind, m.id) in data)
      && (Key(MatchKind, m.id) in data ==> d[Key(MatchKind, m.id)] == data[Key(MatchKind, m.id)])
  {
    KindsDisjoint(TeamKind, MatchKind, m.home.id, m.id);
    KindsDisjoint(TeamKind, MatchKind, m.away.id, m.id);
  }

  /**
   * A match already stored is compared with the stored record: it is
   * rewritten exactly when the classifier reports a change and `SetMatch`
   * works, and announced exactly when, in addition, the change is worth an
   * event. A failing read or write skips only this match.
   */
  lemma ExistingMatchCompared(s: State, f: Faults, m: Match)
    requires Key(MatchKind, m.id) in s.data
    ensures var d := TeamsSaved(s.data, f, m);
      var stored := ReadMatch(d, f, m.id);
      var r := MatchStep(s, f, m);
      && (stored.Err? ==> r == State(d, s.events))
      && (stored.Ok? && (Compare(m, stored.value) == PriorityNoChanges || Fails(f, SetOp, Key(MatchKind, m.id))) ==>
            r == State(d, s.events))
      && (stored.Ok? && Compare(m, stored.value) != PriorityNoChanges && !Fails(f, SetOp, Key(MatchKind, m.id)) ==>
            r.data == d[Key(MatchKind, m.id) := MatchBlob(m)]
                && (r.events != s.events <==> Compare(m, stored.value) >= MinimumEventPriority)
                && (r.events != s.events ==> r.events == s.events + [MatchEvent(EventName(Compare(m, stored.value)), m)]))
  {
    var d := TeamsSaved(s.data, f, m);
    TeamsSavedKeepsMatch(s.data, f, m);
    assert MatchStep(s, f, m) == CompareStored(State(d, s.events), f, m);
  }

  // ---------------------------------------------------------------------
  // Live matches are re-announced on every cycle
  // ---------------------------------------------------------------------

  /** The conditions under which a stored match is read back and compared. */
  predicate Readable(data: Data, m: Match)
  {
    && ReadMatch(data, NoFaults, m.id).Ok?
    && ReadTeam(data, NoFaults, m.home.id).Ok?
    && ReadTeam(data, NoFaults, m.away.id).Ok?
  }

  /**
   * The stored record never holds the ongoing flag, so an incoming match
   * that is ongoing is classified as changed, rewritten and announced with
   * `match_ongoing` or higher, and stays readable for the next cycle.
   */
  lemma OngoingMatchReannounced(data: Data, events: seq<Event>, m: Match)
    requires m.status.ongoing && FitsInt32(m.home.id) && FitsInt32(m.away.id)
    requires Readable(data, m)
    ensures var p := Compare(m, ReadMatch(data, NoFaults, m.id).value);
      var r := MatchStep(State(data, events), NoFaults, m);
      && PriorityOngoing <= p
      && r.events == events + [MatchEvent(EventName(p), m)]
      && r.data == data[Key(MatchKind, m.id) := MatchBlob(m)]
      && Readable(r.data, m)
  {
    var stored := ReadMatch(data, NoFaults, m.id).value;
    assert TeamsSaved(data, NoFaults, m) == data;
    ReadMatchNotLive(data, NoFaults, m.id);
    OngoingChangeIsAnnounced(m, stored);
    var d' := data[Key(MatchKind, m.id) := MatchBlob(m)];
    MatchRoundTrip(m);
    assert MatchStep(State(data, events), NoFaults, m) == CompareStored(State(data, events), NoFaults, m);
    KindsDisjoint(TeamKind, MatchKind, m.home.id, m.id);
    KindsDisjoint(TeamKind, MatchKind, m.away.id, m.id);
    assert ReadTeam(d', NoFaults, m.home.id) == ReadTeam(data, NoFaults, m.home.id);
    assert ReadTeam(d', NoFaults, m.away.id) == ReadTeam(data, NoFaults, m.away.id);
  }

  /**
   * A stored match that is not live, whose numbers fit the record and whose
   * teams are stored, is quiet: reconciling it again changes nothing.
   */
  lemma SteadyMatchQuiet(data: Data, events: seq<Event>, m: Match)
    requires Key(MatchKind, m.id) in data && data[Key(MatchKind, m.id)] == MatchBlob(m)
    requires ReadTeam(data, NoFaults, m.home.id).Ok? && ReadTeam(data, NoFaults, m.away.id).Ok?
    requires FitsInt32(m.home.id) && FitsInt32(m.away.id)
    requires FitsInt32(m.home.score) && FitsInt32(m.away.score) && FitsInt32(m.status.periodLength)
    requires !m.status.ongoing && m.status.liveTime == NoLiveTime
    ensures MatchStep(State(data, events), NoFaults, m) == State(data, events)
  {
    assert TeamsSaved(data, NoFaults, m) == data;
    MatchRoundTrip(m);
    var stored := ReadMatch(data, NoFaults, m.id).value;
    assert Observed(stored) == Observed(m);
  }
}
