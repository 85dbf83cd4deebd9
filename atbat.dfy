/** The at-bat tracker (proposed-fix.js): three variables that say whether
    the tracked batter is at the plate, in which at-bat and since when, and
    `checkIfCalIsUpToBat`, which moves them on each poll. */
module AtBat {
  import opened Base
  import opened Feed
  import Text

  /** An at-bat is abandoned after ten minutes without a result. */
  const AtBatTimeoutMs := 10 * 60 * 1000

  /** `calIsUpToBat`, `calCurrentAtBatIndex`, `calAtBatStartTime`. */
  datatype Tracker = Tracker(up: bool, index: Option<int>, start: Option<int>)

  const Idle := Tracker(false, None, None)

  /** The tie between the three variables: the start time is set exactly
      while the batter is up, and no at-bat is remembered while he is not. */
  predicate Consistent(t: Tracker) {
    (t.up <==> t.start.Some?) && (!t.up ==> t.index.None?)
  }

  /** What one call returns and does besides updating the tracker. */
  datatype Check = Check(
    next: Tracker,
    calUp: bool,            // the function's result
    intervalUpdated: bool,  // `updatePollInterval()` was called
    resultSent: bool)       // `sendCalAtBatResult(gamePk)` was called

  /** `String(batter.id)`: an absent id prints as "undefined". */
  function BatterIdText(b: Batter): string {
    if b.id.Some? then IdText(b.id.value) else "undefined"
  }

  /** `String(play?.matchup?.batter?.id)`. */
  function PlayBatterText(p: Play): string {
    if p.batter.Some? then BatterIdText(p.batter.value) else "undefined"
  }

  /** `currentBatter && String(currentBatter.id) === String(CAL_RALEIGH_PLAYER_ID)`. */
  predicate TrackedIsCurrentBatter(current: Option<Play>, playerId: string) {
    current.Some? && current.value.batter.Some? && BatterIdText(current.value.batter.value) == playerId
  }

  /** `currentPlay?.about?.atBatIndex`. */
  function CurrentAtBatIndex(current: Option<Play>): Option<int> {
    if current.Some? then current.value.atBatIndex else None
  }

  /** The predicate passed to `allPlays.find`: a play by the tracked batter
      with the remembered at-bat index. */
  predicate IsTrackedAtBat(p: Play, playerId: string, index: Option<int>) {
    PlayBatterText(p) == playerId && p.atBatIndex == index
  }

  /** `allPlays.find(...)`: the first play by the tracked batter with the
      remembered at-bat index. */
  function FindAtBat(plays: seq<Play>, playerId: string, index: Option<int>): (r: Option<Play>)
    ensures r.Some? ==> exists i :: 0 <= i < |plays| && plays[i] == r.value && IsTrackedAtBat(plays[i], playerId, index)
                                    && forall j :: 0 <= j < i ==> !IsTrackedAtBat(plays[j], playerId, index)
    ensures r.None? ==> forall i :: 0 <= i < |plays| ==> !IsTrackedAtBat(plays[i], playerId, index)
    decreases |plays|
  {
    if plays == [] then None
    else if IsTrackedAtBat(plays[0], playerId, index) then Some(plays[0])
    else
      var r := FindAtBat(plays[1..], playerId, index);
      assert forall i :: 1 <= i < |plays| ==> plays[i] == plays[1..][i - 1];
      assert r.Some? ==> exists i :: 0 <= i < |plays| && plays[i] == r.value && IsTrackedAtBat(plays[i], playerId, index)
                                     && forall j :: 0 <= j < i ==> !IsTrackedAtBat(plays[j], playerId, index) by {
        if r.Some? {
          var k :| 0 <= k < |plays[1..]| && plays[1..][k] == r.value && IsTrackedAtBat(plays[1..][k], playerId, index)
                   && forall j :: 0 <= j < k ==> !IsTrackedAtBat(plays[1..][j], playerId, index);
          assert plays[k + 1] == plays[1..][k];
          assert forall j :: 1 <= j < k + 1 ==> plays[j] == plays[1..][j - 1];
        }
      }
      r
  }

  /** `calAtBat?.result?.eventType` is truthy. */
  predicate HasResult(p: Option<Play>) {
    p.Some? && p.value.result.Some? && p.value.result.value.eventType.Some?
    && p.value.result.value.eventType.value != ""
  }

  /** `calAtBatStartTime && (Date.now() - calAtBatStartTime > 10 * 60 * 1000)`;
      a start time of 0 is falsy and never times out. */
  predicate TimeoutReached(t: Tracker, now: int) {
    t.start.Some? && t.start.value != 0 && now - t.start.value > AtBatTimeoutMs
  }

  /** `checkIfCalIsUpToBat(gamePk)` given the outcome of the feed request
      (a failed request, or a falsy gamePk, throws into the `catch`). */
  function CheckUp(t: Tracker, feed: Fetch<LiveFeed>, now: int, playerId: string): Check {
    match feed
    case FetchFailed =>
      if t.up then Check(Idle, false, true, false) else Check(t, false, false, false)
    case Fetched(f) =>
      if f.liveData.None? then Check(t, false, false, false)
      else
        var live := f.liveData.value;
        var index := CurrentAtBatIndex(live.currentPlay);
        if TrackedIsCurrentBatter(live.currentPlay, playerId) then
          if !t.up || t.index != index then Check(Tracker(true, index, Some(now)), true, true, false)
          else Check(t, true, false, false)
        else if t.up then
          var timeout := TimeoutReached(t, now);
          if HasResult(FindAtBat(live.allPlays, playerId, t.index)) || timeout then
            Check(Idle, false, true, !timeout)
          else Check(t, false, false, false)
        else Check(t, false, false, false)
  }

  // ---------------------------------------------------------------------
  // Properties of one check
  // ---------------------------------------------------------------------

  /** Every path keeps the three variables consistent. */
  lemma CheckKeepsConsistent(t: Tracker, feed: Fetch<LiveFeed>, now: int, playerId: string)
    requires Consistent(t)
    ensures Consistent(CheckUp(t, feed, now, playerId).next)
  {
  }

  /** The function returns true exactly when the feed was read and the
      tracked player is the current batter. */
  lemma CalUpIffCurrentBatter(t: Tracker, feed: Fetch<LiveFeed>, now: int, playerId: string)
    ensures CheckUp(t, feed, now, playerId).calUp <==>
      feed.Fetched? && feed.value.liveData.Some? && TrackedIsCurrentBatter(feed.value.liveData.value.currentPlay, playerId)
  {
  }

  /** Entering the at-bat: the tracker is (re)started, at the current index
      and time, when it was not up or was following another at-bat; the same
      at-bat continuing changes nothing. */
  lemma EnterOrContinue(t: Tracker, feed: Fetch<LiveFeed>, now: int, playerId: string)
    requires feed.Fetched? && feed.value.liveData.Some?
    requires TrackedIsCurrentBatter(feed.value.liveData.value.currentPlay, playerId)
    ensures var c := CheckUp(t, feed, now, playerId);
            var index := CurrentAtBatIndex(feed.value.liveData.value.currentPlay);
            c.calUp && !c.resultSent
            && (!t.up || t.index != index ==> c.next == Tracker(true, index, Some(now)) && c.intervalUpdated)
            && (t.up && t.index == index ==> c.next == t && !c.intervalUpdated)
  {
  }

  /** Leaving the at-bat: while up and no longer the current batter, the
      tracker resets exactly when the remembered at-bat has a result or the
      timeout has passed, and otherwise stays as it is. */
  lemma ExitIffResultOrTimeout(t: Tracker, feed: Fetch<LiveFeed>, now: int, playerId: string)
    requires Consistent(t) && t.up
    requires feed.Fetched? && feed.value.liveData.Some?
    requires !TrackedIsCurrentBatter(feed.value.liveData.value.currentPlay, playerId)
    ensures var c := CheckUp(t, feed, now, playerId);
            var done := HasResult(FindAtBat(feed.value.liveData.value.allPlays, playerId, t.index)) || TimeoutReached(t, now);
            !c.calUp && (c.next == Idle <==> done) && (!done ==> c.next == t)
  {
  }

  /** The at-bat result is sent exactly when the tracker leaves the at-bat
      because the remembered at-bat has a result and not on a timeout. */
  lemma ResultSentOnlyOnResultExit(t: Tracker, feed: Fetch<LiveFeed>, now: int, playerId: string)
    ensures var c := CheckUp(t, feed, now, playerId);
            c.resultSent <==>
              t.up && !TimeoutReached(t, now)
              && feed.Fetched? && feed.value.liveData.Some?
              && !TrackedIsCurrentBatter(feed.value.liveData.value.currentPlay, playerId)
              && HasResult(FindAtBat(feed.value.liveData.value.allPlays, playerId, t.index))
    ensures var c := CheckUp(t, feed, now, playerId); c.resultSent ==> c.next == Idle
  {
  }

  /** A failed request never leaves the tracker up, and returns false. */
  lemma ErrorResets(t: Tracker, now: int, playerId: string)
    requires Consistent(t)
    ensures CheckUp(t, FetchFailed, now, playerId).next == Idle
    ensures !CheckUp(t, FetchFailed, now, playerId).calUp
  {
  }

  /** A feed without `liveData` returns false and changes nothing: not even
      the timeout is checked. */
  lemma NoLiveDataNoChange(t: Tracker, now: int, playerId: string)
    ensures CheckUp(t, Fetched(LiveFeed(None)), now, playerId) == Check(t, false, false, false)
  {
  }

  /** `updatePollInterval()` is called exactly when the tracker changes. */
  lemma IntervalUpdatedIffChanged(t: Tracker, feed: Fetch<LiveFeed>, now: int, playerId: string)
    requires Consistent(t)
    ensures var c := CheckUp(t, feed, now, playerId); c.intervalUpdated <==> c.next != t
  {
  }

  /** Once more than ten minutes have passed since a non-zero start, the next
      check that sees another batter at the plate resets the tracker, whether
      or not the at-bat has a result. */
  lemma TimeoutEndsAtBat(t: Tracker, feed: Fetch<LiveFeed>, now: int, playerId: string)
    requires Consistent(t) && t.up && t.start.value != 0 && now > t.start.value + AtBatTimeoutMs
    requires feed.Fetched? && feed.value.liveData.Some?
    requires !TrackedIsCurrentBatter(feed.value.liveData.value.currentPlay, playerId)
    ensures CheckUp(t, feed, now, playerId).next == Idle
  {
  }

  /** The timeout is only looked at once the tracked player is no longer the
      current batter: a feed stuck on his at-bat keeps the tracker up however
      much time passes. */
  lemma StuckAtBatNeverTimesOut(t: Tracker, feed: Fetch<LiveFeed>, now: int, playerId: string)
    requires t.up && feed.Fetched? && feed.value.liveData.Some?
    requires TrackedIsCurrentBatter(feed.value.liveData.value.currentPlay, playerId)
    requires t.index == CurrentAtBatIndex(feed.value.liveData.value.currentPlay)
    ensures CheckUp(t, feed, now, playerId).next == t
  {
  }

  // ---------------------------------------------------------------------
  // The worked example: at-bat 45 ends in a groundout
  // ---------------------------------------------------------------------

  function ExamplePlay(batter: IdValue, index: int, eventType: Option<string>): Play {
    Play(Some(PlayResult(eventType, None, None)), Some(Batter(Some(batter))), Some(index),
         Some(5), Some(false), None, None, None, None, None)
  }

  /** At-bat 45 by the tracked batter now carries "groundout" and the next
      batter is up in at-bat 46: the tracker resets, the result is sent once,
      and the following check with the same feed sends nothing more. */
  lemma GroundoutExample(start: int, now: int)
    requires start != 0 && start <= now <= start + AtBatTimeoutMs
    ensures var feed := Fetched(LiveFeed(Some(LiveData(
                          Some(ExamplePlay(IdNumber(123456), 46, None)),
                          [ExamplePlay(IdNumber(668939), 45, Some("groundout")),
                           ExamplePlay(IdNumber(123456), 46, None)]))));
            var first := CheckUp(Tracker(true, Some(45), Some(start)), feed, now, "668939");
            var second := CheckUp(first.next, feed, now, "668939");
            first.next == Idle && first.resultSent && !first.calUp
            && second.next == Idle && !second.resultSent && !second.calUp
  {
    var cal := ExamplePlay(IdNumber(668939), 45, Some("groundout"));
    var other := ExamplePlay(IdNumber(123456), 46, None);
    ExampleIdTexts();
    assert PlayBatterText(cal) == "668939";
    assert FindAtBat([cal, other], "668939", Some(45)) == Some(cal);
  }

  /** The tracked batter's id prints as "668939"; the other batter's does not. */
  lemma ExampleIdTexts()
    ensures IdText(IdNumber(668939)) == "668939"
    ensures IdText(IdNumber(123456)) != "668939"
  {
    assert Text.NatToString(6) == "6";
    assert Text.NatToString(66) == "66";
    assert Text.NatToString(668) == "668";
    assert Text.NatToString(6689) == "6689";
    assert Text.NatToString(66893) == "66893";
    var t := Text.NatToString(123456);
    assert t == Text.NatToString(12345) + ['6'];
    assert t[|t| - 1] == '6';
  }

  // ---------------------------------------------------------------------
  // The module-level variables
  // ---------------------------------------------------------------------

  class AtBatTracker {
    const playerId: string             // CAL_RALEIGH_PLAYER_ID
    var calIsUpToBat: bool
    var calCurrentAtBatIndex: Option<int>
    var calAtBatStartTime: Option<int>
    var intervalUpdates: nat           // calls to updatePollInterval()
    var resultRequests: seq<int>       // gamePks passed to sendCalAtBatResult()

    function State(): Tracker
      reads this
    {
      Tracker(calIsUpToBat, calCurrentAtBatIndex, calAtBatStartTime)
    }

    ghost predicate Valid()
      reads this
    {
      Consistent(State())
    }

    constructor(playerId: string)
      ensures Valid() && State() == Idle && this.playerId == playerId
      ensures intervalUpdates == 0 && resultRequests == []
    {
      this.playerId := playerId;
      calIsUpToBat := false;
      calCurrentAtBatIndex := None;
      calAtBatStartTime := None;
      intervalUpdates := 0;
      resultRequests := [];
    }

    /** `checkIfCalIsUpToBat(gamePk)` at time `now`. */
    method CheckIfCalIsUpToBat(gamePk: Option<int>, feeds: int -> Fetch<LiveFeed>, now: int) returns (calUp: bool)
      requires Valid()
      modifies this
      ensures Valid()
      ensures var c := CheckUp(old(State()), FetchLiveFeed(gamePk, feeds), now, playerId);
              State() == c.next && calUp == c.calUp
              && intervalUpdates == old(intervalUpdates) + (if c.intervalUpdated then 1 else 0)
              && resultRequests == old(resultRequests) + (if c.resultSent then [gamePk.value] else [])
    {
      var feed := FetchLiveFeed(gamePk, feeds);
      if feed.FetchFailed? {
        // catch: reset the flags so that a failure cannot leave them stuck
        if calIsUpToBat {
          calIsUpToBat := false;
          calCurrentAtBatIndex := None;
          calAtBatStartTime := None;
          intervalUpdates := intervalUpdates + 1;
        }
        return false;
      }
      var liveData := feed.value.liveData;
      if liveData.None? {
        return false;
      }
      var currentPlay := liveData.value.currentPlay;
      var currentAtBatIndex := CurrentAtBatIndex(currentPlay);
      if TrackedIsCurrentBatter(currentPlay, playerId) {
        if !calIsUpToBat || calCurrentAtBatIndex != currentAtBatIndex {
          calIsUpToBat := true;
          calCurrentAtBatIndex := currentAtBatIndex;
          calAtBatStartTime := Some(now);
          intervalUpdates := intervalUpdates + 1;
        }
        return true;
      }
      if calIsUpToBat {
        var calAtBat := FindAtBat(liveData.value.allPlays, playerId, calCurrentAtBatIndex);
        var timeoutReached := calAtBatStartTime.Some? && calAtBatStartTime.value != 0
                              && now - calAtBatStartTime.value > AtBatTimeoutMs;
        if HasResult(calAtBat) || timeoutReached {
          calIsUpToBat := false;
          calCurrentAtBatIndex := None;
          calAtBatStartTime := None;
          intervalUpdates := intervalUpdates + 1;
          if !timeoutReached {
            resultRequests := resultRequests + [gamePk.value];
          }
        }
      }
      return false;
    }
  }
}
