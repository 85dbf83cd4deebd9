/** The polling loop of the bot (src/server.js): discovering today's game,
    scanning its live feed for home runs by the tracked batter, and the
    process-wide state that these update — the tracked gamePk, the set of
    notified event ids, the messages sent and the interval timer. */
module Server {
  import opened Base
  import opened Feed
  import opened Detection
  import opened Dedup
  import opened Dates

  // ---------------------------------------------------------------------
  // Game discovery (`findTodayMarinersGamePk`)
  // ---------------------------------------------------------------------

  /** Index `i` holds the first schedule date that has any games. */
  ghost predicate FirstDateWithGames(dates: seq<ScheduleDate>, i: int) {
    0 <= i < |dates| && dates[i].games != [] && forall j :: 0 <= j < i ==> dates[j].games == []
  }

  /** The first game of the first date that has games, if any. */
  function FirstGame(dates: seq<ScheduleDate>): Option<ScheduledGame>
    decreases |dates|
  {
    if dates == [] then None
    else if dates[0].games != [] then Some(dates[0].games[0])
    else FirstGame(dates[1..])
  }

  /** FirstGame finds nothing exactly when no date has a game, and otherwise
      finds the first game of the first date that has one. */
  lemma {:induction false} FirstGameIsFirst(dates: seq<ScheduleDate>)
    ensures FirstGame(dates).None? <==> forall i :: 0 <= i < |dates| ==> dates[i].games == []
    ensures FirstGame(dates).Some? ==>
      exists i :: FirstDateWithGames(dates, i) && FirstGame(dates).value == dates[i].games[0]
    decreases |dates|
  {
    if dates != [] {
      if dates[0].games != [] {
        assert FirstDateWithGames(dates, 0);
      } else {
        FirstGameIsFirst(dates[1..]);
        assert forall i :: 1 <= i < |dates| ==> dates[i] == dates[1..][i - 1];
        if FirstGame(dates).Some? {
          var i :| FirstDateWithGames(dates[1..], i) && FirstGame(dates[1..]).value == dates[1..][i].games[0];
          assert FirstDateWithGames(dates, i + 1);
        }
      }
    }
  }

  /** What `findTodayMarinersGamePk` returns: the gamePk of the first game
      listed for today's date, or nothing when the schedule request fails or
      lists no game. `schedules` gives the provider's answer per date. */
  function DiscoverGamePk(clock: Clock, schedules: string -> Fetch<Schedule>): Option<int>
    requires ValidDate(clock.utc)
  {
    match schedules(TodayDateString(clock))
    case FetchFailed => None
    case Fetched(s) => if FirstGame(s.dates).Some? then FirstGame(s.dates).value.gamePk else None
  }

  /** `findTodayMarinersGamePk()`: walks the dates and their games and returns
      the first game's gamePk; a failed request is caught and gives nothing. */
  method FindTodayMarinersGamePk(clock: Clock, schedules: string -> Fetch<Schedule>) returns (pk: Option<int>)
    requires ValidDate(clock.utc)
    ensures pk == DiscoverGamePk(clock, schedules)
    ensures schedules(TodayDateString(clock)).Fetched? && pk.Some? ==>
      exists i :: FirstDateWithGames(schedules(TodayDateString(clock)).value.dates, i)
                  && pk == schedules(TodayDateString(clock)).value.dates[i].games[0].gamePk
  {
    var date := TodayDateString(clock);
    var response := schedules(date);
    if response.FetchFailed? {
      return None;
    }
    var dates := response.value.dates;
    FirstGameIsFirst(dates);
    var i := 0;
    while i < |dates|
      invariant 0 <= i <= |dates|
      invariant FirstGame(dates) == FirstGame(dates[i..])
    {
      var games := dates[i].games;
      // The inner `for (const game of games)` returns from its first iteration.
      if games != [] {
        return games[0].gamePk;
      }
      assert dates[i..][1..] == dates[i + 1..];
      i := i + 1;
    }
    return None;
  }

  // ---------------------------------------------------------------------
  // One poll cycle, as a function of the state before it
  // ---------------------------------------------------------------------

  /** What `checkForCalDingers(gamePk)` does to the notified set and what it
      sends: nothing when the gamePk is falsy or the feed request fails,
      otherwise one scan of the feed's plays. */
  function DingerCheck(pk: Option<int>, feeds: int -> Fetch<LiveFeed>, seen: set<string>, playerId: string, hr: int): ScanResult {
    match FetchLiveFeed(pk, feeds)
    case FetchFailed => ScanResult(seen, [])
    case Fetched(f) => Scan(AllPlays(f), seen, playerId, hr)
  }

  datatype CycleResult = CycleResult(gamePk: Option<int>, seen: set<string>, sent: seq<Sent>)

  /** One run of `pollLoop`. `escaped` stands for an exception that reaches
      the loop's own `catch`; every call inside the loop catches its own
      failures, so this models an unexpected error, raised before the scan. */
  function PollCycle(pk: Option<int>, seen: set<string>, clock: Clock, schedules: string -> Fetch<Schedule>,
                     feeds: int -> Fetch<LiveFeed>, playerId: string, hr: int, escaped: bool): CycleResult
    requires ValidDate(clock.utc)
  {
    if escaped then CycleResult(None, seen, [])
    else
      var tracked := TrackedGame(pk, clock, schedules);
      var r := if PkTruthy(tracked) then DingerCheck(tracked, feeds, seen, playerId, hr) else ScanResult(seen, []);
      CycleResult(tracked, r.seen, r.sent)
  }

  /** The game a cycle follows: the one already tracked, or else what
      discovery finds for today. */
  function TrackedGame(pk: Option<int>, clock: Clock, schedules: string -> Fetch<Schedule>): Option<int>
    requires ValidDate(clock.utc)
  {
    if PkTruthy(pk) then pk else DiscoverGamePk(clock, schedules)
  }

  /** A cycle that follows a game is the dinger check of that game. */
  lemma TrackedCycle(pk: Option<int>, seen: set<string>, clock: Clock, schedules: string -> Fetch<Schedule>,
                     feeds: int -> Fetch<LiveFeed>, playerId: string, hr: int)
    requires ValidDate(clock.utc) && PkTruthy(TrackedGame(pk, clock, schedules))
    ensures var t := TrackedGame(pk, clock, schedules);
            var d := DingerCheck(t, feeds, seen, playerId, hr);
            PollCycle(pk, seen, clock, schedules, feeds, playerId, hr, false) == CycleResult(t, d.seen, d.sent)
  {
  }

  /** With no game tracked, the cycle tracks whatever discovery returns, and
      when that is no game it runs no dinger check. */
  lemma UntrackedCycleDiscovers(pk: Option<int>, seen: set<string>, clock: Clock, schedules: string -> Fetch<Schedule>,
                                feeds: int -> Fetch<LiveFeed>, playerId: string, hr: int)
    requires ValidDate(clock.utc) && !PkTruthy(pk)
    ensures var r := PollCycle(pk, seen, clock, schedules, feeds, playerId, hr, false);
            r.gamePk == DiscoverGamePk(clock, schedules)
            && (!PkTruthy(r.gamePk) ==> r.seen == seen && r.sent == [])
  {
  }

  /** A tracked game is kept, and neither the schedule nor the clock is
      consulted: the cycle is the same whatever the schedule says and
      whatever day it is, so the first game found stays tracked after it
      ends and on every later day. */
  lemma TrackedGameKept(pk: Option<int>, seen: set<string>, clock: Clock, otherClock: Clock,
                        schedules: string -> Fetch<Schedule>, otherSchedules: string -> Fetch<Schedule>,
                        feeds: int -> Fetch<LiveFeed>, playerId: string, hr: int)
    requires ValidDate(clock.utc) && ValidDate(otherClock.utc) && PkTruthy(pk)
    ensures PollCycle(pk, seen, clock, schedules, feeds, playerId, hr, false).gamePk == pk
    ensures PollCycle(pk, seen, clock, schedules, feeds, playerId, hr, false)
            == PollCycle(pk, seen, otherClock, otherSchedules, feeds, playerId, hr, false)
  {
  }

  /** An error caught by the loop forgets the tracked game, so the next cycle
      rediscovers it; nothing is sent. */
  lemma ErrorForgetsGame(pk: Option<int>, seen: set<string>, clock: Clock, schedules: string -> Fetch<Schedule>,
                         feeds: int -> Fetch<LiveFeed>, playerId: string, hr: int)
    requires ValidDate(clock.utc)
    ensures PollCycle(pk, seen, clock, schedules, feeds, playerId, hr, true) == CycleResult(None, seen, [])
    ensures var next := PollCycle(None, seen, clock, schedules, feeds, playerId, hr, false);
            next.gamePk == DiscoverGamePk(clock, schedules)
  {
  }

  /** Every cycle keeps the at-most-once guarantee of the sent log. */
  lemma CycleKeepsAtMostOnce(log: seq<Sent>, pk: Option<int>, seen: set<string>, clock: Clock, schedules: string -> Fetch<Schedule>,
                             feeds: int -> Fetch<LiveFeed>, playerId: string, hr: int, escaped: bool)
    requires ValidDate(clock.utc) && AtMostOnce(log, seen)
    ensures var r := PollCycle(pk, seen, clock, schedules, feeds, playerId, hr, escaped);
            AtMostOnce(log + r.sent, r.seen) && seen <= r.seen
  {
    var r := PollCycle(pk, seen, clock, schedules, feeds, playerId, hr, escaped);
    if r.sent == [] {
      assert log + r.sent == log;
    } else {
      var tracked := TrackedGame(pk, clock, schedules);
      var f := FetchLiveFeed(tracked, feeds);
      ScanKeepsAtMostOnce(log, AllPlays(f.value), seen, playerId, hr);
      ScanRecordsSent(AllPlays(f.value), seen, playerId, hr);
    }
    if !escaped {
      var tracked := TrackedGame(pk, clock, schedules);
      var f := FetchLiveFeed(tracked, feeds);
      if PkTruthy(tracked) && f.Fetched? {
        ScanRecordsSent(AllPlays(f.value), seen, playerId, hr);
      }
    }
  }

  /** Two cycles that overlap, as `setInterval` allows when a cycle outlasts
      the interval: both test the notified set before either adds to it, so
      each sees it as it was when both started. A new home run in the feed is
      then sent once by each, and the log holds its id twice. */
  lemma OverlappingCyclesNotifyTwice(pk: Option<int>, seen: set<string>, clock: Clock, schedules: string -> Fetch<Schedule>,
                                     feeds: int -> Fetch<LiveFeed>, playerId: string, hr: int, p: Play)
    requires ValidDate(clock.utc) && PkTruthy(pk)
    requires feeds(pk.value) == Fetched(LiveFeed(Some(LiveData(None, [p]))))
    requires Qualifies(p, playerId) && EventId(p) !in seen
    ensures var first := PollCycle(pk, seen, clock, schedules, feeds, playerId, hr, false);
            var second := PollCycle(pk, seen, clock, schedules, feeds, playerId, hr, false);
            first.sent == second.sent == [Notice(p, hr)]
            && !DistinctIds(first.sent + second.sent)
  {
    assert [p][..0] == [];
    assert Scan([], seen, playerId, hr) == ScanResult(seen, []);
    assert Scan([p], seen, playerId, hr).sent == [Notice(p, hr)];
    var log := [Notice(p, hr)] + [Notice(p, hr)];
    assert log[0].eventId == log[1].eventId;
  }

  /** Polling the same game again with an unchanged feed sends nothing. */
  lemma RepeatedCycleSendsNothing(pk: Option<int>, seen: set<string>, clock: Clock, schedules: string -> Fetch<Schedule>,
                                  feeds: int -> Fetch<LiveFeed>, playerId: string, hr: int, hr2: int)
    requires ValidDate(clock.utc)
    ensures var first := PollCycle(pk, seen, clock, schedules, feeds, playerId, hr, false);
            var second := PollCycle(first.gamePk, first.seen, clock, schedules, feeds, playerId, hr2, false);
            second.sent == [] && second.seen == first.seen && second.gamePk == first.gamePk
  {
    var first := PollCycle(pk, seen, clock, schedules, feeds, playerId, hr, false);
    if PkTruthy(first.gamePk) {
      var f := FetchLiveFeed(first.gamePk, feeds);
      if f.Fetched? {
        RescanSendsNothing(AllPlays(f.value), seen, playerId, hr, hr2);
      }
    }
  }

  // ---------------------------------------------------------------------
  // The bot's process-wide state
  // ---------------------------------------------------------------------

  /** The timer `setInterval` arms, with its period. */
  datatype Interval = Interval(periodMs: int)

  class DingerBot {
    const playerId: string            // CAL_RALEIGH_PLAYER_ID
    const pollIntervalMs: int         // POLL_INTERVAL_MS
    var notifiedEventIds: set<string>
    var outbox: seq<Sent>             // every message handed to the sender
    var currentGamePk: Option<int>
    var pollTimer: Option<Interval>

    /** Each event id has been notified at most once, and every notified
        message's id is remembered. */
    ghost predicate Valid()
      reads this
    {
      AtMostOnce(outbox, notifiedEventIds)
    }

    constructor(playerId: string, pollIntervalMs: int)
      ensures Valid()
      ensures this.playerId == playerId && this.pollIntervalMs == pollIntervalMs
      ensures notifiedEventIds == {} && outbox == [] && currentGamePk == None && pollTimer == None
    {
      this.playerId := playerId;
      this.pollIntervalMs := pollIntervalMs;
      notifiedEventIds := {};
      outbox := [];
      currentGamePk := None;
      pollTimer := None;
    }

    /** `checkForCalDingers(gamePk)`. */
    method CheckForCalDingers(gamePk: Option<int>, feeds: int -> Fetch<LiveFeed>, seasonHomeRuns: int)
      requires Valid()
      modifies this`notifiedEventIds, this`outbox
      ensures Valid()
      ensures var r := DingerCheck(gamePk, feeds, old(notifiedEventIds), playerId, seasonHomeRuns);
              notifiedEventIds == r.seen && outbox == old(outbox) + r.sent
    {
      if !PkTruthy(gamePk) {
        return;  // "No gamePk provided"
      }
      var feed := FetchLiveFeed(gamePk, feeds);
      if feed.FetchFailed? {
        return;  // the request's exception is caught and logged
      }
      var plays := AllPlays(feed.value);
      ghost var seen0 := notifiedEventIds;
      ghost var acc := ScanResult(seen0, []);
      var i := 0;
      while i < |plays|
        invariant 0 <= i <= |plays|
        invariant acc == Scan(plays[..i], seen0, playerId, seasonHomeRuns)
        invariant notifiedEventIds == acc.seen && outbox == old(outbox) + acc.sent
      {
        var play := plays[i];
        ScanPrefixStep(plays, i, seen0, playerId, seasonHomeRuns);
        if IsHomeRunPlay(play) && BatterIsCal(play, playerId) {
          var eventId := EventId(play);
          if !(eventId != "" && eventId in notifiedEventIds) {
            var msg := FormatHrMessage(play, seasonHomeRuns);
            outbox := outbox + [Sent(eventId, msg)];
            if eventId != "" {
              notifiedEventIds := notifiedEventIds + {eventId};
            }
          }
        }
        acc := ScanStep(acc, play, playerId, seasonHomeRuns);
        i := i + 1;
      }
      assert plays[..|plays|] == plays;
      ScanKeepsAtMostOnce(old(outbox), plays, seen0, playerId, seasonHomeRuns);
    }

    /** `pollLoop()`. */
    method PollLoop(clock: Clock, schedules: string -> Fetch<Schedule>, feeds: int -> Fetch<LiveFeed>,
                    seasonHomeRuns: int, escaped: bool)
      requires Valid() && ValidDate(clock.utc)
      modifies this`currentGamePk, this`notifiedEventIds, this`outbox
      ensures Valid()
      ensures var r := PollCycle(old(currentGamePk), old(notifiedEventIds), clock, schedules, feeds, playerId, seasonHomeRuns, escaped);
              currentGamePk == r.gamePk && notifiedEventIds == r.seen && outbox == old(outbox) + r.sent
    {
      ghost var pk0, seen0 := currentGamePk, notifiedEventIds;
      if escaped {
        currentGamePk := None;  // reset so that the next cycle looks for a game again
        return;
      }
      if !PkTruthy(currentGamePk) {
        currentGamePk := FindTodayMarinersGamePk(clock, schedules);
        if !PkTruthy(currentGamePk) {
          return;  // no game today; retried on the next cycle
        }
      }
      TrackedCycle(pk0, seen0, clock, schedules, feeds, playerId, seasonHomeRuns);
      CheckForCalDingers(currentGamePk, feeds, seasonHomeRuns);
    }

    /** `startPolling()`: arms the interval timer once and runs a first cycle
        at once; a second call does nothing. */
    method StartPolling(clock: Clock, schedules: string -> Fetch<Schedule>, feeds: int -> Fetch<LiveFeed>,
                        seasonHomeRuns: int, escaped: bool)
      requires Valid() && ValidDate(clock.utc)
      modifies this`pollTimer, this`currentGamePk, this`notifiedEventIds, this`outbox
      ensures Valid()
      ensures old(pollTimer).Some? ==>
        pollTimer == old(pollTimer) && currentGamePk == old(currentGamePk)
        && notifiedEventIds == old(notifiedEventIds) && outbox == old(outbox)
      ensures old(pollTimer).None? ==>
        pollTimer == Some(Interval(pollIntervalMs))
        && var r := PollCycle(old(currentGamePk), old(notifiedEventIds), clock, schedules, feeds, playerId, seasonHomeRuns, escaped);
           currentGamePk == r.gamePk && notifiedEventIds == r.seen && outbox == old(outbox) + r.sent
    {
      if pollTimer.Some? {
        return;
      }
      pollTimer := Some(Interval(pollIntervalMs));
      PollLoop(clock, schedules, feeds, seasonHomeRuns, escaped);
    }
  }
}
