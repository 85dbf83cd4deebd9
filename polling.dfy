/** The dynamic polling schedule exercised by test-polling.js: a single
    poll timer that is cleared before it is re-armed, the choice of its delay,
    and the simulated poll that picks the next delay from a scenario. The
    clock is the `now` parameter; the timers are explicit state. */
module PollingTest {
  import opened Base

  /** The delay used when no override and no next poll time are given. */
  const DefaultDelayMs := 5000

  datatype Scenario = Scenario(name: string, delayMs: int)

  /** The simulated situations, each with the delay until the next poll. */
  const Scenarios: seq<Scenario> := [
    Scenario("Cal up to bat", 1000),
    Scenario("Game in progress", 10000),
    Scenario("Pre-game", 300000)
  ]

  /** The delay `scheduleNextPoll` arms its timer with: the override when one
      is given (0 included), else the time left until `nextPollTime`, never
      negative, else the default. */
  function ChooseDelay(overrideDelay: Option<int>, nextPollTime: Option<int>, now: int): (d: int)
    ensures overrideDelay.Some? ==> d == overrideDelay.value
    ensures overrideDelay.None? ==> d >= 0
    ensures overrideDelay.None? && nextPollTime.Some? ==>
      d >= nextPollTime.value - now && (d == 0 || d == nextPollTime.value - now)
    ensures overrideDelay.None? && nextPollTime.None? ==> d == DefaultDelayMs
  {
    match overrideDelay
    case Some(delay) => delay
    case None =>
      match nextPollTime
      case Some(t) => if t - now > 0 then t - now else 0
      case None => DefaultDelayMs
  }

  /** A poll time already in the past gives an immediate poll. */
  lemma OverduePollIsImmediate(nextPollTime: int, now: int)
    requires nextPollTime <= now
    ensures ChooseDelay(None, Some(nextPollTime), now) == 0
  {
  }

  /** When no time passes between setting `nextPollTime` and arming the
      timer, the timer's delay is the scenario's delay. */
  lemma ScenarioDelayIsArmed(now: int, choice: nat)
    requires choice < |Scenarios|
    ensures ChooseDelay(None, Some(now + Scenarios[choice].delayMs), now) == Scenarios[choice].delayMs
  {
  }

  /** Time that passes between setting `nextPollTime` and arming the timer
      is taken off the scenario's delay, down to an immediate poll. */
  lemma ElapsedShortensDelay(now: int, later: int, choice: nat)
    requires choice < |Scenarios| && now <= later
    ensures var d := ChooseDelay(None, Some(now + Scenarios[choice].delayMs), later);
            0 <= d <= Scenarios[choice].delayMs
            && (later - now <= Scenarios[choice].delayMs ==> d == Scenarios[choice].delayMs - (later - now))
            && (later - now >= Scenarios[choice].delayMs ==> d == 0)
  {
  }

  /** The tiers: batting polls fastest, then a game in progress, then
      pre-game. */
  lemma ScenarioTiers()
    ensures |Scenarios| == 3
    ensures Scenarios[0].delayMs < Scenarios[1].delayMs < Scenarios[2].delayMs
  {
  }

  class PollTest {
    var nextPollTime: Option<int>
    var pollTimer: Option<nat>       // the handle last returned by setTimeout
    var armed: map<nat, int>         // timers set and neither fired nor cleared, with their delays
    var nextTimerId: nat             // the handle the next setTimeout returns

    /** At most one timer is armed, and it is the one `pollTimer` holds. */
    ghost predicate Valid()
      reads this
    {
      && (forall id :: id in armed ==> pollTimer == Some(id))
      && (pollTimer.Some? ==> pollTimer.value < nextTimerId)
    }

    constructor()
      ensures Valid()
      ensures nextPollTime == None && pollTimer == None && armed == map[]
    {
      nextPollTime := None;
      pollTimer := None;
      armed := map[];
      nextTimerId := 0;
    }

    /** `scheduleNextPoll(overrideDelay)`: clears any timer, then arms exactly
        one new timer with the chosen delay. */
    method ScheduleNextPoll(overrideDelay: Option<int>, now: int)
      requires Valid()
      modifies this
      ensures Valid()
      ensures nextPollTime == old(nextPollTime)
      ensures pollTimer == Some(old(nextTimerId)) && nextTimerId == old(nextTimerId) + 1
      ensures armed == map[old(nextTimerId) := ChooseDelay(overrideDelay, nextPollTime, now)]
    {
      if pollTimer.Some? {
        armed := armed - {pollTimer.value};  // clearTimeout
        pollTimer := None;
      }
      assert armed == map[];
      var delay: int;
      if overrideDelay.Some? {
        delay := overrideDelay.value;
      } else if nextPollTime.Some? {
        delay := if nextPollTime.value - now > 0 then nextPollTime.value - now else 0;
      } else {
        delay := DefaultDelayMs;
      }
      var id := nextTimerId;  // setTimeout
      nextTimerId := nextTimerId + 1;
      armed := armed[id := delay];
      pollTimer := Some(id);
    }

    /** `testPolling()`: `now` is the clock reading that sets `nextPollTime`
        and `later` the one `scheduleNextPoll` takes; `choice` is the scenario
        that `Math.floor(Math.random() * scenarios.length)` picks. */
    method TestPolling(now: int, later: int, choice: nat)
      requires Valid() && choice < |Scenarios|
      modifies this
      ensures Valid()
      ensures nextPollTime == Some(now + Scenarios[choice].delayMs)
      ensures pollTimer == Some(old(nextTimerId)) && nextTimerId == old(nextTimerId) + 1
      ensures armed == map[old(nextTimerId) := ChooseDelay(None, Some(now + Scenarios[choice].delayMs), later)]
    {
      var scenario := Scenarios[choice];
      nextPollTime := Some(now + scenario.delayMs);
      ScheduleNextPoll(None, later);
    }

    /** The armed timer `id` goes off: its callback runs `testPolling()`,
        which reads the clock as `now` and then as `later`. */
    method Fire(id: nat, now: int, later: int, choice: nat)
      requires Valid() && id in armed && choice < |Scenarios|
      modifies this
      ensures Valid()
      ensures nextPollTime == Some(now + Scenarios[choice].delayMs)
      ensures pollTimer == Some(old(nextTimerId)) && old(nextTimerId) != id
      ensures nextTimerId == old(nextTimerId) + 1
      ensures armed == map[old(nextTimerId) := ChooseDelay(None, Some(now + Scenarios[choice].delayMs), later)]
    {
      armed := armed - {id};
      TestPolling(now, later, choice);
    }

    /** The start of the test: a first poll in one second. */
    method Start(now: int)
      requires Valid()
      modifies this
      ensures Valid()
      ensures nextPollTime == old(nextPollTime)
      ensures pollTimer == Some(old(nextTimerId)) && nextTimerId == old(nextTimerId) + 1
      ensures armed == map[old(nextTimerId) := 1000]
    {
      ScheduleNextPoll(Some(1000), now);
    }

    /** The end of the test: the armed timer is cleared, though `pollTimer`
        keeps its stale handle. */
    method Stop()
      requires Valid()
      modifies this
      ensures Valid()
      ensures armed == map[] && pollTimer == old(pollTimer) && nextPollTime == old(nextPollTime)
      ensures nextTimerId == old(nextTimerId)
    {
      if pollTimer.Some? {
        armed := armed - {pollTimer.value};
      }
    }
  }
}
