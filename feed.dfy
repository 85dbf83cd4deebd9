/** The parts of the statistics provider's JSON that the bot reads: the live
    game feed and the team schedule. Each optional chain of the code
    (`play?.matchup?.batter?.id`) is one optional field here, absent when any
    link of the chain is absent. */
module Feed {
  import opened Base
  import Text

  /** A player id as the JSON carries it: a number or a string. */
  datatype IdValue = IdNumber(n: int) | IdString(s: string)

  /** `String(id)`. */
  function IdText(v: IdValue): (s: string)
    ensures v.IdNumber? ==> s == Text.IntToString(v.n)
    ensures v.IdString? ==> s == v.s
  {
    match v
    case IdNumber(n) => Text.IntToString(n)
    case IdString(s) => s
  }

  /** JavaScript truthiness of an id: 0 and "" are falsy. */
  predicate IdTruthy(v: IdValue) {
    match v
    case IdNumber(n) => n != 0
    case IdString(s) => s != ""
  }

  /** A truthy id never prints as the empty string. */
  lemma TruthyIdText(v: IdValue)
    ensures IdTruthy(v) ==> IdText(v) != ""
    ensures !IdTruthy(v) ==> IdText(v) == "" || IdText(v) == "0"
  {
  }

  /** `play.matchup.batter`: present as an object, with an optional `id`. */
  datatype Batter = Batter(id: Option<IdValue>)

  /** `play.result`. */
  datatype PlayResult = PlayResult(eventType: Option<string>, description: Option<string>, rbi: Option<int>)

  /** A JSON number shown in a message, held as the text `String(x)` gives
      for it ("105.3", "0", "NaN"). */
  datatype Num = Num(text: string)

  /** JavaScript truthiness of a number: 0, -0 and NaN are falsy, and those are
      exactly the numbers that print as "0" or "NaN". */
  predicate NumTruthy(x: Num) {
    x.text != "0" && x.text != "NaN"
  }

  /** One entry of `liveData.plays.allPlays` (or `currentPlay`). */
  datatype Play = Play(
    result: Option<PlayResult>,       // play.result
    batter: Option<Batter>,           // play.matchup.batter
    atBatIndex: Option<int>,          // play.about.atBatIndex
    inning: Option<int>,              // play.about.inning
    isTopInning: Option<bool>,        // play.about.isTopInning
    totalDistance: Option<Num>,       // play.hitData.totalDistance
    launchSpeed: Option<Num>,         // play.hitData.launchSpeed
    launchAngle: Option<Num>,         // play.hitData.launchAngle
    firstEventId: Option<string>,     // play.playEvents[0].details.eventId
    playGuid: Option<string>)         // play.playGuid

  /** `feed.liveData`, with `plays.currentPlay` and `plays.allPlays`; an
      absent `allPlays` is read as `[]`. */
  datatype LiveData = LiveData(currentPlay: Option<Play>, allPlays: seq<Play>)

  /** The body of `GET /api/v1.1/game/{gamePk}/feed/live`. */
  datatype LiveFeed = LiveFeed(liveData: Option<LiveData>)

  /** One game of a schedule date. */
  datatype ScheduledGame = ScheduledGame(gamePk: Option<int>)

  /** One entry of `dates`, with its `games` (absent read as `[]`). */
  datatype ScheduleDate = ScheduleDate(games: seq<ScheduledGame>)

  /** The body of `GET /api/v1/schedule?date=...&teamId=...`; an absent
      `dates` is read as `[]`. */
  datatype Schedule = Schedule(dates: seq<ScheduleDate>)

  /** JavaScript truthiness of a gamePk: absent, null and 0 are falsy. */
  predicate PkTruthy(pk: Option<int>) {
    pk.Some? && pk.value != 0
  }

  /** `fetchLiveFeed(gamePk)`: throws when the gamePk is falsy, otherwise
      fetches the feed; `feeds` gives the provider's answer for each gamePk. */
  function FetchLiveFeed(pk: Option<int>, feeds: int -> Fetch<LiveFeed>): (r: Fetch<LiveFeed>)
    ensures !PkTruthy(pk) ==> r.FetchFailed?
    ensures PkTruthy(pk) ==> r == feeds(pk.value)
  {
    if !PkTruthy(pk) then FetchFailed else feeds(pk.value)
  }

  /** `feed?.liveData?.plays?.allPlays || []`. */
  function AllPlays(f: LiveFeed): seq<Play> {
    if f.liveData.Some? then f.liveData.value.allPlays else []
  }
}
