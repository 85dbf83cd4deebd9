/** Home-run detection over one play of the live feed, the tracked batter
    test, the event id used for de-duplication and the text of the
    notification (src/server.js). */
module Detection {
  import opened Base
  import opened Feed
  import Text

  const HomeRunEventType := "home_run"

  /** `result.description || ''`. */
  function DescriptionOrEmpty(r: PlayResult): string {
    if r.description.Some? then r.description.value else ""
  }

  /** The free-text description, lower-cased, mentions a home run. */
  ghost predicate MentionsHomeRun(description: string) {
    exists i :: Text.OccursAt(Text.ToLower(description), "homers", i) || Text.OccursAt(Text.ToLower(description), "home run", i)
  }

  /** `isHomeRunPlay(play)`: a play with no result is never a home run; one with
      a result is a home run when its event type is exactly "home_run" or its
      description mentions "homers" or "home run" in any letter case. */
  function IsHomeRunPlay(p: Play): (r: bool)
    ensures p.result.None? ==> !r
    ensures p.result.Some? ==>
      (r <==> p.result.value.eventType == Some(HomeRunEventType) || MentionsHomeRun(DescriptionOrEmpty(p.result.value)))
  {
    match p.result
    case None => false
    case Some(res) =>
      var eventType := if res.eventType.Some? then res.eventType.value else "";
      var desc := Text.ToLower(DescriptionOrEmpty(res));
      if eventType == HomeRunEventType then true
      else Text.Contains(desc, "homers") || Text.Contains(desc, "home run")
  }

  /** The batter's id as a present, truthy value, if there is one. */
  predicate HasBatterId(p: Play) {
    p.batter.Some? && p.batter.value.id.Some? && IdTruthy(p.batter.value.id.value)
  }

  /** `batterIsCal(play)`: `String(play?.matchup?.batter?.id || '')` compared
      with the tracked player's id. A missing, empty or zero id never matches;
      otherwise the play matches exactly when the id's text is the player id. */
  function BatterIsCal(p: Play, playerId: string): (r: bool)
    ensures !HasBatterId(p) ==> !r
    ensures HasBatterId(p) ==> (r <==> IdText(p.batter.value.id.value) == playerId)
  {
    var batterId := if HasBatterId(p) then IdText(p.batter.value.id.value) else "";
    TruthyIdText(if HasBatterId(p) then p.batter.value.id.value else IdString(""));
    batterId != "" && batterId == playerId
  }

  /** A play the bot notifies about: a home run by the tracked batter. */
  predicate Qualifies(p: Play, playerId: string) {
    IsHomeRunPlay(p) && BatterIsCal(p, playerId)
  }

  /** A present, non-empty string (JavaScript truthiness of a string field). */
  predicate StrTruthy(s: Option<string>) {
    s.Some? && s.value != ""
  }

  /** `${play?.about?.atBatIndex}`: an absent index prints as "undefined". */
  function AtBatIndexText(p: Play): (s: string)
    ensures s != ""
  {
    if p.atBatIndex.Some? then Text.IntToString(p.atBatIndex.value) else "undefined"
  }

  /** The event id of a detected play: the first play event's id, else the
      play's GUID, else the text of its at-bat index. The last step never
      yields the empty string, so every detected play has an id. */
  function EventId(p: Play): (id: string)
    ensures id != ""
    ensures StrTruthy(p.firstEventId) ==> id == p.firstEventId.value
    ensures !StrTruthy(p.firstEventId) && StrTruthy(p.playGuid) ==> id == p.playGuid.value
    ensures !StrTruthy(p.firstEventId) && !StrTruthy(p.playGuid) ==> id == AtBatIndexText(p)
  {
    if StrTruthy(p.firstEventId) then p.firstEventId.value
    else if StrTruthy(p.playGuid) then p.playGuid.value
    else AtBatIndexText(p)
  }

  // ---------------------------------------------------------------------
  // The notification text (`formatHrMessage`)
  // ---------------------------------------------------------------------

  const Separator := " • "

  /** `play?.result?.description || 'Home run!'`. */
  function DescriptionOrDefault(p: Play): string {
    if p.result.Some? && StrTruthy(p.result.value.description) then p.result.value.description.value else "Home run!"
  }

  function Headline(p: Play): string {
    "\U{1F6A8}\U{1F6A8}\U{1F6A8} CAL DINGER! \U{1F6A8}\U{1F6A8}\U{1F6A8} " + DescriptionOrDefault(p) + " \U{26BE}\U{1F4A5}"
  }

  /** The running season tally: the fetched home-run count plus this one. */
  function SeasonTally(seasonHomeRuns: int): string {
    "Season HR #" + Text.IntToString(seasonHomeRuns + 1) + " \U{1F3C6}"
  }

  function InningBit(p: Play): Option<string> {
    if p.inning.Some? && p.inning.value != 0 then
      var half := if p.isTopInning == Some(true) then "Top" else "Bottom";
      Some(half + " " + Text.IntToString(p.inning.value) + " \U{26BE}")
    else None
  }

  /** `rbis != null`: zero runs batted in are still shown. */
  function RbiBit(p: Play): Option<string> {
    if p.result.Some? && p.result.value.rbi.Some? then
      Some(Text.IntToString(p.result.value.rbi.value) + " RBI \U{1F3C3}‍♂️")
    else None
  }

  function ExitVelocityBit(p: Play): Option<string> {
    if p.launchSpeed.Some? && NumTruthy(p.launchSpeed.value) then Some("EV " + p.launchSpeed.value.text + " mph \U{1F4A8}") else None
  }

  function LaunchAngleBit(p: Play): Option<string> {
    if p.launchAngle.Some? && NumTruthy(p.launchAngle.value) then Some("LA " + p.launchAngle.value.text + "° \U{1F4D0}") else None
  }

  /** `totalDistance || totalDistance?.toString?.()`: a falsy distance (0, NaN)
      still yields its text, so the bit is shown whenever the field exists. */
  function DistanceBit(p: Play): Option<string> {
    if p.totalDistance.Some? then Some(p.totalDistance.value.text + " ft \U{1F680}") else None
  }

  function OptionalBits(p: Play): seq<Option<string>> {
    [InningBit(p), RbiBit(p), ExitVelocityBit(p), LaunchAngleBit(p), DistanceBit(p)]
  }

  /** The parts kept by `filter(Boolean)`, in the order the message lists them. */
  function HrBits(p: Play, seasonHomeRuns: int): seq<string> {
    Text.Compact([Some(Headline(p))] + OptionalBits(p) + [Some(SeasonTally(seasonHomeRuns))])
  }

  /** `formatHrMessage(play, seasonStats)`. */
  function FormatHrMessage(p: Play, seasonHomeRuns: int): string {
    Text.Join(HrBits(p, seasonHomeRuns), Separator)
  }

  lemma {:induction false} CompactAppend(a: seq<Option<string>>, b: seq<Option<string>>)
    ensures Text.Compact(a + b) == Text.Compact(a) + Text.Compact(b)
    decreases |a|
  {
    if a != [] {
      CompactAppend(a[1..], b);
      assert (a + b)[0] == a[0];
      assert (a + b)[1..] == a[1..] + b;
    } else {
      assert a + b == b;
    }
  }

  /** The message is the headline, then the optional bits that are present,
      then the season tally: always at least two parts. */
  lemma HrBitsShape(p: Play, seasonHomeRuns: int)
    ensures HrBits(p, seasonHomeRuns) == [Headline(p)] + Text.Compact(OptionalBits(p)) + [SeasonTally(seasonHomeRuns)]
    ensures |HrBits(p, seasonHomeRuns)| == 2 + Text.PresentCount(OptionalBits(p))
  {
    var h: seq<Option<string>> := [Some(Headline(p))];
    var t: seq<Option<string>> := [Some(SeasonTally(seasonHomeRuns))];
    CompactAppend(h + OptionalBits(p), t);
    CompactAppend(h, OptionalBits(p));
    Text.CompactLength(OptionalBits(p));
  }

  /** The notification starts with the headline carrying the play's
      description and ends with the season tally. */
  lemma HrMessageFrame(p: Play, seasonHomeRuns: int)
    ensures |Headline(p)| <= |FormatHrMessage(p, seasonHomeRuns)|
    ensures FormatHrMessage(p, seasonHomeRuns)[..|Headline(p)|] == Headline(p)
    ensures |SeasonTally(seasonHomeRuns)| <= |FormatHrMessage(p, seasonHomeRuns)|
    ensures var m := FormatHrMessage(p, seasonHomeRuns);
            m[|m| - |SeasonTally(seasonHomeRuns)|..] == SeasonTally(seasonHomeRuns)
  {
    var bits := HrBits(p, seasonHomeRuns);
    HrBitsShape(p, seasonHomeRuns);
    Text.JoinStartsWithFirst(bits, Separator);
    Text.JoinEndsWithLast(bits, Separator);
  }

  /** A play whose inning is absent or 0, whose RBI count is absent, whose
      exit velocity and launch angle are absent, 0 or NaN, and which has no
      distance gives a two-part message: headline and season tally. */
  lemma BareHrMessage(p: Play, seasonHomeRuns: int)
    requires p.inning.None? || p.inning.value == 0
    requires p.result.None? || p.result.value.rbi.None?
    requires p.launchSpeed.None? || !NumTruthy(p.launchSpeed.value)
    requires p.launchAngle.None? || !NumTruthy(p.launchAngle.value)
    requires p.totalDistance.None?
    ensures FormatHrMessage(p, seasonHomeRuns) == Headline(p) + Separator + SeasonTally(seasonHomeRuns)
  {
    HrBitsShape(p, seasonHomeRuns);
    CompactAllAbsent(OptionalBits(p));
    var bits := HrBits(p, seasonHomeRuns);
    assert bits == [Headline(p), SeasonTally(seasonHomeRuns)];
    assert bits[1..] == [SeasonTally(seasonHomeRuns)];
    assert Text.Join(bits[1..], Separator) == SeasonTally(seasonHomeRuns);
    assert Text.Join(bits, Separator) == bits[0] + Separator + Text.Join(bits[1..], Separator);
  }

  lemma {:induction false} CompactAllAbsent(xs: seq<Option<string>>)
    requires forall i :: 0 <= i < |xs| ==> xs[i].None?
    ensures Text.Compact(xs) == []
    decreases |xs|
  {
    if xs != [] {
      CompactAllAbsent(xs[1..]);
    }
  }

  /** A home run of zero recorded distance is still reported with "0 ft",
      while a zero exit velocity is dropped. */
  lemma ZeroDistanceShown(p: Play)
    requires p.totalDistance == Some(Num("0")) && p.launchSpeed == Some(Num("0"))
    ensures DistanceBit(p) == Some("0 ft \U{1F680}")
    ensures ExitVelocityBit(p).None?
  {
    assert "0" + " ft \U{1F680}" == "0 ft \U{1F680}";
  }
}
