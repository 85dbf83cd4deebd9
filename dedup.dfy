/** What one pass of `checkForCalDingers` does to the set of notified event
    ids and to the stream of sent messages, stated as a function of the feed's
    plays, and the at-most-once guarantee it gives (src/server.js). */
module Dedup {
  import opened Feed
  import opened Detection

  /** One message handed to the sender, with the event id it was sent for. */
  datatype Sent = Sent(eventId: string, text: string)

  datatype ScanResult = ScanResult(seen: set<string>, sent: seq<Sent>)

  /** The message sent for a detected play. */
  function Notice(p: Play, seasonHomeRuns: int): Sent {
    Sent(EventId(p), FormatHrMessage(p, seasonHomeRuns))
  }

  /** Scanning `plays` in order from the notified set `seen`: a play that
      qualifies and whose event id is not yet notified is sent and its id
      recorded; every other play changes nothing. */
  function Scan(plays: seq<Play>, seen: set<string>, playerId: string, seasonHomeRuns: int): ScanResult
    decreases |plays|
  {
    if plays == [] then ScanResult(seen, [])
    else ScanStep(Scan(plays[..|plays| - 1], seen, playerId, seasonHomeRuns), plays[|plays| - 1], playerId, seasonHomeRuns)
  }

  /** What one play does to the scan so far. */
  function ScanStep(prev: ScanResult, p: Play, playerId: string, seasonHomeRuns: int): ScanResult {
    if Qualifies(p, playerId) && EventId(p) !in prev.seen then
      ScanResult(prev.seen + {EventId(p)}, prev.sent + [Notice(p, seasonHomeRuns)])
    else prev
  }

  /** Scanning one more play is one more step. */
  lemma ScanPrefixStep(plays: seq<Play>, i: nat, seen: set<string>, playerId: string, hr: int)
    requires i < |plays|
    ensures Scan(plays[..i + 1], seen, playerId, hr) == ScanStep(Scan(plays[..i], seen, playerId, hr), plays[i], playerId, hr)
  {
    assert plays[..i + 1][..i] == plays[..i];
  }

  function SentIds(log: seq<Sent>): set<string> {
    set i | 0 <= i < |log| :: log[i].eventId
  }

  ghost predicate DistinctIds(log: seq<Sent>) {
    forall i, j :: 0 <= i < j < |log| ==> log[i].eventId != log[j].eventId
  }

  /** No event id occurs twice in the sent log, and every sent id is in the
      notified set. */
  ghost predicate AtMostOnce(log: seq<Sent>, seen: set<string>) {
    DistinctIds(log) && SentIds(log) <= seen
  }

  lemma SentIdsAppend(log: seq<Sent>, x: Sent)
    ensures SentIds(log + [x]) == SentIds(log) + {x.eventId}
  {
    var l := log + [x];
    assert l[|log|] == x;
    forall id | id in SentIds(log) ensures id in SentIds(l) {
      var i :| 0 <= i < |log| && log[i].eventId == id;
      assert l[i] == log[i];
    }
  }

  /** The notified set after a scan is the set before it plus exactly the ids
      of the messages the scan sent; in particular it only grows. */
  lemma {:induction false} ScanRecordsSent(plays: seq<Play>, seen: set<string>, playerId: string, hr: int)
    ensures var r := Scan(plays, seen, playerId, hr); r.seen == seen + SentIds(r.sent) && seen <= r.seen
    decreases |plays|
  {
    if plays != [] {
      var prev := Scan(plays[..|plays| - 1], seen, playerId, hr);
      ScanRecordsSent(plays[..|plays| - 1], seen, playerId, hr);
      SentIdsAppend(prev.sent, Notice(plays[|plays| - 1], hr));
    }
  }

  /** A scan never sends two messages for one event id, nor one for an id
      already notified before it. */
  lemma {:induction false} ScanSendsFreshIds(plays: seq<Play>, seen: set<string>, playerId: string, hr: int)
    ensures var r := Scan(plays, seen, playerId, hr); DistinctIds(r.sent) && SentIds(r.sent) !! seen
    decreases |plays|
  {
    if plays != [] {
      var init := plays[..|plays| - 1];
      var prev := Scan(init, seen, playerId, hr);
      ScanSendsFreshIds(init, seen, playerId, hr);
      ScanRecordsSent(init, seen, playerId, hr);
      var p := plays[|plays| - 1];
      if Qualifies(p, playerId) && EventId(p) !in prev.seen {
        SentIdsAppend(prev.sent, Notice(p, hr));
        var log := prev.sent + [Notice(p, hr)];
        forall i, j | 0 <= i < j < |log| ensures log[i].eventId != log[j].eventId {
          if j == |log| - 1 {
            assert log[i].eventId in SentIds(prev.sent) by { assert log[i] == prev.sent[i]; }
          }
        }
      }
    }
  }

  /** After a scan, the id of every qualifying play of the feed is notified. */
  lemma {:induction false} ScanCoversQualifying(plays: seq<Play>, seen: set<string>, playerId: string, hr: int)
    ensures forall i :: 0 <= i < |plays| && Qualifies(plays[i], playerId) ==> EventId(plays[i]) in Scan(plays, seen, playerId, hr).seen
    decreases |plays|
  {
    if plays != [] {
      var init := plays[..|plays| - 1];
      ScanCoversQualifying(init, seen, playerId, hr);
      forall i | 0 <= i < |plays| && Qualifies(plays[i], playerId)
        ensures EventId(plays[i]) in Scan(plays, seen, playerId, hr).seen
      {
        if i < |plays| - 1 {
          assert plays[i] == init[i];
        }
      }
    }
  }

  /** A feed whose qualifying plays are all notified already sends nothing
      and leaves the notified set as it is. */
  lemma {:induction false} ScanCoveredIsNoop(plays: seq<Play>, seen: set<string>, playerId: string, hr: int)
    requires forall i :: 0 <= i < |plays| && Qualifies(plays[i], playerId) ==> EventId(plays[i]) in seen
    ensures Scan(plays, seen, playerId, hr) == ScanResult(seen, [])
    decreases |plays|
  {
    if plays != [] {
      var init := plays[..|plays| - 1];
      forall i | 0 <= i < |init| && Qualifies(init[i], playerId) ensures EventId(init[i]) in seen {
        assert init[i] == plays[i];
      }
      ScanCoveredIsNoop(init, seen, playerId, hr);
    }
  }

  /** Scanning the same feed a second time sends nothing. */
  lemma RescanSendsNothing(plays: seq<Play>, seen: set<string>, playerId: string, hr: int, hr2: int)
    ensures var r := Scan(plays, seen, playerId, hr);
            Scan(plays, r.seen, playerId, hr2) == ScanResult(r.seen, [])
  {
    ScanCoversQualifying(plays, seen, playerId, hr);
    ScanCoveredIsNoop(plays, Scan(plays, seen, playerId, hr).seen, playerId, hr2);
  }

  /** A feed with no home run by the tracked batter sends nothing and changes
      nothing. */
  lemma NothingQualifiesNothingSent(plays: seq<Play>, seen: set<string>, playerId: string, hr: int)
    requires forall i :: 0 <= i < |plays| ==> !Qualifies(plays[i], playerId)
    ensures Scan(plays, seen, playerId, hr) == ScanResult(seen, [])
  {
    ScanCoveredIsNoop(plays, seen, playerId, hr);
  }

  /** `x` is the notice of some qualifying play of `plays`. */
  ghost predicate IsNoticeOf(plays: seq<Play>, x: Sent, playerId: string, hr: int) {
    exists i :: 0 <= i < |plays| && Qualifies(plays[i], playerId) && x == Notice(plays[i], hr)
  }

  lemma NoticeOfPrefix(plays: seq<Play>, n: nat, x: Sent, playerId: string, hr: int)
    requires n <= |plays| && IsNoticeOf(plays[..n], x, playerId, hr)
    ensures IsNoticeOf(plays, x, playerId, hr)
  {
    var i :| 0 <= i < n && Qualifies(plays[..n][i], playerId) && x == Notice(plays[..n][i], hr);
    assert plays[..n][i] == plays[i];
  }

  /** Every message of `sent` is the notice of a qualifying play of `plays`. */
  ghost predicate AllNotices(plays: seq<Play>, sent: seq<Sent>, playerId: string, hr: int) {
    forall k :: 0 <= k < |sent| ==> IsNoticeOf(plays, sent[k], playerId, hr)
  }

  lemma AllNoticesOfPrefix(plays: seq<Play>, n: nat, sent: seq<Sent>, playerId: string, hr: int)
    requires n <= |plays| && AllNotices(plays[..n], sent, playerId, hr)
    ensures AllNotices(plays, sent, playerId, hr)
  {
    forall k | 0 <= k < |sent| ensures IsNoticeOf(plays, sent[k], playerId, hr) {
      NoticeOfPrefix(plays, n, sent[k], playerId, hr);
    }
  }

  /** Every message a scan sends is the notice of a qualifying play of the
      feed. */
  lemma {:induction false} ScanSendsOnlyQualifying(plays: seq<Play>, seen: set<string>, playerId: string, hr: int)
    ensures AllNotices(plays, Scan(plays, seen, playerId, hr).sent, playerId, hr)
    decreases |plays|
  {
    if plays != [] {
      var n := |plays| - 1;
      var prev := Scan(plays[..n], seen, playerId, hr);
      ScanSendsOnlyQualifying(plays[..n], seen, playerId, hr);
      AllNoticesOfPrefix(plays, n, prev.sent, playerId, hr);
      var p := plays[n];
      if Qualifies(p, playerId) && EventId(p) !in prev.seen {
        assert IsNoticeOf(plays, Notice(p, hr), playerId, hr);
        var sent := prev.sent + [Notice(p, hr)];
        forall k | 0 <= k < |sent| ensures IsNoticeOf(plays, sent[k], playerId, hr) {
          if k < |prev.sent| {
            assert sent[k] == prev.sent[k];
          }
        }
      }
    }
  }

  /** Two qualifying plays that share an event id give one message: the
      notice of the first. */
  lemma DuplicatePlayOneMessage(p1: Play, p2: Play, seen: set<string>, playerId: string, hr: int)
    requires Qualifies(p1, playerId) && Qualifies(p2, playerId)
    requires EventId(p1) == EventId(p2) && EventId(p1) !in seen
    ensures Scan([p1, p2], seen, playerId, hr) == ScanResult(seen + {EventId(p1)}, [Notice(p1, hr)])
  {
    assert [p1, p2][..1] == [p1];
    assert [p1][..0] == [];
    assert Scan([], seen, playerId, hr) == ScanResult(seen, []);
    assert [] + [Notice(p1, hr)] == [Notice(p1, hr)];
    assert Scan([p1], seen, playerId, hr) == ScanResult(seen + {EventId(p1)}, [Notice(p1, hr)]);
  }

  /** The at-most-once guarantee across poll cycles: appending what a scan
      sends to a log that notified each id at most once keeps it so. */
  lemma ScanKeepsAtMostOnce(log: seq<Sent>, plays: seq<Play>, seen: set<string>, playerId: string, hr: int)
    requires AtMostOnce(log, seen)
    ensures var r := Scan(plays, seen, playerId, hr); AtMostOnce(log + r.sent, r.seen)
  {
    var r := Scan(plays, seen, playerId, hr);
    ScanRecordsSent(plays, seen, playerId, hr);
    ScanSendsFreshIds(plays, seen, playerId, hr);
    var all := log + r.sent;
    forall i, j | 0 <= i < j < |all| ensures all[i].eventId != all[j].eventId {
      if j >= |log| {
        if i < |log| {
          assert all[i].eventId in SentIds(log) by { assert all[i] == log[i]; }
          assert all[j].eventId in SentIds(r.sent) by { assert all[j] == r.sent[j - |log|]; }
        } else {
          assert all[i] == r.sent[i - |log|] && all[j] == r.sent[j - |log|];
        }
      } else {
        assert all[i] == log[i] && all[j] == log[j];
      }
    }
    forall id | id in SentIds(all) ensures id in r.seen {
      var k :| 0 <= k < |all| && all[k].eventId == id;
      if k < |log| {
        assert all[k] == log[k];
        assert id in SentIds(log);
      } else {
        assert all[k] == r.sent[k - |log|];
        assert id in SentIds(r.sent);
      }
    }
  }
}
