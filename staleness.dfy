/** The staleness policy of `MinRenovasjon._check_for_refresh_of_data`:
    a cached calendar must be fetched again when any entry misses a pickup
    date or has one whose day is already past. */
module Staleness {
  import opened Wrappers
  import opened Timestamp
  import opened Calendar
  import JoinProperties

  /** One entry that forces a refresh on day `today`: a missing first or
      next pickup, or a pickup on a day strictly before today. */
  predicate NeedsRefresh(e: Entry, today: Date)
  {
    e.first.None? || e.next.None? ||
    Before(DateOf(e.first.value), today) || Before(DateOf(e.next.value), today)
  }

  /** The cached list is stale on `today`: some entry needs a refresh. */
  predicate IsStale(kalender: seq<Entry>, today: Date)
  {
    exists i | 0 <= i < |kalender| :: NeedsRefresh(kalender[i], today)
  }

  /** `_check_for_refresh_of_data`: scans the list and returns at the first
      entry that needs a refresh; an empty list is never stale. */
  method CheckForRefreshOfData(kalender: seq<Entry>, today: Date) returns (refresh: bool)
    ensures refresh <==> IsStale(kalender, today)
    ensures kalender == [] ==> !refresh
    ensures !refresh ==> forall i | 0 <= i < |kalender| ::
      kalender[i].first.Some? && kalender[i].next.Some? &&
      !Before(DateOf(kalender[i].first.value), today) && !Before(DateOf(kalender[i].next.value), today)
  {
    for i := 0 to |kalender|
      invariant forall k | 0 <= k < i :: !NeedsRefresh(kalender[k], today)
    {
      var entry := kalender[i];
      if entry.first.None? || entry.next.None? {
        return true;
      }
      if Before(DateOf(entry.first.value), today) || Before(DateOf(entry.next.value), today) {
        return true;
      }
    }
    return false;
  }

  /** Staleness of a list is staleness of either part: the policy is an
      "any" over the entries, independent of their order. */
  lemma StaleConcat(a: seq<Entry>, b: seq<Entry>, today: Date)
    ensures IsStale(a + b, today) <==> IsStale(a, today) || IsStale(b, today)
  {
    if IsStale(a + b, today) {
      var i :| 0 <= i < |a + b| && NeedsRefresh((a + b)[i], today);
      if i >= |a| {
        assert b[i - |a|] == (a + b)[i];
      }
    }
    if IsStale(a, today) {
      var i :| 0 <= i < |a| && NeedsRefresh(a[i], today);
      assert (a + b)[i] == a[i];
    }
    if IsStale(b, today) {
      var i :| 0 <= i < |b| && NeedsRefresh(b[i], today);
      assert (a + b)[|a| + i] == b[i];
    }
  }

  /** A fraction listed with a single pickup date has no next pickup, so any
      parse in which it meets its metadata is stale on every day. */
  lemma OneDateAlwaysStale(schedule: seq<ScheduleRecord>, fractions: seq<FractionRecord>, i: nat, k: nat, today: Date)
    requires JoinAll(schedule, fractions).Ok?
    requires i < |schedule| && k < |fractions| && schedule[i].fractionId == fractions[k].id
    requires |schedule[i].dates| == 1
    ensures IsStale(JoinAll(schedule, fractions).value, today)
  {
    JoinProperties.JoinAllComplete(schedule, fractions, i, k);
    var l := JoinAll(schedule, fractions).value;
    var p :| 0 <= p < |l| && JoinProperties.JoinedFrom(l[p], schedule[i], fractions[k]);
    assert NeedsRefresh(l[p], today);
  }

  /** Worked example: on 2024-03-01 an entry whose first pickup was
      2024-01-10 makes the list stale. */
  lemma ScenarioPastPickup(e: Entry)
    requires e.first == Some(DateTime(2024, 1, 10, 0, 0, 0))
    ensures IsStale([e], Date(2024, 3, 1))
  {
    assert NeedsRefresh([e][0], Date(2024, 3, 1));
  }
}
