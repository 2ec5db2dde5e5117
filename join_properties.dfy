/** What the join of `_parse_calendar_list` promises: entries come only
    from matching (schedule record, metadata record) pairs, every such pair
    gives exactly one entry, order follows the payloads, and the parse fails
    exactly when some record's dates cannot be taken apart. */
module JoinProperties {
  import opened Wrappers
  import opened Timestamp
  import opened Calendar

  /** The ids of the metadata records, in payload order. */
  function IdsOf(fractions: seq<FractionRecord>): (ids: seq<int>)
    ensures |ids| == |fractions|
    ensures forall k | 0 <= k < |fractions| :: ids[k] == fractions[k].id
  {
    seq(|fractions|, k requires 0 <= k < |fractions| => fractions[k].id)
  }

  /** How many metadata records carry `id`. */
  function MatchCount(id: int, fractions: seq<FractionRecord>): nat
  {
    multiset(IdsOf(fractions))[id]
  }

  /** The number of (schedule record, metadata record) pairs with equal ids. */
  function TotalMatches(schedule: seq<ScheduleRecord>, fractions: seq<FractionRecord>): nat
  {
    if schedule == [] then 0
    else TotalMatches(schedule[..|schedule| - 1], fractions) + MatchCount(schedule[|schedule| - 1].fractionId, fractions)
  }

  /** Entry `e` is the join of schedule record `rec` with metadata record `m`. */
  ghost predicate JoinedFrom(e: Entry, rec: ScheduleRecord, m: FractionRecord)
  {
    rec.fractionId == m.id && PickupDates(rec).Ok? &&
    e == Entry(m.id, m.name, m.icon, PickupDates(rec).value.first, PickupDates(rec).value.next)
  }

  /** Order within one schedule record follows the metadata payload. */
  lemma {:induction false} MatchesConcat(id: int, dates: Pickups, f1: seq<FractionRecord>, f2: seq<FractionRecord>)
    ensures Matches(id, dates, f1 + f2) == Matches(id, dates, f1) + Matches(id, dates, f2)
  {
    if f2 == [] {
      assert f1 + f2 == f1;
    } else {
      var init := f2[..|f2| - 1];
      assert (f1 + f2)[..|f1 + f2| - 1] == f1 + init;
      assert (f1 + f2)[|f1 + f2| - 1] == f2[|f2| - 1];
      MatchesConcat(id, dates, f1, init);
    }
  }

  /** Every entry of one record's matches is built from a metadata record
      with that id, and carries the record's pickup dates. */
  lemma {:induction false} MatchesSound(id: int, dates: Pickups, fractions: seq<FractionRecord>, p: nat)
    requires p < |Matches(id, dates, fractions)|
    ensures exists k | 0 <= k < |fractions| ::
      fractions[k].id == id &&
      Matches(id, dates, fractions)[p] == Entry(id, fractions[k].name, fractions[k].icon, dates.first, dates.next)
  {
    var init := fractions[..|fractions| - 1];
    var last := fractions[|fractions| - 1];
    if p < |Matches(id, dates, init)| {
      MatchesSound(id, dates, init, p);
      var k :| 0 <= k < |init| && init[k].id == id &&
        Matches(id, dates, init)[p] == Entry(id, init[k].name, init[k].icon, dates.first, dates.next);
      assert fractions[k] == init[k];
    } else {
      assert fractions[|fractions| - 1] == last;
    }
  }

  /** Every metadata record with the record's id yields its entry. */
  lemma {:induction false} MatchesComplete(id: int, dates: Pickups, fractions: seq<FractionRecord>, k: nat)
    requires k < |fractions| && fractions[k].id == id
    ensures Entry(id, fractions[k].name, fractions[k].icon, dates.first, dates.next) in Matches(id, dates, fractions)
  {
    var init := fractions[..|fractions| - 1];
    if k < |init| {
      assert init[k] == fractions[k];
      MatchesComplete(id, dates, init, k);
    }
  }

  /** One record contributes as many entries as there are metadata records
      with its id (none when there is no match). */
  lemma {:induction false} MatchesLength(id: int, dates: Pickups, fractions: seq<FractionRecord>)
    ensures |Matches(id, dates, fractions)| == MatchCount(id, fractions)
  {
    if fractions != [] {
      var init := fractions[..|fractions| - 1];
      var last := fractions[|fractions| - 1];
      assert IdsOf(fractions) == IdsOf(init) + [last.id];
      MatchesLength(id, dates, init);
    }
  }

  /** The parse succeeds exactly when every record's dates can be taken
      apart (one or two slots, each `null` or an accepted timestamp). */
  lemma {:induction false} JoinAllOk(schedule: seq<ScheduleRecord>, fractions: seq<FractionRecord>)
    ensures JoinAll(schedule, fractions).Ok? <==> forall i | 0 <= i < |schedule| :: PickupDates(schedule[i]).Ok?
  {
    if schedule != [] {
      var init := schedule[..|schedule| - 1];
      JoinAllOk(init, fractions);
      assert forall i | 0 <= i < |init| :: init[i] == schedule[i];
    }
  }

  /** When the parse fails, it fails with the error of the first record
      whose dates cannot be taken apart. */
  lemma JoinAllFirstError(schedule: seq<ScheduleRecord>, fractions: seq<FractionRecord>)
    requires JoinAll(schedule, fractions).Err?
    ensures exists i | 0 <= i < |schedule| ::
      PickupDates(schedule[i]).Err? &&
      JoinAll(schedule, fractions) == Err(PickupDates(schedule[i]).error) &&
      forall j | 0 <= j < i :: PickupDates(schedule[j]).Ok?
  {
    JoinAllOk(schedule, fractions);
    var i :| 0 <= i < |schedule| && PickupDates(schedule[i]).Err? &&
      forall j | 0 <= j < i :: PickupDates(schedule[j]).Ok?
      by {
        var n :| 0 <= n < |schedule| && PickupDates(schedule[n]).Err?;
        MinFailure(schedule, n);
      }
    JoinAllOk(schedule[..i], fractions);
    FirstFailureRaises(schedule, i, fractions);
  }

  lemma {:induction false} MinFailure(schedule: seq<ScheduleRecord>, n: nat)
    requires n < |schedule| && PickupDates(schedule[n]).Err?
    ensures exists i | 0 <= i < |schedule| :: (PickupDates(schedule[i]).Err? &&
      forall j | 0 <= j < i :: PickupDates(schedule[j]).Ok?)
  {
    if exists j | 0 <= j < n :: PickupDates(schedule[j]).Err? {
      var j :| 0 <= j < n && PickupDates(schedule[j]).Err?;
      MinFailure(schedule, j);
    }
  }

  /** Join soundness: every entry is the join of some schedule record with
      some metadata record of the same id. */
  lemma {:induction false} JoinAllSound(schedule: seq<ScheduleRecord>, fractions: seq<FractionRecord>, p: nat)
    requires JoinAll(schedule, fractions).Ok? && p < |JoinAll(schedule, fractions).value|
    ensures exists i, k | 0 <= i < |schedule| && 0 <= k < |fractions| ::
      JoinedFrom(JoinAll(schedule, fractions).value[p], schedule[i], fractions[k])
  {
    var init := schedule[..|schedule| - 1];
    var last := schedule[|schedule| - 1];
    var before := JoinAll(init, fractions).value;
    var dates := PickupDates(last).value;
    var e := JoinAll(schedule, fractions).value[p];
    if p < |before| {
      JoinAllSound(init, fractions, p);
      var i, k :| 0 <= i < |init| && 0 <= k < |fractions| && JoinedFrom(before[p], init[i], fractions[k]);
      assert schedule[i] == init[i];
    } else {
      MatchesSound(last.fractionId, dates, fractions, p - |before|);
      var k :| 0 <= k < |fractions| && fractions[k].id == last.fractionId &&
        Matches(last.fractionId, dates, fractions)[p - |before|] ==
          Entry(last.fractionId, fractions[k].name, fractions[k].icon, dates.first, dates.next);
      assert JoinedFrom(e, schedule[|schedule| - 1], fractions[k]);
    }
  }

  /** Join completeness: every (schedule record, metadata record) pair with
      equal ids yields its entry. */
  lemma {:induction false} JoinAllComplete(schedule: seq<ScheduleRecord>, fractions: seq<FractionRecord>, i: nat, k: nat)
    requires JoinAll(schedule, fractions).Ok?
    requires i < |schedule| && k < |fractions| && schedule[i].fractionId == fractions[k].id
    ensures exists p | 0 <= p < |JoinAll(schedule, fractions).value| ::
      JoinedFrom(JoinAll(schedule, fractions).value[p], schedule[i], fractions[k])
  {
    var init := schedule[..|schedule| - 1];
    var last := schedule[|schedule| - 1];
    var l := JoinAll(schedule, fractions).value;
    var before := JoinAll(init, fractions).value;
    if i < |init| {
      assert init[i] == schedule[i];
      JoinAllComplete(init, fractions, i, k);
      var p :| 0 <= p < |before| && JoinedFrom(before[p], init[i], fractions[k]);
      assert l[p] == before[p];
    } else {
      var dates := PickupDates(last).value;
      var m := fractions[k];
      MatchesComplete(last.fractionId, dates, fractions, k);
      var tail := Matches(last.fractionId, dates, fractions);
      var q :| 0 <= q < |tail| && tail[q] == Entry(last.fractionId, m.name, m.icon, dates.first, dates.next);
      assert l[|before| + q] == tail[q];
      assert JoinedFrom(l[|before| + q], schedule[i], m);
    }
  }

  /** The output has one entry per matching pair: its length is the sum of
      the records' match counts. */
  lemma {:induction false} JoinAllLength(schedule: seq<ScheduleRecord>, fractions: seq<FractionRecord>)
    requires JoinAll(schedule, fractions).Ok?
    ensures |JoinAll(schedule, fractions).value| == TotalMatches(schedule, fractions)
  {
    if schedule != [] {
      var init := schedule[..|schedule| - 1];
      var last := schedule[|schedule| - 1];
      JoinAllLength(init, fractions);
      MatchesLength(last.fractionId, PickupDates(last).value, fractions);
    }
  }

  /** A fraction id that no metadata record carries never reaches the output. */
  lemma UnmatchedDropped(schedule: seq<ScheduleRecord>, fractions: seq<FractionRecord>, id: int)
    requires JoinAll(schedule, fractions).Ok?
    requires forall k | 0 <= k < |fractions| :: fractions[k].id != id
    ensures forall p | 0 <= p < |JoinAll(schedule, fractions).value| :: JoinAll(schedule, fractions).value[p].id != id
  {
    forall p | 0 <= p < |JoinAll(schedule, fractions).value|
      ensures JoinAll(schedule, fractions).value[p].id != id
    {
      JoinAllSound(schedule, fractions, p);
    }
  }

  /** With duplicate-free ids in both payloads the output holds at most one
      entry per fraction id. */
  lemma {:induction false} UniqueIds(schedule: seq<ScheduleRecord>, fractions: seq<FractionRecord>)
    requires JoinAll(schedule, fractions).Ok?
    requires forall a, b | 0 <= a < b < |schedule| :: schedule[a].fractionId != schedule[b].fractionId
    requires forall a, b | 0 <= a < b < |fractions| :: fractions[a].id != fractions[b].id
    ensures forall p, q | 0 <= p < q < |JoinAll(schedule, fractions).value| ::
      JoinAll(schedule, fractions).value[p].id != JoinAll(schedule, fractions).value[q].id
  {
    if schedule != [] {
      var init := schedule[..|schedule| - 1];
      var last := schedule[|schedule| - 1];
      var l := JoinAll(schedule, fractions).value;
      var before := JoinAll(init, fractions).value;
      var tail := Matches(last.fractionId, PickupDates(last).value, fractions);
      assert l == before + tail;
      UniqueIds(init, fractions);
      AtMostOneMatch(last.fractionId, PickupDates(last).value, fractions);
      forall p | 0 <= p < |before| ensures before[p].id != last.fractionId {
        JoinAllSound(init, fractions, p);
      }
      forall q | 0 <= q < |tail| ensures tail[q].id == last.fractionId {
        MatchesSound(last.fractionId, PickupDates(last).value, fractions, q);
      }
    }
  }

  lemma {:induction false} AtMostOneMatch(id: int, dates: Pickups, fractions: seq<FractionRecord>)
    requires forall a, b | 0 <= a < b < |fractions| :: fractions[a].id != fractions[b].id
    ensures |Matches(id, dates, fractions)| <= 1
  {
    if fractions != [] {
      var init := fractions[..|fractions| - 1];
      var last := fractions[|fractions| - 1];
      AtMostOneMatch(id, dates, init);
      if last.id == id && |Matches(id, dates, init)| == 1 {
        MatchesSound(id, dates, init, 0);
      }
    }
  }

  /** Worked example: one date gives (first, none). */
  lemma ScenarioOneDate()
    ensures CalendarSpec(Some([ScheduleRecord(1, [Some("2024-01-10T00:00:00")])]),
                         Some([FractionRecord(1, "Paper", "p.png")]))
         == Ok([Entry(1, "Paper", "p.png", Some(DateTime(2024, 1, 10, 0, 0, 0)), None)])
  {
    var t := DateTime(2024, 1, 10, 0, 0, 0);
    var text := "2024-01-10T00:00:00";
    ScenarioTimestamps();
    assert ParseSlot(Some(text)) == Ok(Some(t));
    var rec := ScheduleRecord(1, [Some(text)]);
    assert PickupDates(rec) == Ok(Pickups(Some(t), None));
    var fractions := [FractionRecord(1, "Paper", "p.png")];
    assert fractions[..0] == [];
    assert Matches(1, Pickups(Some(t), None), fractions) == [Entry(1, "Paper", "p.png", Some(t), None)];
    assert [rec][..0] == [];
    assert JoinAll([rec], fractions) == Ok([Entry(1, "Paper", "p.png", Some(t), None)]);
  }

  /** Worked example: two dates give (first, next) in payload order. */
  lemma ScenarioTwoDates()
    ensures PickupDates(ScheduleRecord(1, [Some("2024-01-10T00:00:00"), Some("2024-02-10T00:00:00")]))
         == Ok(Pickups(Some(DateTime(2024, 1, 10, 0, 0, 0)), Some(DateTime(2024, 2, 10, 0, 0, 0))))
  {
    ScenarioTimestamps();
    assert ParseSlot(Some("2024-01-10T00:00:00")) == Ok(Some(DateTime(2024, 1, 10, 0, 0, 0)));
    assert ParseSlot(Some("2024-02-10T00:00:00")) == Ok(Some(DateTime(2024, 2, 10, 0, 0, 0)));
  }

  /** Worked example: a schedule record for fraction 2 with metadata
      only for fraction 1 yields no entry. */
  lemma ScenarioMissingMetadata()
    ensures CalendarSpec(Some([ScheduleRecord(2, [Some("2024-01-10T00:00:00")])]),
                         Some([FractionRecord(1, "Paper", "p.png")]))
         == Ok([])
  {
    var text := "2024-01-10T00:00:00";
    ScenarioTimestamps();
    assert ParseSlot(Some(text)) == Ok(Some(DateTime(2024, 1, 10, 0, 0, 0)));
    var rec := ScheduleRecord(2, [Some(text)]);
    var fractions := [FractionRecord(1, "Paper", "p.png")];
    var dates := Pickups(Some(DateTime(2024, 1, 10, 0, 0, 0)), None);
    assert PickupDates(rec) == Ok(dates);
    assert fractions[..0] == [];
    assert Matches(2, dates, fractions) == [];
    assert [rec][..0] == [];
    assert JoinAll([rec], fractions) == Ok([]);
  }
}
