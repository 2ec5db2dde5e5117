/** The parser/joiner of `MinRenovasjon._parse_calendar_list`: decoded
    schedule records and fraction metadata records are joined, by fraction
    id, into the ordered list of calendar entries the cache holds. */
module Calendar {
  import opened Wrappers
  import opened Timestamp

  /** One record of the schedule payload: `FraksjonId` and `Tommedatoer`,
      whose items are date strings or JSON `null`. */
  datatype ScheduleRecord = ScheduleRecord(fractionId: int, dates: seq<Option<string>>)

  /** One record of the fraction metadata payload: `Id`, `Navn`, `Ikon`. */
  datatype FractionRecord = FractionRecord(id: int, name: string, icon: string)

  /** The 5-tuple the cache stores per fraction:
      (id, name, icon, first pickup, next pickup). */
  datatype Entry = Entry(id: int, name: string, icon: string, first: Option<DateTime>, next: Option<DateTime>)

  /** The two pickup slots of one schedule record, after date parsing. */
  datatype Pickups = Pickups(first: Option<DateTime>, next: Option<DateTime>)

  /** The exceptions the calendar code lets escape to its caller. */
  datatype Error =
    | NoPayload                              // `json.loads(None)`: a request returned no data
    | DateCount(fractionId: int, count: nat) // unpacking `Tommedatoer` into two names failed
    | BadTimestamp(text: string)             // `strptime` rejected a date string
    | NotADate                               // `strftime` called on a missing pickup date

  /** A raw date slot and its parsed value agree: both absent, or the value
      is a valid timestamp whose canonical text is the raw string. */
  ghost predicate SlotMeans(raw: Option<string>, v: Option<DateTime>)
  {
    (raw.None? <==> v.None?) &&
    (raw.Some? ==> Valid(v.value) && FormatTimestamp(v.value) == raw.value)
  }

  /** The parse of one raw slot: `null` stays absent, a string goes through
      `strptime`. */
  function ParseSlot(raw: Option<string>): (r: Result<Option<DateTime>, Error>)
    ensures r.Ok? ==> SlotMeans(raw, r.value)
    ensures r.Err? <==> raw.Some? && ParseTimestamp(raw.value).None?
  {
    match raw
    case None => Ok(None)
    case Some(s) =>
      match ParseTimestamp(s)
      case None => Err(BadTimestamp(s))
      case Some(t) => ParseThenFormat(s); Ok(Some(t))
  }

  /** The date-count rule of one schedule record: one date gives
      (that date, none), two dates give both in payload order, any other
      count raises. */
  function PickupDates(rec: ScheduleRecord): (r: Result<Pickups, Error>)
    ensures |rec.dates| != 1 && |rec.dates| != 2 ==> r == Err(DateCount(rec.fractionId, |rec.dates|))
    ensures r.Ok? ==> 1 <= |rec.dates| <= 2 && SlotMeans(rec.dates[0], r.value.first)
    ensures r.Ok? && |rec.dates| == 1 ==> r.value.next.None?
    ensures r.Ok? && |rec.dates| == 2 ==> SlotMeans(rec.dates[1], r.value.next)
    ensures (1 <= |rec.dates| <= 2 && forall i | 0 <= i < |rec.dates| :: ParseSlot(rec.dates[i]).Ok?) ==> r.Ok?
  {
    if |rec.dates| == 1 then
      match ParseSlot(rec.dates[0])
      case Err(e) => Err(e)
      case Ok(first) => Ok(Pickups(first, None))
    else if |rec.dates| == 2 then
      match ParseSlot(rec.dates[0])
      case Err(e) => Err(e)
      case Ok(first) =>
        match ParseSlot(rec.dates[1])
        case Err(e) => Err(e)
        case Ok(next) => Ok(Pickups(first, next))
    else
      Err(DateCount(rec.fractionId, |rec.dates|))
  }

  /** The entries one schedule record contributes: one per metadata record
      with the same id, in metadata order (the inner loop does not stop at
      the first match). */
  function Matches(id: int, dates: Pickups, fractions: seq<FractionRecord>): seq<Entry>
  {
    if fractions == [] then []
    else
      var last := fractions[|fractions| - 1];
      Matches(id, dates, fractions[..|fractions| - 1]) +
      (if last.id == id then [Entry(id, last.name, last.icon, dates.first, dates.next)] else [])
  }

  /** The join of decoded payloads, record by record in schedule order; the
      first record whose dates cannot be taken apart decides the error. */
  function JoinAll(schedule: seq<ScheduleRecord>, fractions: seq<FractionRecord>): Result<seq<Entry>, Error>
  {
    if schedule == [] then Ok([])
    else
      var last := schedule[|schedule| - 1];
      match JoinAll(schedule[..|schedule| - 1], fractions)
      case Err(e) => Err(e)
      case Ok(before) =>
        match PickupDates(last)
        case Err(e) => Err(e)
        case Ok(dates) => Ok(before + Matches(last.fractionId, dates, fractions))
  }

  /** Sequencing of two join results: the first error wins, else the lists
      are concatenated. */
  function Then(r1: Result<seq<Entry>, Error>, r2: Result<seq<Entry>, Error>): Result<seq<Entry>, Error>
  {
    match r1
    case Err(e) => Err(e)
    case Ok(a) =>
      match r2
      case Err(e) => Err(e)
      case Ok(b) => Ok(a + b)
  }

  /** Order preservation in the schedule payload: joining two consecutive
      stretches of records is joining each and concatenating, the earlier
      stretch's error first. */
  lemma {:induction false} JoinAllConcat(a: seq<ScheduleRecord>, b: seq<ScheduleRecord>, fractions: seq<FractionRecord>)
    ensures JoinAll(a + b, fractions) == Then(JoinAll(a, fractions), JoinAll(b, fractions))
  {
    if b == [] {
      assert a + b == a;
      match JoinAll(a, fractions)
      case Err(_) =>
      case Ok(l) => assert l + [] == l;
    } else {
      var init := b[..|b| - 1];
      assert (a + b)[..|a + b| - 1] == a + init;
      assert (a + b)[|a + b| - 1] == b[|b| - 1];
      var x := b[|b| - 1];
      assert b[..|b| - 1] == init;
      JoinAllConcat(a, init, fractions);
      match JoinAll(a, fractions)
      case Err(_) =>
      case Ok(l) =>
        match JoinAll(init, fractions)
        case Err(_) =>
        case Ok(m) =>
          match PickupDates(x)
          case Err(_) =>
          case Ok(d) =>
            var tail := Matches(x.fractionId, d, fractions);
            assert (l + m) + tail == l + (m + tail);
    }
  }

  /** A record whose dates cannot be taken apart, behind records that join
      cleanly, makes the whole parse raise its error. */
  lemma FirstFailureRaises(schedule: seq<ScheduleRecord>, i: nat, fractions: seq<FractionRecord>)
    requires i < |schedule| && JoinAll(schedule[..i], fractions).Ok? && PickupDates(schedule[i]).Err?
    ensures JoinAll(schedule, fractions) == Err(PickupDates(schedule[i]).error)
  {
    var head := schedule[..i + 1];
    assert head[..|head| - 1] == schedule[..i];
    assert head[|head| - 1] == schedule[i];
    assert JoinAll(head, fractions) == Err(PickupDates(schedule[i]).error);
    assert schedule == head + schedule[i + 1..];
    JoinAllConcat(head, schedule[i + 1..], fractions);
  }

  /** What `_parse_calendar_list` returns or raises for two payloads, each
      absent when its request failed. */
  function CalendarSpec(schedule: Option<seq<ScheduleRecord>>, fractions: Option<seq<FractionRecord>>): Result<seq<Entry>, Error>
  {
    if schedule.None? || fractions.None? then Err(NoPayload)
    else JoinAll(schedule.value, fractions.value)
  }

  /** `_parse_calendar_list`: nested loops appending one entry per
      (schedule record, matching metadata record) pair. */
  method ParseCalendarList(tommekalender: Option<seq<ScheduleRecord>>, fraksjoner: Option<seq<FractionRecord>>)
    returns (r: Result<seq<Entry>, Error>)
    ensures r == CalendarSpec(tommekalender, fraksjoner)
  {
    if tommekalender.None? || fraksjoner.None? {
      return Err(NoPayload);
    }
    var schedule, fractions := tommekalender.value, fraksjoner.value;
    var kalender: seq<Entry> := [];
    var i := 0;
    while i < |schedule|
      invariant 0 <= i <= |schedule|
      invariant JoinAll(schedule[..i], fractions) == Ok(kalender)
    {
      var entry := schedule[i];
      assert schedule[..i + 1][..i] == schedule[..i];
      var dates := PickupDates(entry);
      if dates.Err? {
        FirstFailureRaises(schedule, i, fractions);
        return Err(dates.error);
      }
      ghost var before := kalender;
      var j := 0;
      while j < |fractions|
        invariant 0 <= j <= |fractions|
        invariant kalender == before + Matches(entry.fractionId, dates.value, fractions[..j])
      {
        var fraksjon := fractions[j];
        assert fractions[..j + 1][..j] == fractions[..j];
        if fraksjon.id == entry.fractionId {
          kalender := kalender + [Entry(entry.fractionId, fraksjon.name, fraksjon.icon, dates.value.first, dates.value.next)];
        }
        j := j + 1;
      }
      assert fractions[..j] == fractions;
      i := i + 1;
    }
    assert schedule[..i] == schedule;
    return Ok(kalender);
  }
}
