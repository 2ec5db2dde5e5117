/** The calendar cache of `MinRenovasjon`: it owns the parsed calendar
    list, builds it on construction, replaces it wholesale when the
    staleness policy asks for it, and answers lookups and date formatting. */
module Cache {
  import opened Wrappers
  import opened Timestamp
  import opened Calendar
  import opened Staleness

  /** `_url_encode`: the street name decoded and re-encoded as a URL path
      component. `quote` and `unquote` stand for `urllib.parse.quote` and
      `urllib.parse.unquote`, which this model leaves uninterpreted. */
  function UrlEncode(s: string, quote: string -> string, unquote: string -> string): (r: string)
    ensures r == quote(unquote(s))
    ensures quote(unquote(s)) == s ==> r == s
  {
    var decodedEncoded := quote(unquote(s));
    if decodedEncoded != s then decodedEncoded else s
  }

  /** Whenever `unquote` undoes `quote`, as it does for text in `urllib.parse`,
      a normalised street name is left as it is by a second normalisation. */
  lemma UrlEncodeIdempotent(s: string, quote: string -> string, unquote: string -> string)
    requires forall t :: unquote(quote(t)) == t
    ensures UrlEncode(UrlEncode(s, quote, unquote), quote, unquote) == UrlEncode(s, quote, unquote)
  {
    assert unquote(quote(unquote(s))) == unquote(s);
  }

  /** The decoded answers of one `_get_from_web_api` round: the schedule
      payload and the fraction metadata payload, each absent when its
      request got a non-OK status. */
  datatype Payloads = Payloads(tommekalender: Option<seq<ScheduleRecord>>, fraksjoner: Option<seq<FractionRecord>>)

  /** The reply the upstream gives to round `k`; past the end of the script
      both requests fail. */
  function ReplyAt(replies: seq<Payloads>, k: nat): Payloads
  {
    if k < |replies| then replies[k] else Payloads(None, None)
  }

  /** The upstream web API for the configured address, as a script of the
      replies it gives to successive fetch rounds, and the number of rounds
      asked so far. */
  class WebApi {
    const replies: seq<Payloads>
    var rounds: nat

    constructor (replies: seq<Payloads>)
      ensures this.replies == replies && rounds == 0
    {
      this.replies := replies;
      rounds := 0;
    }

    /** `_get_from_web_api`: one round of the schedule request and the
        metadata request. */
    method GetFromWebApi() returns (p: Payloads)
      modifies this
      ensures rounds == old(rounds) + 1
      ensures p == ReplyAt(replies, old(rounds))
    {
      p := ReplyAt(replies, rounds);
      rounds := rounds + 1;
    }
  }

  /** What fetching and parsing round `k` of the script gives. */
  function RoundResult(replies: seq<Payloads>, k: nat): Result<seq<Entry>, Error>
  {
    CalendarSpec(ReplyAt(replies, k).tommekalender, ReplyAt(replies, k).fraksjoner)
  }

  /** `_get_calendar_list` goes to a second round: it was not asked to
      refresh, and its first round parsed into a stale list. */
  predicate Retries(replies: seq<Payloads>, k: nat, today: Date, refresh: bool)
  {
    !refresh && RoundResult(replies, k).Ok? && IsStale(RoundResult(replies, k).value, today)
  }

  /** What `_get_calendar_list` returns or raises, starting at round `k`. */
  function Rebuilt(replies: seq<Payloads>, k: nat, today: Date, refresh: bool): Result<seq<Entry>, Error>
  {
    if Retries(replies, k, today, refresh) then RoundResult(replies, k + 1) else RoundResult(replies, k)
  }

  /** A rebuild that returns a stale list has used its second round; one
      that stops after its first round without error returns a fresh list. */
  lemma RebuiltStaleOnlyAfterRetry(replies: seq<Payloads>, k: nat, today: Date)
    ensures Rebuilt(replies, k, today, false).Ok? && IsStale(Rebuilt(replies, k, today, false).value, today)
      ==> Retries(replies, k, today, false) && Rebuilt(replies, k, today, false) == RoundResult(replies, k + 1)
    ensures !Retries(replies, k, today, false) && RoundResult(replies, k).Ok?
      ==> !IsStale(Rebuilt(replies, k, today, false).value, today)
  {
  }

  /** A round whose parse succeeds and still lists a fraction with a single
      pickup date that meets its metadata is stale on every day, so a build
      that is not told to refresh always goes on to a second round. */
  lemma OneDateForcesRetry(replies: seq<Payloads>, k: nat, today: Date, i: nat, j: nat)
    requires RoundResult(replies, k).Ok?
    requires var p := ReplyAt(replies, k);
      p.tommekalender.Some? && p.fraksjoner.Some? &&
      i < |p.tommekalender.value| && j < |p.fraksjoner.value| &&
      p.tommekalender.value[i].fractionId == p.fraksjoner.value[j].id &&
      |p.tommekalender.value[i].dates| == 1
    ensures Retries(replies, k, today, false)
  {
    var p := ReplyAt(replies, k);
    OneDateAlwaysStale(p.tommekalender.value, p.fraksjoner.value, i, j, today);
  }

  /** How `format_date` shows a date: unchanged, or as formatted text. */
  datatype Shown = Unformatted(value: Option<DateTime>) | Formatted(text: string)

  class MinRenovasjon {
    const gatenavn: string
    const gatekode: string
    const husnr: string
    const kommunenr: string
    const dateFormat: string
    var kalenderList: seq<Entry>

    /** The object `__init__` leaves behind once its calendar is built. */
    constructor (gatenavn: string, gatekode: string, husnr: string, kommunenr: string, dateFormat: string,
                 kalender: seq<Entry>)
      ensures this.gatenavn == gatenavn && this.gatekode == gatekode && this.husnr == husnr
      ensures this.kommunenr == kommunenr && this.dateFormat == dateFormat
      ensures kalenderList == kalender
    {
      this.gatenavn := gatenavn;
      this.gatekode := gatekode;
      this.husnr := husnr;
      this.kommunenr := kommunenr;
      this.dateFormat := dateFormat;
      kalenderList := kalender;
    }

    /** `__init__`: normalises the street name and builds the calendar with
        an unconditional fetch; an error while building escapes, and no
        object is made. */
    static method Create(gatenavn: string, gatekode: string, husnr: string, kommunenr: string, dateFormat: string,
                         quote: string -> string, unquote: string -> string, api: WebApi, today: Date)
      returns (r: Result<MinRenovasjon, Error>)
      modifies api
      ensures old(api.rounds) + 1 <= api.rounds <= old(api.rounds) + 2
      ensures Rebuilt(api.replies, old(api.rounds), today, false).Err? ==>
        r == Err(Rebuilt(api.replies, old(api.rounds), today, false).error)
      ensures Rebuilt(api.replies, old(api.rounds), today, false).Ok? ==>
        r.Ok? && fresh(r.value) &&
        r.value.kalenderList == Rebuilt(api.replies, old(api.rounds), today, false).value &&
        r.value.gatenavn == UrlEncode(gatenavn, quote, unquote) &&
        r.value.gatekode == gatekode && r.value.husnr == husnr &&
        r.value.kommunenr == kommunenr && r.value.dateFormat == dateFormat
    {
      var street := UrlEncode(gatenavn, quote, unquote);
      var kalender := GetCalendarList(api, today, false);
      if kalender.Err? {
        return Err(kalender.error);
      }
      var cache := new MinRenovasjon(street, gatekode, husnr, kommunenr, dateFormat, kalender.value);
      return Ok(cache);
    }

    /** `_get_calendar_list`: fetch and parse one round; unless asked to
        refresh, check the result and, if stale, call itself once with
        `refresh` set, which fetches and parses without checking. The
        stored-data branch of the source is dead (its `data` is always
        `None`), so every call fetches. */
    static method GetCalendarList(api: WebApi, today: Date, refresh: bool) returns (r: Result<seq<Entry>, Error>)
      modifies api
      decreases if refresh then 0 else 1
      ensures r == Rebuilt(api.replies, old(api.rounds), today, refresh)
      ensures api.rounds == old(api.rounds) + if Retries(api.replies, old(api.rounds), today, refresh) then 2 else 1
      ensures refresh ==> api.rounds == old(api.rounds) + 1 && r == RoundResult(api.replies, old(api.rounds))
    {
      var payloads := api.GetFromWebApi();
      var kalender := ParseCalendarList(payloads.tommekalender, payloads.fraksjoner);
      if kalender.Err? {
        return kalender;
      }
      var checkForRefresh := false;
      if !refresh {
        checkForRefresh := CheckForRefreshOfData(kalender.value, today);
      }
      if checkForRefresh {
        r := GetCalendarList(api, today, true);
      } else {
        r := kalender;
      }
    }

    /** `refresh_calendar`: rebuild the list only when the cached one is
        stale, and then replace it whole; an error while rebuilding escapes
        and leaves the cached list as it was. */
    method RefreshCalendar(api: WebApi, today: Date) returns (raised: Option<Error>)
      modifies this, api
      ensures !IsStale(old(kalenderList), today) ==>
        kalenderList == old(kalenderList) && api.rounds == old(api.rounds) && raised == None
      ensures IsStale(old(kalenderList), today) ==>
        old(api.rounds) + 1 <= api.rounds <= old(api.rounds) + 2 &&
        var built := Rebuilt(api.replies, old(api.rounds), today, false);
        (built.Ok? ==> kalenderList == built.value && raised == None) &&
        (built.Err? ==> kalenderList == old(kalenderList) && raised == Some(built.error))
    {
      var doRefresh := CheckForRefreshOfData(kalenderList, today);
      raised := None;
      if doRefresh {
        var kalender := GetCalendarList(api, today, false);
        if kalender.Err? {
          return Some(kalender.error);
        }
        kalenderList := kalender.value;
      }
    }

    /** `get_calender_for_fraction`: the first cached entry with the given
        fraction id, or nothing; the cache is only read. */
    method GetCalenderForFraction(fraksjonId: int) returns (r: Option<Entry>)
      ensures r.None? <==> forall i | 0 <= i < |kalenderList| :: kalenderList[i].id != fraksjonId
      ensures r.Some? ==> exists i | 0 <= i < |kalenderList| ::
        kalenderList[i] == r.value && r.value.id == fraksjonId &&
        forall j | 0 <= j < i :: kalenderList[j].id != fraksjonId
    {
      for i := 0 to |kalenderList|
        invariant forall j | 0 <= j < i :: kalenderList[j].id != fraksjonId
      {
        var entry := kalenderList[i];
        if entry.id == fraksjonId {
          return Some(entry);
        }
      }
      return None;
    }

    /** `format_date`: with the date format `"None"` the date is handed back
        as it is; otherwise it is formatted by `strftime` (left
        uninterpreted), which fails on a missing date. */
    function FormatDate(date: Option<DateTime>, strftime: (string, DateTime) -> string): (r: Result<Shown, Error>)
      ensures dateFormat == "None" ==> r == Ok(Unformatted(date))
      ensures dateFormat != "None" ==> (r.Ok? <==> date.Some?)
      ensures dateFormat != "None" && date.Some? ==> r == Ok(Formatted(strftime(dateFormat, date.value)))
    {
      if dateFormat == "None" then Ok(Unformatted(date))
      else if date.None? then Err(NotADate)
      else Ok(Formatted(strftime(dateFormat, date.value)))
    }
  }
}
