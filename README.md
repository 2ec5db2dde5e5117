# Min Renovasjon calendar cache, modelled in Dafny

This project models the calendar-cache engine of the Home Assistant
integration `min_renovasjon`: the `MinRenovasjon` class that fetches a
household's waste-collection schedule ("tømmekalender") and the waste
fraction metadata ("fraksjoner") from the Norkart Komtek web API, joins them
into a list of calendar entries `(fraction id, name, icon, first pickup,
next pickup)`, keeps that list as its cache, and fetches again when the
cached list is stale.

Modules:

- `Wrappers` (`wrappers.dfy`): `Option` and `Result`.
- `Timestamp` (`timestamp.dfy`): naive date-times and calendar dates, the
  day order used by the staleness check, and a strict parser and printer
  for the upstream timestamp shape `YYYY-MM-DDTHH:MM:SS`, proved to be
  inverse to each other.
- `Calendar` (`calendar.dfy`): the decoded payload records, the entry
  tuple, the date-count rule, the join as specification functions
  (`PickupDates`, `Matches`, `JoinAll`, `CalendarSpec`) and
  `ParseCalendarList`, the nested loop of `_parse_calendar_list`, proved
  equal to them.
- `JoinProperties` (`join_properties.dfy`): soundness, completeness,
  length, order and error behaviour of the join, and the worked examples.
- `Staleness` (`staleness.dfy`): the "any entry needs a refresh" policy and
  the early-return loop `CheckForRefreshOfData`.
- `Cache` (`cache.dfy`): street-name normalisation, the web API as a
  script of replies (`WebApi`), and the class `MinRenovasjon` with its
  construction, bounded rebuild, conditional refresh, lookup and date
  formatting.

Modelling choices:

- `date.today()` is a parameter `today: Date` of every operation that
  reads the clock.
- The network is the class `WebApi`. It holds the replies the API gives to
  successive fetch rounds, already JSON-decoded. Each reply is a pair of
  optional payloads, and a payload is absent when its request got a non-OK
  status. `rounds` counts the rounds asked for. A round past the end of
  the script fails both requests.
- An absent payload reaches `json.loads(None)`, which raises. The model
  returns the error `NoPayload` for it.
- Every Python exception that escapes the core is an `Err` value of the
  type `Calendar.Error`:
  - `DateCount`: a record's date list has a bad length;
  - `BadTimestamp`: a date text is rejected;
  - `NoPayload`: a payload is absent;
  - `NotADate`: a missing date is formatted.
- A Dafny constructor cannot fail, while `__init__` raises when the first
  build fails. So `__init__` is the static method `MinRenovasjon.Create`,
  which returns a `Result`. The plain constructor only stores fields.
- `urllib.parse.quote`/`unquote` and `datetime.strftime` are function
  parameters that the model does not interpret.
- Items of `Tommedatoer` are `Option<string>`, because the code allows
  for a JSON `null` there (its `is not None` tests at lines 166 and 170).

Behaviour of the code worth knowing, as modelled:

- The rebuild is bounded. The recursive call passes `refresh=True`, which
  skips the staleness check, so one build makes at most two fetch rounds
  (`GetCalendarList`, `Retries`).
- An absent payload raises (`json.loads(None)`), modelled as `NoPayload`.
  It does not give an empty calendar.
- The code does not enforce one entry per fraction id: each
  (schedule record, metadata record) pair with equal ids gives one entry.
  Ids are unique in the output when both payloads have no duplicate ids
  (`UniqueIds`).
- The empty list is never stale, so an empty cache is never refetched
  (`CheckForRefreshOfData` ensures this).
- A fraction listed with only one pickup date has no next pickup. So every
  calendar in which it meets its metadata is stale on every day
  (`OneDateAlwaysStale`). A build makes its second fetch round whenever its
  first round still lists such a fraction (`OneDateForcesRetry`). If that
  first round parses into a fresh list, or raises, the build stops after
  one round.

## Model

| member | source | states |
|---|---|---|
| `Timestamp.ParseTimestamp` | custom_components/min_renovasjon/__init__.py:167-173 | an accepted timestamp is a valid `datetime` (year 1-9999, real day of the month, no leap second) and its text has the upstream shape |
| `Timestamp.FormatThenParse` | custom_components/min_renovasjon/__init__.py:167-173 | every valid timestamp written in the upstream shape parses back to itself |
| `Timestamp.ParseThenFormat` | custom_components/min_renovasjon/__init__.py:167-173 | every accepted text is the canonical text of the timestamp it parses to, so the parser accepts one spelling per timestamp and loses nothing |
| `Timestamp.ScenarioTimestamps` | custom_components/min_renovasjon/__init__.py:167-173 | `2024-01-10T00:00:00` and `2024-02-10T00:00:00` parse to 10 January and 10 February 2024, midnight |
| `Calendar.ParseSlot` | custom_components/min_renovasjon/__init__.py:166-173 | a `null` slot stays absent, and a text slot parses to the timestamp whose canonical text it is; it fails exactly when the text is rejected |
| `Calendar.PickupDates` | custom_components/min_renovasjon/__init__.py:159-173 | one date gives (that date, none); two dates give both in payload order, unsorted; any other count, zero included, raises `DateCount`; it succeeds whenever the count is 1 or 2 and every slot parses |
| `Calendar.JoinAllConcat` | custom_components/min_renovasjon/__init__.py:157-191 | joining two consecutive stretches of schedule records is joining each and concatenating, and the earlier stretch's error wins (output follows schedule-payload order) |
| `Calendar.FirstFailureRaises` | custom_components/min_renovasjon/__init__.py:157-164 | a record whose dates cannot be taken apart, behind records that join cleanly, makes the whole parse raise that record's error |
| `Calendar.ParseCalendarList` | custom_components/min_renovasjon/__init__.py:150-191 | the nested append loops return exactly the join `CalendarSpec` of the two payloads, and raise `NoPayload` when either payload is absent |
| `JoinProperties.MatchesConcat` | custom_components/min_renovasjon/__init__.py:175-189 | within one schedule record, entries follow the metadata-payload order |
| `JoinProperties.MatchesSound` | custom_components/min_renovasjon/__init__.py:175-188 | each entry one record contributes is built from a metadata record with the record's id and carries the record's dates |
| `JoinProperties.MatchesComplete` | custom_components/min_renovasjon/__init__.py:175-189 | every metadata record with the record's id yields its entry; the `continue` does not stop the inner loop at the first match |
| `JoinProperties.MatchesLength` | custom_components/min_renovasjon/__init__.py:175-189 | one record contributes as many entries as there are metadata records with its id, and none when nothing matches |
| `JoinProperties.JoinAllOk` | custom_components/min_renovasjon/__init__.py:157-173 | the parse succeeds if and only if every schedule record's dates can be taken apart |
| `JoinProperties.JoinAllFirstError` | custom_components/min_renovasjon/__init__.py:157-173 | a failed parse reports the error of the first failing record in payload order |
| `JoinProperties.JoinAllSound` | custom_components/min_renovasjon/__init__.py:175-188 | every output entry is the join of some schedule record with some metadata record of equal id: id, name and icon from the metadata, dates from the schedule |
| `JoinProperties.JoinAllComplete` | custom_components/min_renovasjon/__init__.py:175-189 | every (schedule record, metadata record) pair with equal ids yields its entry in the output |
| `JoinProperties.JoinAllLength` | custom_components/min_renovasjon/__init__.py:175-189 | output length is the sum over schedule records of their metadata match counts |
| `JoinProperties.UnmatchedDropped` | custom_components/min_renovasjon/__init__.py:175-176 | a fraction id carried by no metadata record never reaches the output |
| `JoinProperties.UniqueIds` | custom_components/min_renovasjon/__init__.py:157-189 | when both payloads have no duplicate ids, the output holds at most one entry per fraction id |
| `JoinProperties.ScenarioOneDate` | custom_components/min_renovasjon/__init__.py:150-191 | schedule `{1, ["2024-01-10T00:00:00"]}` with metadata `{1, "Paper", "p.png"}` gives the single entry `(1, "Paper", "p.png", 2024-01-10, none)` |
| `JoinProperties.ScenarioTwoDates` | custom_components/min_renovasjon/__init__.py:163-173 | dates `["2024-01-10T00:00:00", "2024-02-10T00:00:00"]` give first 2024-01-10 and next 2024-02-10 |
| `JoinProperties.ScenarioMissingMetadata` | custom_components/min_renovasjon/__init__.py:175-191 | a schedule record for fraction 2 with metadata only for fraction 1 gives an empty list |
| `Staleness.CheckForRefreshOfData` | custom_components/min_renovasjon/__init__.py:193-208 | returns true if and only if some entry has a missing first or next pickup, or one whose day is before today; the empty list is never stale |
| `Staleness.StaleConcat` | custom_components/min_renovasjon/__init__.py:195-208 | staleness of a list is staleness of either part: an "any" over entries, independent of order |
| `Staleness.OneDateAlwaysStale` | custom_components/min_renovasjon/__init__.py:159-162 | a fraction with a single pickup date that meets its metadata makes the parsed list stale on every day |
| `Staleness.ScenarioPastPickup` | custom_components/min_renovasjon/__init__.py:201-206 | on 2024-03-01 an entry whose first pickup is 2024-01-10 makes the list stale |
| `Cache.UrlEncode` | custom_components/min_renovasjon/__init__.py:74-79 | the result is `quote(unquote(s))` on both branches, and `s` itself when `s` is already canonical |
| `Cache.UrlEncodeIdempotent` | custom_components/min_renovasjon/__init__.py:74-79 | when `unquote` undoes `quote`, normalising a normalised street name changes nothing |
| `Cache.WebApi.GetFromWebApi` | custom_components/min_renovasjon/__init__.py:120-127 | one fetch round returns the API's next scripted reply (absent payloads for failed requests) and counts one round |
| `Cache.RebuiltStaleOnlyAfterRetry` | custom_components/min_renovasjon/__init__.py:140-145 | a build that returns a stale list has used its second round; one that stops after a successful first round returns a fresh list |
| `Cache.OneDateForcesRetry` | custom_components/min_renovasjon/__init__.py:138-145 | a first round that parses and still lists a matched single-date fraction always sends a build without `refresh` into its second round |
| `Cache.MinRenovasjon.Create` | custom_components/min_renovasjon/__init__.py:66-72 | construction normalises the street name, stores the configuration and caches the result of an unconditional build (one or two rounds); a build error escapes and no object is made |
| `Cache.MinRenovasjon.GetCalendarList` | custom_components/min_renovasjon/__init__.py:129-148 | with `refresh` set: exactly one fetch/parse round and no staleness check; without it, a second round exactly when the first parses into a stale list, so never more than two rounds; a parse error escapes at once |
| `Cache.MinRenovasjon.RefreshCalendar` | custom_components/min_renovasjon/__init__.py:81-84 | a fresh cache is left unchanged and nothing is fetched; a stale cache is replaced whole by the rebuilt list, or left as it was when the rebuild raises |
| `Cache.MinRenovasjon.GetCalenderForFraction` | custom_components/min_renovasjon/__init__.py:210-214 | returns the first cached entry with the given id, or nothing exactly when no entry has it; the cache is only read |
| `Cache.MinRenovasjon.FormatDate` | custom_components/min_renovasjon/__init__.py:220-223 | with the format `"None"` the argument comes back unchanged, a missing date included; otherwise a present date is `strftime`-formatted and a missing one raises |

## Left out

- HTTP transport (lines 86-118): URL building, the municipality and
  application-key headers, and status-code handling are reduced to the
  `WebApi` script. The address fields are stored, but the script does not
  depend on them.
- JSON decoding (lines 154-155): payloads arrive decoded. Malformed JSON,
  missing keys (`FraksjonId`, `Tommedatoer`, `Id`, `Navn`, `Ikon`) and
  values of unexpected JSON types, which all raise in the source, are not
  modelled.
- Fraction ids are integers. Python's `==` between ids of different JSON
  types (for example `1` and `"1"`) is not modelled.
- Timestamp.ParseTimestamp: accepts only zero-padded two-digit fields,
  an upper-case `T` and ASCII digits. `datetime.strptime` also accepts
  single-digit month, day, hour, minute and second fields, a space-padded
  day (` 5`), a lower-case `t` and other Unicode decimal digits. Such texts are rejected here, so
  the model raises `BadTimestamp` where the source would parse them.
- `strftime`, `quote` and `unquote` are uninterpreted. So the model proves
  nothing about formatted text, or about reading a formatted date back.
- Logging calls are side effects only and are not modelled.
- `setup` and `CONFIG_SCHEMA` (lines 33-62) are Home Assistant
  registration and configuration validation.
- The read-only `calender_list` property (lines 216-218) hands out
  `kalenderList` and adds nothing beyond the field itself.
- `sensor.py` is not part of this model. Its `name`, `state` and
  `entity_picture` project fields out of `GetCalenderForFraction` and
  `FormatDate`, and its `update` calls `RefreshCalendar`.
- Concurrency: the source runs single-threaded, and so does the model.
