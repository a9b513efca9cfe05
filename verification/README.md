# WeatherBot core in Dafny

A Dafny model of the two pieces of sequential logic in WeatherBot, a chat bot that relays weather forecasts.

1. **The forecast handler** (`handlers/weather_module.py`). `get_weather_forecast` first dispatches on the provider's HTTP status. For a 200 response it folds the provider's samples, in input order, into one summary per calendar date, held in an insertion-ordered dictionary:
   - the first sample of a date supplies the description, humidity and wind speed;
   - every sample of the date tightens the running minimum and maximum temperature.

   `_format_forecast` then renders a title and one block per date, in dictionary order. The error texts and labels come from two language-keyed tables, `ERROR_TEXTS` and `LABELS`.
2. **The user-preference store** (`db.py`). `upsert_user`, `get_user_language` and `set_user_language` are single SQL statements on the table `users(user_id BIGINT PRIMARY KEY, username TEXT, language TEXT DEFAULT 'uk')`.

Modules:

- `Wrappers` (`wrappers.dfy`): `Option`.
- `Texts` (`texts.dfy`): the languages, the two tables, and `str.format` with one placeholder, written as `Fill`. `Unfill` is its inverse.
- `Aggregation` (`aggregation.dfy`): samples, day summaries and the insertion-ordered dictionary. It holds the fold `Aggregate`, the loop as written (`AggregateLoop`), and reference definitions stated against the input alone:
  - `FirstIndex`, the position of a date's first sample;
  - `IsMinTemp` and `IsMaxTemp`, the extremes over a date's samples.
- `Formatting` (`formatting.dfy`): the reply as a sequence of lines, plus a parser that reads a reply back.
- `WeatherLookup` (`weather_lookup.dfy`): the status dispatch and the whole handler. The HTTP call's outcome is a parameter.
- `Preferences` (`preferences.dfy`): the table as `map<UserId, Row>`. Each function is written as the SQL statement it runs (`INSERT ... ON CONFLICT DO UPDATE`, `UPDATE ... WHERE`, `SELECT`), and its contract states what that statement does to the rows.

Three behaviours of the code worth noting:

- A language code other than `uk` or `en` makes `get_weather_forecast` raise `KeyError`. The `except` handler itself indexes `ERROR_TEXTS[lang]`. The handler is therefore not total, and `GetWeatherForecast` returns `KeyErrorRaised` in that case.
- For no samples, the reply is the title followed by `"\n\n"`: the title line, then a blank line.
- `set_user_language` on a missing user changes nothing.

## Model

| member | source | states |
|---|---|---|
| Texts.LangFromCode | handlers/weather_module.py:9-26 | only the keys "uk" and "en" find a table, and a found language's own code is the key that was looked up |
| Texts.LangFromCodeOfCode | handlers/weather_module.py:10-18 | each language's table is found under its own code |
| Texts.Fill | handlers/weather_module.py:67 | `format` puts the value verbatim between the template's text before and after the placeholder; a template without a placeholder ignores the value |
| Texts.Unfill | handlers/weather_module.py:12 | whatever text Unfill accepts is exactly the template filled with the value it returns |
| Texts.UnfillFill | handlers/weather_module.py:86 | filling then unfilling returns the value, so a filled error text carries its city or error description recoverably |
| Texts.ErrorTexts | handlers/weather_module.py:9-26 | in both languages `auth` and `api` take no value; `not_found`, `title`, `network` and `unexpected` take one; `not_found` opens a single quote right before the city; `network` and `unexpected` end with the error text |
| Texts.ErrorTextsTranslated | handlers/weather_module.py:9-26 | no entry is shared between the Ukrainian and English tables, and in each language the `auth` and `api` texts differ |
| Texts.Labels | handlers/weather_module.py:28-45 | in both languages the date, description, humidity and wind labels each take one value |
| Aggregation.Min | handlers/weather_module.py:82 | the result is at most both arguments and is one of them |
| Aggregation.Max | handlers/weather_module.py:83 | the result is at least both arguments and is one of them |
| Aggregation.FirstIndex | handlers/weather_module.py:74 | the position of the first sample with the date, with no earlier one; the length when the date is absent |
| Aggregation.Step | handlers/weather_module.py:74-83 | one iteration adds exactly the sample's date to the dictionary, and extends the iteration order only when the date is new |
| Aggregation.StepSpec | handlers/weather_module.py:73-83 | a new date gets the sample as its seed; a known date keeps its description, humidity and wind, and folds min/max in; other dates are untouched |
| Aggregation.StepValid | handlers/weather_module.py:74-75 | one loop step keeps every date listed exactly once |
| Aggregation.Aggregate | handlers/weather_module.py:71-83 | the dictionary's keys are exactly the dates that occur in the input |
| Aggregation.AggregateValid | handlers/weather_module.py:74-75 | the result has exactly one entry per distinct date, and its order lists each key once |
| Aggregation.AggregateTemps | handlers/weather_module.py:82-83 | each date's temp_min is the least temp_min, and its temp_max the greatest temp_max, over that date's samples |
| Aggregation.AggregateFirst | handlers/weather_module.py:74-81 | each date's description, humidity and wind speed are those of its first sample in input order |
| Aggregation.AggregateOrder | handlers/weather_module.py:74-75 | dates are ordered by first appearance in the input, not chronologically |
| Aggregation.AggregateRangeOrdered | handlers/weather_module.py:75-83 | if every sample has temp_min <= temp_max then every day does |
| Aggregation.AggregateLoop | handlers/weather_module.py:71-83 | the in-place loop computes the fold, so its keys are exactly the input's dates |
| Formatting.Block | handlers/weather_module.py:100-105 | a date's block is six lines, opening with the date line and closing with the blank line, with neither kind in between |
| Formatting.ParseBlockOfBlock | handlers/weather_module.py:100-105 | a date's block reads back to that date and its summary |
| Formatting.Blocks | handlers/weather_module.py:98-106 | six lines per date |
| Formatting.FormatForecast | handlers/weather_module.py:90-107 | the reply is the title line, one blank line and six lines per date, in the reply's language |
| Formatting.TitleText | handlers/weather_module.py:91 | the title text names the city recoverably |
| Formatting.BlocksLayout | handlers/weather_module.py:98-106 | line j of the k-th date's block is line 6k+j of the blocks |
| Formatting.FormatLayout | handlers/weather_module.py:98-106 | the k-th date in dictionary order owns reply lines 2+6k to 8+6k: date, temperature range, description, humidity, wind, blank |
| Formatting.ParseBlock | handlers/weather_module.py:100-105 | a six-line block read back re-renders to the same lines |
| Formatting.ParseBlocksOfBlocks | handlers/weather_module.py:98-106 | reading the blocks back yields every date with its full summary, in order |
| Formatting.FormatRoundTrip | handlers/weather_module.py:90-107 | the field-level line sequence loses nothing: it reads back to the city and every date's summary, in dictionary order |
| Formatting.EmptyForecast | handlers/weather_module.py:91 | no samples give no dates, and the reply is exactly the title line and one blank line |
| Formatting.InsertionOrderNotChronological | handlers/weather_module.py:74-98 | for samples dated 06-02, 06-01, 06-02, the 06-02 block comes first, with the first sample's description and the widened temperature range |
| WeatherLookup.GetWeatherForecast | handlers/weather_module.py:54-88 | the handler raises exactly for an unknown language code, and replies with a forecast only for a 200 response whose samples were read |
| WeatherLookup.Classify | handlers/weather_module.py:63-69 | 200 proceeds, 401 is an authentication failure, 404 is not-found, and every other code is a generic failure, each as an if-and-only-if |
| WeatherLookup.RaisesOnlyForUnknownLanguage | handlers/weather_module.py:55-88 | the handler raises exactly when the language code is neither "uk" nor "en" |
| WeatherLookup.OnlySuccessAggregates | handlers/weather_module.py:63-84 | the reply is a forecast if and only if the status is 200 and the samples were read, and then it is the formatted aggregate |
| WeatherLookup.AuthFailureText | handlers/weather_module.py:64-65 | status 401 yields the fixed `auth` text |
| WeatherLookup.NotFoundNamesCity | handlers/weather_module.py:66-67 | status 404 yields the `not_found` text with the city recoverable verbatim |
| WeatherLookup.ApiFailureText | handlers/weather_module.py:68-69 | any other non-200 status yields the fixed `api` text |
| WeatherLookup.TransportFailureText | handlers/weather_module.py:85-86 | a transport failure yields the `network` text with the error description recoverable verbatim |
| WeatherLookup.UndecodableBodyText | handlers/weather_module.py:70-86 | a 200 response whose body is not JSON raises a `RequestException` subclass, so it yields the `network` text with the error description recoverable verbatim |
| WeatherLookup.UnreadableSamplesText | handlers/weather_module.py:87-88 | JSON whose samples cannot be read yields the `unexpected` text with the exception's text recoverable verbatim |
| Preferences.UpsertUser | db.py:38-51 | the row exists afterwards with the given username; with a non-empty language that language is stored; otherwise an existing row keeps its language and a new row gets "uk"; other rows are untouched |
| Preferences.GetUserLanguage | db.py:53-58 | the stored language, or "uk" when the user has no row |
| Preferences.SetUserLanguage | db.py:60-64 | never inserts; an existing row keeps its username and takes the new language; other rows are untouched |
| Preferences.UpsertIdempotent | db.py:38-51 | repeating the same upsert gives the same table as doing it once |
| Preferences.UpsertWithoutLanguageKeepsLanguage | db.py:47-50 | an upsert without a language never changes the language a lookup sees, because the column default equals the lookup's fallback |
| Preferences.ReadYourLanguage | db.py:41-63 | after an upsert with a language, or a language change on an existing row, the lookup returns that language; a change on a missing row leaves the lookup at "uk" |
| Preferences.DistinctUsersCommute | db.py:44-63 | for different user ids, two upserts commute, an upsert and a language change commute, and two language changes commute, since each statement is keyed on its own user_id |
| Preferences.RenameTwice | db.py:47-50 | two upserts without a language leave the last username and the language from before both |

## Left out

- The HTTP request and the parsing of its JSON. The request's outcome is a parameter, `Fetch`: a transport failure with its text, or a status with a payload. A payload is the samples; a body that is not JSON (`requests` raises its decoding error as a subclass of `RequestException`, so it gets the `network` text); or JSON whose samples cannot be read, with the text of the exception raised.
- The conversion of the Unix timestamp to a `%Y-%m-%d` date, which depends on the local time zone. The date is an abstract key type `D`.
- Rendering lines as text. This covers re-formatting the date with `strptime`/`strftime`, `locale.setlocale`, `.1f` float formatting, the `LABELS` label strings and Unicode `capitalize()`. A line is kept as the fields it shows. `LABELS` is present as data, with its single-value labels as templates, but is not applied to the lines.
- Formatting.FormatRoundTrip: holds of the field-level lines only. The rendered text rounds temperatures with `.1f` (line 102) and lower-cases the description after its first character with `capitalize()` (line 103), so distinct summaries can render alike.
- Formatting.FormatForecast: the title line carries the city rather than the filled title text. `TitleText` gives that text separately.
- Floating-point temperatures are modelled as mathematical reals. NaN and infinities in provider data are not modelled, and neither are the `±inf` seeds: the first sample of a date initialises its minimum and maximum directly. That is equivalent, since min(+inf, x) = x and max(-inf, x) = x.
- An exception raised part-way through aggregation gives the same `unexpected` reply as an unreadable payload, because the partial dictionary is discarded. It is modelled only as `Unreadable`.
- Reading the API key from the environment in `WeatherHandler.__init__`, and the `requests` parameters. These are configuration.
- Connection handling, `init_db` table creation and database errors. One such error is a `user_id` outside the BIGINT range; the `UserId` type excludes those ids. Another is passing `None` to `set_user_language`, which would store NULL.
- Concurrency: statements are atomic and applied one at a time. Races between concurrent upserts are not modelled.
- main.py: bot routing, keyboards, message sending and startup. main.py is not part of this model.
