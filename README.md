# SMA inverter client: a Dafny model

This project models the core of `Irekk\SMA\Client`, a PHP client for the local JSON API
of an SMA solar inverter. The client logs in with a user and password and keeps the
session id (`sid`). It reads five fixed values in one bulk `getValues` query and
normalises them: total yield is converted from kWh to Wh, and an empty today-yield
reading is replaced by a delta computed from the today logger series. The result is
memoised in a one-shot cache (`_cache`). Each reading is handed out with a fixed unit.

Modules:

- `Wrappers`: `Option` (PHP `null` is `None`) and `Result` (a thrown exception is `Failure`).
- `Php`: PHP scalars and `empty()` (null, false, 0, "" and "0" are empty).
- `Wire`: the device's wire contract as typed requests and decoded responses. `Transport`
  is the black-box transport. Each of its four endpoints is a function of the number of
  earlier calls and the request fields, so readings may change over time. Every `Post*`
  appends the request to `log`.
- `Values`: the five value keys, reading `device[key][1][0]['val']`, the kWh-to-Wh
  conversion, the today-yield fallback, and the logger delta (`SeriesYield`), together
  with a reference definition of that delta as a sum of increments.
- `Metrics`: unit-tagged readings and the `getMetrics` report.
- `SmaClient`: credential defaulting, login and logout outcomes, and the `Client` class.
  The class has `sid` and `cache` as fields and a ghost counter `fetches` of bulk
  fetches. It also has `GetValues`, `PeriodicYield`, `GetData`, the five accessors and
  the metric aggregators.

The wall clock is a parameter: every operation that may run `getValues` takes the
`midnight` timestamp that the PHP code reads with `new \DateTime('today midnight')`.
A fetch's result and its requests are specified by `Client.FreshValues(s, n, midnight)`
and `Client.FetchRequests(s, n, midnight)`. Here `s` is the session and `n` is the number
of transport calls made before the fetch.

Four facts about the code that the model keeps:

- `logout` never clears `sid`, and a logout reply without `result` counts as success.
- A failed login leaves `sid` as it was.
- A value is read at `[key][1][0]['val']`, where the decoded JSON object key "1" is
  followed by list index 0. It is not read from "the first element of a nested array".
- A session id is usable exactly when it is PHP-truthy. A granted token "" or "0" therefore
  behaves like no session.

## Model

| member | source | states |
|---|---|---|
| `Wire.Transport.PostLogin` | src/SMA/Client.php:348-352 | a login post appends its request to the log and returns the device's answer for that call |
| `Wire.Transport.PostLogout` | src/SMA/Client.php:348-352 | a logout post appends its request to the log and returns the device's answer |
| `Wire.Transport.PostValues` | src/SMA/Client.php:348-352 | a getValues post appends its request to the log and returns the device's answer |
| `Wire.Transport.PostLogger` | src/SMA/Client.php:348-352 | a getLogger post appends its request to the log and returns the device's answer |
| `Wire.BulkQueriesAppend` | src/SMA/Client.php:255-262 | the number of bulk queries in a log adds up over concatenated logs |
| `Values.ReadValues` | src/SMA/Client.php:263-269 | the foreach loop builds exactly the value set `Extracted(device)`, covering every fixed key |
| `Values.KeySetIsKeys` | src/SMA/Client.php:247-253 | the key list sent in the bulk request and the key set of every value set name the same five keys, each once |
| `Values.ExtractedKeys` | src/SMA/Client.php:247-269 | the extracted set has exactly the five keys; each is the `[key][1][0]['val']` reading, or null when that path is unset |
| `Values.ScaleTotal` | src/SMA/Client.php:270-273 | total yield is multiplied by 1000 exactly when the reading is non-empty; null and 0 are left unchanged; emptiness is preserved |
| `Values.Normalised` | src/SMA/Client.php:270-280 | keeps the key set; scales total yield; keeps a non-empty today reading; replaces an empty one with the unscaled fallback; leaves today yield never null |
| `Values.NormalisedShape` | src/SMA/Client.php:247-280 | a normalised device entry has exactly the five keys and a non-null today yield; maximum power, current power and uptime are the device's readings |
| `Values.NoDeviceValues` | src/SMA/Client.php:254-280 | with no device entry every value is null, except today yield, which is 0 |
| `Values.SeriesYieldTelescopes` | src/SMA/Client.php:308-313 | the logger yield (last minus first when there are more than one sample, else 0) equals the sum of consecutive increments |
| `Values.IncrementsNonNegative` | src/SMA/Client.php:308-313 | a non-decreasing series has a non-negative sum of increments |
| `Values.CumulativeYieldNonNegative` | src/SMA/Client.php:308-313 | a non-decreasing energy counter never gives a negative periodic yield |
| `Values.WorkedExamples` | src/SMA/Client.php:270-313 | 12 kWh scales to 12000 Wh; 0 and null are unscaled; samples 100, 100, 145 give 45; one sample or none gives 0 |
| `Metrics.UnitOf` | src/SMA/Client.php:58-125 | the fixed units: W for maximum and current power, Wh for total and today yield, s for uptime |
| `Metrics.ReportRoundTrip` | src/SMA/Client.php:133-169 | a report loses no value of the set it was built from, and its units do not depend on the readings |
| `SmaClient.Active` | src/SMA/Client.php:296-298 | a session is usable exactly when a token was stored that is neither "" nor "0" |
| `SmaClient.DefaultCredentials` | src/SMA/Client.php:31-36 | an empty or missing user becomes "usr" and an empty or missing password "0000", using `empty()`, where "0" counts as empty; non-empty options are kept; neither result is empty |
| `SmaClient.DefaultCredentialsIdempotent` | src/SMA/Client.php:31-36 | defaulting already-defaulted credentials changes nothing |
| `SmaClient.LoginOutcome` | src/SMA/Client.php:210-218 | login fails exactly when `err` is above 0 (a missing `err` counts as 0), with that code; otherwise the session is `result.sid` if present, else `false` |
| `SmaClient.LoginActiveOnlyWithToken` | src/SMA/Client.php:211-218 | a usable session after login implies no positive error and a granted token other than "" and "0" |
| `SmaClient.LogoutOutcome` | src/SMA/Client.php:230-234 | logout throws exactly when the reply has `result` and `result.isLogin` is not `false`, and returns `true` otherwise |
| `SmaClient.Client.constructor` | src/SMA/Client.php:171-193 | a new client has no `sid`, an empty cache and no fetches yet |
| `SmaClient.Client.Open` | src/SMA/Client.php:29-39 | construction posts exactly one login with the defaulted credentials; a failed login is the constructor's error and no client comes back; otherwise a fresh client holds the granted session and an empty cache |
| `SmaClient.Client.Login` | src/SMA/Client.php:204-219 | posts one login; the result is `LoginOutcome` of the reply; on failure `sid` is untouched, on success `sid` is the returned session |
| `SmaClient.Client.Logout` | src/SMA/Client.php:227-237 | without a usable session, returns `false` and posts nothing; otherwise posts one logout and ends as `LogoutOutcome` of the reply; `sid` is never cleared |
| `SmaClient.Client.PeriodicYield` | src/SMA/Client.php:294-314 | without a session, returns 0 and posts nothing; otherwise posts one logger query over [from, to) with `to` defaulting to from + 86400, and returns the first device's last-minus-first delta |
| `SmaClient.Client.FreshValues` | src/SMA/Client.php:245-283 | the value set of a fetch always has exactly the five keys and a non-null today yield |
| `SmaClient.Client.FetchDevice` | src/SMA/Client.php:254-262 | with a session, posts one bulk query for the five keys and reads the first device entry; without one, posts nothing and reads an empty device |
| `SmaClient.Client.GetValues` | src/SMA/Client.php:245-283 | returns `FreshValues` for the session and call count at entry, posts exactly `FetchRequests`, and counts one fetch |
| `SmaClient.Client.GetData` | src/SMA/Client.php:182-188 | a cache hit returns the cached set with no fetch and no call; a miss runs one fetch and caches its result; the cache invariant holds afterwards |
| `SmaClient.Client.GetMaximumPower` | src/SMA/Client.php:73-80 | reads through the cache and returns the maximum-power value in W |
| `SmaClient.Client.GetCurrentPower` | src/SMA/Client.php:58-65 | reads through the cache and returns the current-power value in W |
| `SmaClient.Client.GetTodayYield` | src/SMA/Client.php:88-95 | reads through the cache and returns the today-yield value in Wh |
| `SmaClient.Client.GetTotalYield` | src/SMA/Client.php:103-110 | reads through the cache and returns the total-yield value in Wh |
| `SmaClient.Client.GetUptime` | src/SMA/Client.php:118-125 | reads through the cache and returns the uptime value in s |
| `SmaClient.Client.GetPowerMetrics` | src/SMA/Client.php:149-155 | both power metrics come from one read through the cache |
| `SmaClient.Client.GetYieldMetrics` | src/SMA/Client.php:163-169 | both yield metrics come from one read through the cache |
| `SmaClient.Client.GetMetrics` | src/SMA/Client.php:133-141 | clears the cache, then runs exactly one fresh fetch; the log grows by exactly that fetch's requests, which is one bulk query with a session and none without; every field of the report is read from that fresh value set |
| `SmaClient.OneBulkQueryPerFetch` | src/SMA/Client.php:254-262 | a fetch's requests hold one bulk query when there is a session and none when there is not |
| `SmaClient.NoSessionFetch` | src/SMA/Client.php:254-298 | without a session, a fetch posts nothing and yields all nulls except a today yield of 0 |
| `SmaClient.DirectTodayYieldKept` | src/SMA/Client.php:275-280 | a non-empty direct today reading is kept as-is and no logger query is posted |
| `SmaClient.EmptyTodayYieldFallsBack` | src/SMA/Client.php:275-280 | an empty direct today reading becomes the logger yield from midnight to midnight + 86400, unscaled; with a session the fetch posts the bulk query and then that logger query |
| `SmaClient.MaximumPowerTwice` | src/SMA/Client.php:182-188 | two consecutive reads of maximum power agree, cause at most one fetch, and add at most one bulk query to the request log |

## Left out

- HTTP transport (`getHttpConnector`, `postData`, Guzzle, JSON decoding and the `url` option): replaced by `Wire.Transport`, whose endpoints are supplied functions; transport errors are not modelled.
- Clock: `new \DateTime('today midnight')` depends on the time zone and wall clock; the timestamp is the `midnight` parameter.
- `__destruct`: PHP object teardown timing is not modelled; `Client.Logout` is an explicit operation that nothing calls automatically.
- Numeric domain: device `val` and `v` values and error codes are integers; PHP floats, numeric strings and their comparison rules are not modelled; `empty()` is modelled on scalars only (no `0.0`, no arrays).
- Malformed getValues and getLogger replies: their `result` is modelled as present and typed. When `result` is undefined, PHP 8's `reset(null)` at src/SMA/Client.php:261 and :307 raises a type error, and the model does not capture that. A `result` of the wrong shape is not modelled either. Login and logout replies without `result` are modelled: a login then stores `false`, and a logout returns `true`.
- `reset()` on an empty `result`: an empty bulk reply reads as a device with no keys, which makes all values null. An empty logger reply reads as no samples, which gives 0. PHP 8's `count(false)` would raise a type error instead.
- `YIELD_KEY_BEFORE`: declared by the client but never queried; it is only a constant here.
- Concurrency: the client is single-threaded; nothing is modelled about concurrent callers.
