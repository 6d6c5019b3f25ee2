# Webhook order proxy: a verified model of its order-construction core

The proxy receives a trading alert `{secret, signal, symbol, quantity}`,
checks it, looks up the NIFTY 50 index price, and sends the broker a
single-leg `multi_leg_order`. The leg is an at-the-money weekly option: a call
for BUY, a put for SELL. The strike is the price rounded to the nearest 50.
The expiry is the next Thursday, or the Thursday after once 15:30 has passed
on expiry day. The proxy then relays the broker's answer. This project models
that core of `api/webhook.js` in Dafny and proves what it promises.

Modules, one per concern of the source file:

- `Wrappers`: `Option` (an absent JavaScript field) and `Result` (a value, or the text of what was thrown).
- `Strike`: `Math.round` and `nearest50` on exact reals.
- `Decimal`: `Number.prototype.toString` for integers of magnitude up to 2^53, with a reader for that text as its inverse.
- `Text`: `toUpperCase` on ASCII text.
- `Calendar`: day numbers to proleptic Gregorian dates, and the `YYYY-MM-DD` text of `toISOString().split('T')[0]`.
- `Expiry`: `weeklyExpiry`. `DateTime` is the mutable `Date`, and `WeeklyExpiry` is the step-by-step method. `ExpiryDay` is its specification function; `IsNextExpiry` says what the result means.
- `Webhook`: `handler` as a pure function `Handle`. It takes the request, the configuration, the trading-zone clock, and the outcomes of the quote fetch and the forward. It returns the status, the body, and the outbound calls in order.

Time is wall-clock time in the trading zone. It is given as a day number
(days since 1970-01-01, a Thursday, so the weekday is `(d + 4) % 7` with
Sunday 0) and a second of the day. The source reads the clock through a
locale string, which drops milliseconds. So whole seconds make the strict
`istNow > cutoff` comparison exact: 15:30:00 still expires today.

Three behaviours of the code are worth knowing:

- Quote values. The code does not reject a quote that is NaN or infinite: `parseFloat` can yield either, and `nearest50` passes it through. The order then goes out with `strike_price` `"NaN"`, `"Infinity"` or `"-Infinity"` (`NonFiniteSpotStillForwarded`).
- Non-JSON broker answers. The code calls `r.json()` with no `{raw: text}` fallback, so a non-JSON answer throws and the caller gets 500 (`FailuresAre500`).
- Exchange. The code always sends exchange `"NSE"`.

The secret check is a strict comparison of two possibly-undefined values. So
with no secret configured, an alert without a secret is admitted
(`UnsetSecretAdmitsMissingSecret`).

## Model

| member | source | states |
|---|---|---|
| `Strike.Round` | api/webhook.js:16 | `Math.round` gives the integer k with k - 1/2 <= x < k + 1/2, so halves go up |
| `Strike.Nearest50` | api/webhook.js:16 | the strike is a multiple of 50 and lies within 25 of the price: strike - 25 <= p < strike + 25 |
| `Strike.Nearest50Unique` | api/webhook.js:16 | any multiple of 50 within that half-open band around p is the strike, so the two facts define `nearest50` |
| `Strike.Nearest50TieRoundsUp` | api/webhook.js:16 | an exact tie 50k + 25 goes up to 50(k + 1) |
| `Strike.Nearest50FixesMultiples` | api/webhook.js:16 | a multiple of 50 is its own strike |
| `Strike.Nearest50Idempotent` | api/webhook.js:16 | taking the strike of a strike changes nothing |
| `Strike.Nearest50Monotone` | api/webhook.js:16 | a higher price never gives a lower strike |
| `Strike.Nearest50Examples` | api/webhook.js:16 | 17485 gives 17500 and 17470 gives 17450 |
| `Decimal.NatToString` | api/webhook.js:64-72 | the numeral is canonical: all digits, no leading zero, and exactly "0" for 0 |
| `Decimal.IntToString` | api/webhook.js:64-72 | `toString` of an integer is canonical (optional '-', no leading zero, never "-0") with '-' exactly for negatives; this is the source's text for magnitudes up to 2^53 |
| `Decimal.LeadingDigitPositive` | api/webhook.js:64-72 | a numeral that does not start with 0 has a positive value |
| `Decimal.CanonicalDigits` | api/webhook.js:64-72 | a digit string without a superfluous leading zero is the numeral of its own value |
| `Decimal.CanonicalIsIntToString` | api/webhook.js:64-72 | a canonical text that reads as k is exactly `IntToString(k)`, so canonical plus its value pins the wire text |
| `Decimal.NatToStringValue` | api/webhook.js:64-72 | the digits of a numeral read back as the number |
| `Decimal.IntToStringRoundTrip` | api/webhook.js:64-72 | reading back the text of any integer gives that integer |
| `Decimal.IntToStringInjective` | api/webhook.js:64-72 | different integers get different texts |
| `Decimal.IntToStringExamples` | api/webhook.js:64-72 | 17500, 2, -30 and 0 are written "17500", "2", "-30", "0" |
| `Text.UpperChar` | api/webhook.js:66 | a..z become A..Z and nothing else changes; the result is never lower-case |
| `Text.ToUpper` | api/webhook.js:66 | `toUpperCase` keeps the length and upper-cases each character in place |
| `Text.ToUpperHasNoLower` | api/webhook.js:66 | no lower-case letter survives |
| `Text.ToUpperIdempotent` | api/webhook.js:66 | upper-casing twice is upper-casing once |
| `Text.ToUpperFixesUpper` | api/webhook.js:66 | text without lower-case letters is unchanged |
| `Text.ToUpperExample` | api/webhook.js:66 | "nifty" becomes "NIFTY" |
| `Expiry.Weekday` | api/webhook.js:21 | `getDay` of a day number is in 0..6 |
| `Expiry.DaysToThursday` | api/webhook.js:22 | `diff` is in 0..6, lands on a Thursday, and is 0 exactly on a Thursday |
| `Expiry.DaysToThursdayLands` | api/webhook.js:22-24 | today plus `diff` is a Thursday |
| `Expiry.ThursdaysAWeekApart` | api/webhook.js:22-28 | two Thursdays less than seven days apart are the same day |
| `Expiry.Later` | api/webhook.js:28 | `istNow > cutoff` compares time values; for valid readings that is a later day, or the same day at a later second |
| `Expiry.ExpiryDay` | api/webhook.js:19-30 | the expiry is a Thursday on or after today whose 15:30 cutoff has not passed, and every Thursday from today up to it has had its cutoff pass |
| `Expiry.NextExpiryUnique` | api/webhook.js:19-30 | only one day fits that description |
| `Expiry.ThursdayBeforeCutoff` | api/webhook.js:26-28 | on a Thursday up to and including 15:30:00 the expiry is today |
| `Expiry.ThursdayAfterCutoff` | api/webhook.js:26-28 | on a Thursday strictly after 15:30:00 the expiry is today + 7 |
| `Expiry.OtherWeekday` | api/webhook.js:22-28 | on any other weekday the cutoff never fires; the expiry is the first Thursday, 1..6 days ahead |
| `Expiry.ExpiryWithinAWeek` | api/webhook.js:22-28 | the expiry is a Thursday 0..7 days after today |
| `Expiry.CutoffBoundary` | api/webhook.js:27-28 | on a Thursday, 15:29:59 and 15:30:00 expire today and 15:30:01 expires a week later |
| `Expiry.DateTime.constructor` | api/webhook.js:20 | `new Date(...)` holds the given reading |
| `Expiry.DateTime.Copy` | api/webhook.js:23-27 | `new Date(d)` copies d's day and time |
| `Expiry.DateTime.SetDate` | api/webhook.js:24-28 | `setDate` moves to the given day and keeps the time |
| `Expiry.DateTime.SetHours` | api/webhook.js:25-27 | `setHours(h, m, s, 0)` keeps the day and sets the time of day |
| `Expiry.WeeklyExpiry` | api/webhook.js:19-30 | the step-by-step computation on `Date` objects returns the `YYYY-MM-DD` text of `ExpiryDay` |
| `Calendar.DaysBeforeNextYear` | api/webhook.js:29 | consecutive new years are 365 days apart, 366 after a leap year |
| `Calendar.DaysBeforeNextMonth` | api/webhook.js:29 | consecutive months start a month's length apart, and December ends the year |
| `Calendar.DaysBeforeYearMonotone` | api/webhook.js:29 | later years start later |
| `Calendar.DaysBeforeMonthMonotone` | api/webhook.js:29 | later months start after earlier months end |
| `Calendar.YearOnOrAfter` | api/webhook.js:29 | the search upwards finds the year whose days include n |
| `Calendar.YearOnOrBefore` | api/webhook.js:29 | the search downwards finds the year whose days include n |
| `Calendar.MonthFrom` | api/webhook.js:29 | the search finds the month whose days include the day of the year |
| `Calendar.CivilFromDays` | api/webhook.js:29 | the date of a day number is a valid date whose day number is n |
| `Calendar.DateWithinYear` | api/webhook.js:29 | a valid date's day number falls within its year |
| `Calendar.CivilFromDaysUnique` | api/webhook.js:29 | any valid date with day number n is the date `CivilFromDays` gives |
| `Calendar.PadZeros` | api/webhook.js:29 | zero-padding reaches the width and keeps the text all digits |
| `Calendar.PaddedDigits` | api/webhook.js:29 | the zero-padded numeral is all digits, reads as n, and has exactly the width when n fits in it |
| `Calendar.YearText` | api/webhook.js:29 | the year is four digits reading as the year for 0..9999, otherwise a sign and six digits (more only beyond a million years) reading as its magnitude |
| `Calendar.DateTextReadsBack` | api/webhook.js:29 | for years 0..9999 the year, month and day pieces join into ten characters that read back as the date |
| `Calendar.FormatDate` | api/webhook.js:29 | for years 0..9999 the `YYYY-MM-DD` text has ten characters and reads back as the date |
| `Calendar.IsoDate` | api/webhook.js:29 | `toISOString().split('T')[0]` for day n: for years 0..9999 ten characters that read back as the date of n, whose day number is n |
| `Calendar.IsoDateExamples` | api/webhook.js:29 | day 0 is "1970-01-01" and day 20741 is "2026-10-15" |
| `Webhook.MissingBodyRefused` | api/webhook.js:47-49 | a POST without a body has no fields: it makes no call and gets 401 when a secret is configured, 400 when none is |
| `Webhook.SignalCheckIsExact` | api/webhook.js:49 | BUY and SELL pass; "buy", "Sell", "BUY " and a missing signal fail |
| `Webhook.OptionType` | api/webhook.js:55 | the option type is CE or PE, and CE exactly when the signal is BUY |
| `Webhook.StrikeText` | api/webhook.js:54-72 | for a finite spot, `strike_price` is canonical and reads back as `nearest50(spot)`; NaN, Infinity and -Infinity give exactly "NaN", "Infinity" and "-Infinity" |
| `Webhook.BuildOrder` | api/webhook.js:58-77 | the given secret and `multi_leg_order`; exactly one leg with B/MKT/price 0/NSE/OPT/I/sort 1; CE iff BUY, PE otherwise; the strike text `StrikeText(spot)`, canonical quantity and strike texts reading back as the quantity and `nearest50(spot)`; the upper-cased symbol; the expiry's date text; target 45/5 and stoploss 15/5 |
| `Webhook.Handle` | api/webhook.js:44-91 | the status is one of 405, 401, 400, 500, 200; 405 exactly for non-POST; no outbound call exactly on the 405/401/400 paths; 200 exactly when the broker's answer is relayed |
| `Webhook.NonPostIs405` | api/webhook.js:45 | a non-POST request gets 405 "POST only" and no call, whatever the body |
| `Webhook.BadSecretIs401` | api/webhook.js:47-48 | a POST with a secret other than the configured one gets 401 and no call, whatever the signal |
| `Webhook.BadSignalIs400` | api/webhook.js:49 | with the right secret, a signal that is not exactly BUY or SELL gets 400 and no call |
| `Webhook.StatusDecision` | api/webhook.js:44-91 | each status holds exactly under its condition: the checks in order, then 500 for any thrown failure, else 200 |
| `Webhook.CallsMade` | api/webhook.js:33-83 | calls happen only for accepted alerts; the forward happens only after a successful quote; the quote always names "NIFTY 50" on NSE_EQ; the forward goes to the configured URL; both calls carry the configured access token |
| `Webhook.FailuresAre500` | api/webhook.js:51-89 | a failed quote, a failed forward, or a non-JSON broker answer gives 500 with that error's text |
| `Webhook.BrokerStatusIgnored` | api/webhook.js:80-86 | the broker's HTTP status never changes the response; success relays its parsed answer as `dh` with 200 |
| `Webhook.ForwardedOrder` | api/webhook.js:58-77 | the forwarded document has one leg with B/MKT/price 0/NSE/OPT/I/sort 1; CE iff BUY, PE iff SELL; canonical texts of the quantity (default 1) and of the strike `nearest50(spot)`; the upper-cased symbol (default NIFTY); the expiry text of `ExpiryDay`; the configured secret; target 45/5 and stoploss 15/5 |
| `Webhook.ForwardedStrike` | api/webhook.js:54-72 | the forwarded strike is a multiple of 50 within 25 of a finite spot |
| `Webhook.NonFiniteSpotStillForwarded` | api/webhook.js:41-72 | a NaN or infinite spot is not rejected: the order goes out with strike text "NaN", "Infinity" or "-Infinity", which does not read as a number |
| `Webhook.UnsetSecretAdmitsMissingSecret` | api/webhook.js:47-48 | with no configured secret, a valid alert without a secret passes the secret check |
| `Webhook.EndToEndExample` | api/webhook.js:44-91 | BUY, quantity 2, spot 17485, Tuesday 10:00 gives strike "17500", CE, quantity "2", expiry on the coming Thursday, and a 200 relaying the broker's answer |

## Left out

- Network I/O. The quote fetch (api/webhook.js:35-41) and the forward (api/webhook.js:80-83) are not performed. Their outcomes are parameters of `Handle`, and the calls are returned as data. The `Content-Type` header and the JSON serialisation of the bodies are not modelled.
- Environment reads (api/webhook.js:11-13). The secret, URL and token are a `Config` value; unset variables are `None`. With the URL unset, `fetch(undefined, …)` at api/webhook.js:80 always rejects, so the caller must pass an `Err` as `reply`; `Handle` itself does not force that, and a `PlaceOrder` with `url == None` paired with an `Ok` reply describes no run of the source.
- Logging (api/webhook.js:85, 88). It has no effect on the result.
- Time zone handling (api/webhook.js:20, 29). The conversion to Asia/Kolkata through a locale string is not modelled; the model takes the trading-zone wall clock as input. `toISOString` reads the date in UTC. The model assumes the server runs in UTC, so the calendar day is kept; on a server in another zone the printed day can shift.
- Floating point. Prices are exact reals, so rounding in the double division `p / 50` is not modelled. Also not modelled: `toString`'s exponent form for magnitudes of 1e21 and above, non-integral quantities such as 1.5, and -0 (which prints as "0", as 0 does here).
- `Decimal.IntToString`: integers are exact here. The quantity (api/webhook.js:64) and the strike (api/webhook.js:72) are doubles in the source, and beyond 2^53 `toString` prints a double's shortest round-trip digits padded with zeros (2**60 prints as "1152921504606847000", not "1152921504606846976"); the model's text agrees with the source only for magnitudes up to 2^53.
- JavaScript's dynamic types. `quantity` is an integer and `symbol` a string. So two failures are not modelled: `null.toString()` throwing, and a non-string symbol throwing into the 500 path. `Text.ToUpper` covers ASCII only; full Unicode upper-casing (for example 'ß' becoming "SS") is not modelled.
- `Date`'s range limit. Beyond about 100,000,000 days from 1970, `toISOString` throws. The model formats any day number.
- Determinism of the expiry for the same instant holds because `ExpiryDay` is a function; it is not stated as a separate lemma.
