# Subscription Tracker core, in Dafny

A verified model of the logic at the heart of Subscription Tracker, a Flask
application that tracks recurring subscriptions, converts their costs between
currencies and notifies webhooks about subscriptions that are about to expire.
Three pieces are modelled:

- **Currency conversion and rate acquisition** (`app/currency.py`): the
  `CurrencyConverter` object with its API key; `get_exchange_rates`, which
  uses today's cached rates, else the UniRateAPI response (stamped with the
  base at 1.0 and saved to the daily cache), else the fallback rates;
  `_get_fallback_rates`, which uses the most recent cached snapshot of the
  base of any date, else (for EUR) the static table, else the EUR fallback
  itself (the latest cached EUR snapshot if there is one, otherwise the
  static table) rebased by dividing every rate by the base's rate, or
  `{base: 1.0}` when the EUR fallback does not list the base; `convert_amount`, which
  pivots through the base currency and gives the amount back unconverted
  when a rate is missing or zero; the currency list and symbols. The
  `exchange_rate` table is a map keyed by (date, base currency), the pair
  the schema makes unique.
- **Webhooks** (`app/webhooks.py`): URL validation, the sender factory, the
  payload each sender (Discord, Slack, Microsoft Teams, Gotify, generic)
  builds from a message, a title and a colour, sending through a webhook
  (which stamps `last_used` on success and returns the body posted), and
  the notification fan-out with its title, urgency colour, the body each
  webhook is posted and the count of accepted posts.
- **Subscription billing and expiry** (`app/models.py`): the monthly and
  yearly cost normalisation by billing cycle, and the expiry window and the
  days-left count.

Files: `options.dfy` (optional values), `calendar.dfy` (day numbers),
`text.dfy` (the Python string operations used: `strip`, `startswith`, `in`,
`lower`, `int(s, 16)`), `subscriptions.dfy`, `rate_cache.dfy`,
`currency.dfy`, `webhooks.dfy`. The two whitespace rules differ: `str.strip`
drops the ASCII separators U+001C to U+001F, but `int(s, 16)` does not skip
them, so `Text.Strip` takes the whitespace set as a parameter.

Floats are modelled as exact reals. Dates are integer day numbers, and "today"
is a parameter. The provider's response and each webhook's answer to a post
are inputs. A method returns a `Result` where the source lets an exception
escape, and an `Option` where a payload cannot be prepared.

## Model

| member | source | states |
|---|---|---|
| Subscriptions.MonthlyCost | app/models.py:47-67 | a zero cost, an unknown cycle or a custom cycle without a non-zero day count normalises to 0 |
| Subscriptions.YearlyCost | app/models.py:69-71 | a yearly bill is its own yearly cost; a monthly bill counts twelve times |
| Subscriptions.IsExpiringSoon | app/models.py:73-80 | expiring soon implies an end date not yet past, at most days-ahead days away |
| Subscriptions.DaysUntilExpiry | app/models.py:82-89 | None exactly without an end date; the end date is at most today plus the count, and exactly that when the count is positive |
| Subscriptions.MonthlyCostByCycle | app/models.py:47-67 | daily ×30, weekly ×4.33, bi-weekly ×2.17, monthly unchanged, custom cost/days×30.44 |
| Subscriptions.WholeMonthCyclesRoundTrip | app/models.py:55-64 | for monthly, bi-monthly, quarterly, semi-annual and yearly bills, k monthly amounts add back to the bill |
| Subscriptions.UnknownCycleCostsNothing | app/models.py:65-67 | a custom cycle without a non-zero day count, or an unknown cycle, costs 0 per month and per year |
| Subscriptions.MonthlyCostProportional | app/models.py:47-67 | the normalised cost scales linearly with the cost |
| Subscriptions.MonthlyCostAdditive | app/models.py:47-67 | normalising a sum of costs gives the sum of the normalised costs |
| Subscriptions.MonthlyCostNonNegative | app/models.py:47-71 | a non-negative cost never normalises to a negative monthly or yearly amount |
| Subscriptions.YearlyCostByCycle | app/models.py:69-71 | yearly cost is twelve monthly costs: 360× daily, 51.96× weekly, 26.04× bi-weekly, one yearly bill |
| Subscriptions.ExpiringSoonWindow | app/models.py:73-80 | expiring soon iff there is an end date and today ≤ end ≤ today + days ahead (7 by default) |
| Subscriptions.DaysUntilExpiryShape | app/models.py:82-89 | no end date gives None; an end date not yet past gives end − today |
| Subscriptions.ExpiredIsZeroButNotExpiring | app/models.py:73-89 | a past end date shows 0 days left and is never expiring soon |
| Subscriptions.NoDaysLeftIff | app/models.py:82-89 | 0 days left iff the end date is today or already past |
| Subscriptions.ExpiringSoonByDaysLeft | app/models.py:73-89 | expiring soon iff not yet past and at most days-ahead days left |
| Subscriptions.ExpiringSoonMonotone | app/models.py:73-80 | a wider look-ahead keeps every subscription already in the window |
| Subscriptions.DaysLeftCountDown | app/models.py:82-89 | each day takes one day off the count, down to 0 |
| RateCache.MostRecentSnapshot | app/currency.py:69-73 | None iff nothing is stored for the base; otherwise the snapshot of a stored date no other stored date of the base exceeds |
| RateCache.Latest | app/currency.py:70 | the date picked by "order by date descending, first" is stored and no stored date exceeds it |
| RateCache.SaveNewestIsMostRecent | app/currency.py:49-73 | rates saved for a date no earlier than every stored one are the most recent snapshot afterwards |
| RateCache.MostRecentIgnoresOtherBases | app/currency.py:70 | the snapshot query filters by base: saving another base never changes it |
| RateCache.StoredBaseHasSnapshot | app/currency.py:70-73 | any stored snapshot for a base makes the fallback query find one |
| RateCache.RateStore.TodaysRates | app/currency.py:20 | today's snapshot for the base is returned exactly when it is stored |
| RateCache.RateStore.SaveRates | migrate_to_unirate.py:64-67 | saving replaces the one snapshot per (date, base) and nothing else |
| RateCache.RateStore.MostRecent | app/currency.py:70-73 | the loop over stored keys returns the snapshot of the latest date for the base |
| Currency.GetSupportedCurrencies | app/currency.py:142-177 | 32 ISO three-letter codes with EUR first, each with a symbol and a static rate |
| Currency.GetCurrencySymbol | app/currency.py:179-191 | a known code gets its non-empty symbol, an unknown code is shown as itself |
| Currency.TablesAgree | app/currency.py:78-86 | the static table covers the symbol table's currencies, every static rate is positive, EUR is 1 |
| Currency.Convert | app/currency.py:99-140 | a missing amount gives 0.0; equal currencies, an empty table or an unusable rate on either side give the amount back |
| Currency.ValueInBase | app/currency.py:126-131 | the worth in the base currency times the currency's rate is the amount; the base is worth itself |
| Currency.WithBase | app/currency.py:120-122 | the base is added at 1.0 only when missing; no other entry changes |
| Currency.ConvertNoneIsZero | app/currency.py:109-110 | a missing amount converts to 0.0 |
| Currency.ConvertIdentity | app/currency.py:111-112 | equal currencies give the amount back whatever the rates |
| Currency.ConvertSoftFailure | app/currency.py:117-137 | an empty table or an unusable (missing or zero) rate returns the amount unconverted |
| Currency.ConvertPivot | app/currency.py:124-138 | from base: amount × rate(to); to base: amount / rate(from); otherwise amount / rate(from) × rate(to) |
| Currency.ConvertPreservesValue | app/currency.py:124-138 | a successful conversion keeps the amount's worth in the base currency |
| Currency.ConvertChain | app/currency.py:124-138 | converting a→b then b→c equals converting a→c |
| Currency.ConvertRoundTrip | app/currency.py:124-138 | converting there and back returns the original amount |
| Currency.ConvertByCrossRate | app/currency.py:124-138 | with the base at 1, a conversion between listed currencies is the cross rate |
| Currency.ConvertIgnoresBaseEntry | app/currency.py:120-138 | inserting the base entry into a non-empty table changes no conversion |
| Currency.ConvertInTable | app/currency.py:124-140 | the conversion step returns Convert's value; it keeps the base-currency worth, or returns the amount when a side is unusable |
| Currency.Rebased | app/currency.py:92-94 | rebasing divides every rate and keeps the key set |
| Currency.RebasedBaseIsOne | app/currency.py:88-95 | the new base maps to exactly 1 |
| Currency.RebasedAnchorsBase | app/currency.py:88-95 | rebasing keeps every cross rate |
| Currency.RebasedConvertsAlike | app/currency.py:88-95 | converting with the rebased table gives the same amounts as with the EUR table |
| Currency.Fallback | app/currency.py:65-97 | raising needs a non-EUR base without a snapshot of its own; a stored snapshot of the base is returned as is |
| Currency.FallbackPrefersSnapshot | app/currency.py:69-73 | the most recent cached snapshot of the base wins |
| Currency.FallbackEurNeverRaises | app/currency.py:75-86 | the EUR fallback never raises; with nothing cached it is the static table |
| Currency.FallbackRebasesStaticTable | app/currency.py:87-95 | with nothing cached, a listed base gets the static table divided by its rate, same keys, base at 1 |
| Currency.FallbackUnknownBase | app/currency.py:96-97 | with nothing cached, an unlisted base gets exactly {base: 1.0} |
| Currency.FallbackRaisesIff | app/currency.py:88-94 | the fallback raises ZeroDivisionError iff the base is uncached, not EUR, and listed at 0 in the latest EUR snapshot |
| Currency.UncachedFallbackAnchorsBase | app/currency.py:75-97 | a base without a snapshot of its own is at exactly 1 in any non-raising fallback |
| Currency.AcquireRates | app/currency.py:15-63 | the cache changes at most at (today, base), and only by storing the rates the request returns |
| Currency.FetchedRates | app/currency.py:43-46 | accepted rates are the response's table (empty if missing) with the base stamped at 1.0 |
| Currency.CacheHitSkipsRequest | app/currency.py:19-23 | today's cached rates are returned, no response is consulted, the cache is unchanged |
| Currency.MissingKeyFallsBack | app/currency.py:26-28 | on a cache miss without an API key the fallback is returned and nothing is cached |
| Currency.AcceptedResponseIsCached | app/currency.py:43-52 | an accepted response is returned with base 1.0 and saved as today's snapshot for the base |
| Currency.RejectedResponseFallsBack | app/currency.py:53-63 | a failed request, success false or a malformed rates member yields the fallback and caches nothing |
| Currency.AcquireTouchesOnlyTodaysEntry | app/currency.py:15-63 | a rate request changes the cache at most at (today, base) |
| Currency.SameDayRequestsAgree | app/currency.py:15-52 | after a fetched or cached answer, a later same-day request returns the same rates and changes nothing |
| Currency.AcquiredRatesAnchored | app/currency.py:15-97 | for a never-cached base, any rates returned list the base at exactly 1 |
| Currency.RateTable.constructor | app/currency.py:99 | a caller's rate dictionary holds the given entries |
| Currency.CurrencyConverter.constructor | app/currency.py:8-9 | a new converter has no API key |
| Currency.CurrencyConverter.SetApiKey | app/currency.py:11-13 | the key is replaced |
| Currency.CurrencyConverter.FallbackRates | app/currency.py:65-97 | the method (recursion for EUR, loop dividing each rate) computes the Fallback specification |
| Currency.CurrencyConverter.GetExchangeRates | app/currency.py:15-63 | the returned rates and the new cache are those of the AcquireRates decision |
| Currency.CurrencyConverter.ConvertAmount | app/currency.py:99-140 | the result is Convert over the given or acquired rates; a given table gains the base at 1.0 only when converting; an acquisition exception escapes |
| Currency.StaticTableExample | app/currency.py:77-86 | with no key and an empty cache, 100 EUR is 109 USD |
| Text.TrimStart | app/webhooks.py:450 | the result is a suffix, everything dropped before it is whitespace, and it does not start with whitespace |
| Text.TrimEnd | app/webhooks.py:450 | the result is a prefix, everything dropped after it is whitespace, and it does not end with whitespace |
| Text.LeadingSpace | app/webhooks.py:450 | the count of leading whitespace: all whitespace up to it, and the character at it is not whitespace |
| Text.Strip | app/webhooks.py:447-450 | for the chosen whitespace (`str.strip`'s, or the narrower set `int()` skips), the result is an infix with only whitespace before and after it, empty iff the input is all whitespace, with no whitespace at either end |
| Text.StripDropsOnlySpace | app/webhooks.py:447-450 | the result sits right after the leading whitespace, and only whitespace comes before and after it |
| Text.StripIdempotent | app/webhooks.py:450 | stripping twice is stripping once |
| Text.Contains | app/webhooks.py:458-466 | substring test true iff the substring occurs at some index |
| Text.Lower | app/webhooks.py:128 | lower-casing maps each character, keeping the length |
| Text.GroupedValue | app/webhooks.py:127 | digits are read iff they are well grouped (underscores only between digits) |
| Text.ParseFormatHex | app/webhooks.py:127 | reading the hex spelling of n gives n back |
| Text.ParseHex | app/webhooks.py:127 | a blank string, or one holding only the whitespace `int()` skips, is not a number |
| Text.ParseRejectsSeparator | app/webhooks.py:127 | a string that begins or ends with an ASCII separator (U+001C to U+001F) is not a number, although `str.strip` would drop that character |
| Text.SeparatorPaddedHexFails | app/webhooks.py:127 | "\x1cFF" is not a number |
| Text.ParseSignedHex | app/webhooks.py:127 | a value read after a leading minus is never positive, and never negative without one |
| Text.ParseNegatedHex | app/webhooks.py:127 | a minus in front of the hex spelling of n reads as −n |
| Webhooks.ValidateWebhookUrl | app/webhooks.py:436-470 | the URL is valid iff the message is "URL format appears valid" |
| Webhooks.ValidateStripped | app/webhooks.py:450-470 | the stripped URL is valid iff the message is "URL format appears valid" |
| Webhooks.ValidateWebhookUrlIff | app/webhooks.py:447-470 | valid iff present, not blank, HTTP(S) after stripping, and mentions what the type requires |
| Webhooks.BlankUrlIsEmpty | app/webhooks.py:447-448 | a missing or whitespace-only URL is refused with "URL cannot be empty" |
| Webhooks.SchemeCheckedFirst | app/webhooks.py:450-454 | a non-blank URL without an HTTP(S) scheme is refused for its scheme whatever the type |
| Webhooks.UncheckedTypesNeedOnlyScheme | app/webhooks.py:456-470 | gotify, generic and unknown types accept every non-blank HTTP(S) URL |
| Webhooks.ValidationIgnoresSurroundingSpace | app/webhooks.py:447-450 | surrounding whitespace never changes the verdict |
| Webhooks.GetWebhookSender | app/webhooks.py:254-265 | the sender is the one named by the type, or the generic one for a type outside the registry |
| Webhooks.SenderRegistry | app/webhooks.py:254-265 | each sender is returned for its own type name and no other |
| Webhooks.UnregisteredTypeIsGeneric | app/webhooks.py:264 | an unregistered type gets the generic sender |
| Webhooks.DiscordColor | app/webhooks.py:123-133 | no colour gives blurple; a "#" colour fails iff its digits do not parse; no key only for an unknown name |
| Webhooks.DiscordDefaultColor | app/webhooks.py:132-133 | without a colour the embed gets 0x7289DA |
| Webhooks.DiscordHexColor | app/webhooks.py:125-127 | "#" and a hex spelling give that number |
| Webhooks.DiscordNamedColor | app/webhooks.py:102-129 | each table name gives its table value |
| Webhooks.DiscordNamesIgnoreCase | app/webhooks.py:128-129 | colour names are matched in any letter case |
| Webhooks.DiscordUnknownName | app/webhooks.py:128-129 | an unknown name leaves no color key |
| Webhooks.DiscordSeparatorColorFails | app/webhooks.py:125-127 | a "#" colour whose digits begin or end with an ASCII separator makes the Discord payload fail |
| Webhooks.DiscordJson | app/webhooks.py:100-137 | fails iff the colour is an unparsable "#" colour; otherwise an object whose only member is "embeds" |
| Webhooks.DiscordPayload | app/webhooks.py:100-137 | builds DiscordJson: fails only on an unparsable "#" colour; otherwise one embed with description, timestamp, footer, title if given, colour per DiscordColor |
| Webhooks.SlackColor | app/webhooks.py:161-167 | a colour is set iff one is given, and it is a Slack keyword or the given colour |
| Webhooks.SlackColorKeywords | app/webhooks.py:145-167 | red is danger, orange and yellow warning, green good, anything else passed on, no colour no key |
| Webhooks.SlackColorIdempotent | app/webhooks.py:161-167 | Slack keywords pass through, so mapping twice is mapping once |
| Webhooks.SlackJson | app/webhooks.py:143-171 | an object whose only member is "attachments" |
| Webhooks.SlackPayload | app/webhooks.py:143-171 | builds SlackJson: one attachment with text, epoch seconds, footer, title if given, mapped colour if given |
| Webhooks.TeamsThemeColor | app/webhooks.py:199-205 | a theme colour is set iff one is given, and it is a table value, the colour as given, or a "#" colour without its "#" (which case applies: TeamsNamedColor, TeamsStripsHash, TeamsOtherColorKept) |
| Webhooks.TeamsNamedColor | app/webhooks.py:178-202 | a table name spelled in any letter case becomes that name's digits |
| Webhooks.TeamsOtherColorKept | app/webhooks.py:199-205 | a colour that is neither a table name in any letter case nor a "#" colour reaches Teams as given, letter case kept |
| Webhooks.TeamsStripsHash | app/webhooks.py:203-204 | a "#" colour reaches Teams without its "#" |
| Webhooks.TeamsNamesAreHex | app/webhooks.py:179-186 | every Teams name maps to six hex digits and is also a Discord name |
| Webhooks.TeamsJson | app/webhooks.py:177-207 | an object whose "@type" is "MessageCard" |
| Webhooks.TeamsPayload | app/webhooks.py:177-207 | builds TeamsJson: MessageCard with schema context, summary (title or default), text, empty actions, title and theme colour if given |
| Webhooks.GotifyPriority | app/webhooks.py:215-225 | priority always lies between 2 and 8 |
| Webhooks.GotifyTitle | app/webhooks.py:228-231 | the title is never empty (the default is "Subscription Tracker") |
| Webhooks.GotifyPriorityByColor | app/webhooks.py:215-225 | red 8, orange 6, yellow 4, green and blue 2, any other or no colour 4 |
| Webhooks.GotifyIsCaseSensitive | app/webhooks.py:213-233 | "RED" gets Gotify's default priority though Discord reads it as red |
| Webhooks.GotifyJson | app/webhooks.py:213-233 | an object whose members are exactly message, priority and title |
| Webhooks.GotifyPayload | app/webhooks.py:213-233 | builds GotifyJson: message, priority and title, always all three |
| Webhooks.GenericJson | app/webhooks.py:239-251 | an object with text and timestamp and at most title and colour besides |
| Webhooks.GenericPayload | app/webhooks.py:239-251 | builds GenericJson: text and timestamp, title and colour passed through when given |
| Webhooks.PayloadFor | app/webhooks.py:97-265 | the payload of the sender the factory picks: none exactly for Discord with an unparsable "#" colour; otherwise a JSON object with that sender's members (Discord "embeds", Slack "attachments", Teams a MessageCard, Gotify message/priority/title, generic text and timestamp) |
| Webhooks.PreparePayload | app/webhooks.py:97-251 | prepares PayloadFor of the given sender, case by case |
| Webhooks.DaysOrZero | app/webhooks.py:402 | 0 exactly without an end date or when it is today or past; otherwise the days until it |
| Webhooks.MinDaysLeft | app/webhooks.py:402 | the minimum of the days left (None counted as 0): a lower bound that is attained |
| Webhooks.UrgencyColor | app/webhooks.py:400-411 | red iff 0 days left, orange iff 1, yellow iff 2 or 3, blue iff more than 3 |
| Webhooks.DueSubscriptionMakesItRed | app/webhooks.py:402-405 | a subscription without an end date, or due today or earlier, makes the notification red |
| Webhooks.NextDayMakesItOrange | app/webhooks.py:402-407 | when nothing is due by today and one subscription ends tomorrow, the notification is orange |
| Webhooks.WithinThreeDaysMakesItYellow | app/webhooks.py:402-409 | when all have at least two days left and one at most three, the notification is yellow |
| Webhooks.DistantSubscriptionsAreBlue | app/webhooks.py:402-411 | when all end more than three days ahead, the notification is blue |
| Webhooks.UrgencyPriorityAntitone | app/webhooks.py:400-417 | fewer days left never lowers the Gotify priority |
| Webhooks.UrgencyColorsPrepare | app/webhooks.py:400-417 | every urgency colour is a known name, so no payload preparation fails |
| Webhooks.Webhook.Send | app/webhooks.py:33-90 | the body posted is PayloadFor of the webhook's sender (nothing is posted when it does not prepare); success iff it prepares and the post is accepted; only success stamps last_used |
| Webhooks.CountTrue | app/webhooks.py:419-420 | the number of accepted posts is at most the number of webhooks |
| Webhooks.CountTrueExtremes | app/webhooks.py:419-420 | the count is 0 iff no post was accepted, and the number of webhooks iff all were |
| Webhooks.DecimalRoundTrip | app/webhooks.py:415 | the decimal spelling of a count reads back as the count |
| Webhooks.NotificationTitle | app/webhooks.py:415 | the title is the bell prefix, the count in decimal digits, and " Subscription(s) Expiring Soon" |
| Webhooks.NotificationPayload | app/webhooks.py:398-417 | the body a webhook receives is PayloadFor of its sender with the count title and the urgency colour, and it always prepares |
| Webhooks.NotifyHook | app/webhooks.py:396-426 | one webhook is posted NotificationPayload of its sender; it succeeds exactly when its post is accepted; only that stamps last_used |
| Webhooks.NotifyAll | app/webhooks.py:395-427 | every webhook, in order, is posted NotificationPayload of its own sender; the count of accepted posts; exactly those webhooks stamped |
| Webhooks.SendAllNotifications | app/webhooks.py:316-433 | nothing is sent without subscriptions; otherwise webhook i is posted its sender's payload titled NotificationTitle(number of subscriptions) and coloured UrgencyColor(fewest days left), the count of accepted posts is returned, and exactly those webhooks are stamped |

## Left out

- Network I/O: the UniRateAPI request and the webhook posts are inputs (`FetchOutcome`, the `accepted` flags); timeouts, HTTP status codes and response bodies are folded into them.
- The ORM and Flask context: the `ExchangeRate` model is not part of this model and its `get_latest_rates`/`save_rates` are abstracted as the (date, base) map of `RateCache.RateStore`; a failing `save_rates` (which makes the source fall back) is not modelled; `db.session.commit`, `app.app_context()` and logging are left out.
- Wall-clock reads become parameters: "today" in the expiry rules and the rate cache, and one `Clock` reading for payload timestamps and `last_used` (the source reads the clock separately for each).
- Float arithmetic is modelled with exact reals, and rates are numbers throughout, so rounding is not modelled and neither is a non-numeric rate value. Such a value in a response or a cached snapshot raises `TypeError`. `convert_amount` catches it during the conversion itself (app/currency.py:139). The rebase loop of `_get_fallback_rates` (app/currency.py:94) does not catch it, so it propagates out of `get_exchange_rates` (app/currency.py:28, 63) and `convert_amount` (app/currency.py:116).
- Dates are unbounded day numbers. The bounded range of Python's `date`, and the `OverflowError` that `date.today() + timedelta(days=days_ahead)` raises past it (app/models.py:78-79), are not modelled.
- Message text: the notification body (`:.2f` formatting, emoji, per-subscription lines, the total expiring cost) and the test message of `send_test_webhook` are not built; the body is a parameter of `Webhooks.SendAllNotifications`.
- `send_test_webhook`, `get_auth_headers` and the base `WebhookSender.prepare_payload` (never selected by the factory) are not modelled.
- The Discord branch for an integer colour is not modelled: colours are strings throughout.
- `Text.Lower` maps only ASCII letters; `Text.ParseHex` reads ASCII hex digits only (no other Unicode digits).
- The outer `except Exception` of `send_all_webhook_notifications` (returning 0 when the database query or cost conversion fails) is not modelled.
- Editing a webhook: its type, name and URL are `const` fields of `Webhooks.Webhook`, set when it is built, because sending never changes them; the routes that edit a webhook are not modelled.
- Password hashing, e-mail, routes, forms, configuration and migrations are outside the core.
- Currency.GetSupportedCurrencies: does not state that the 32 codes are pairwise distinct (proving it over the literal list is too costly).
