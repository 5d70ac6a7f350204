# Traficare backoffice, modelled in Dafny

This project models the logic core of the Traficare backoffice, the admin
dashboard of a first-aid education platform:

- the analytics aggregation (`getAnalyticsStats`): unique visitors, the
  ranked top pages, the zero-filled daily series, device and referrer
  breakdowns, the synthetic fallback when the events table cannot be
  reached, and the empty result when something throws;
- the guide server actions: `toEmbed`, the normalisation of the submitted
  form, and the effect of create, update and delete on the `guides` table;
- the authentication context as a state machine over `user`, `loading` and
  `error`;
- the change-password dialog: its ordered validation chain and its submit
  and close handlers;
- the students page figures, the bar chart's scale, axis and window, and
  the dashboard's line-chart window, scale and refetch rule.

Database queries, HTTP responses, the auth provider and the URL parser are
not called: their answers are parameters of the operations that use them.
Stateful code (the auth context, the dialog, the chart's hover state, the
dashboard panel, the guides table) is modelled as classes whose methods
change their fields. Each method's `ensures` gives the new state in terms of
the old one. The reductions (tallies, daily buckets, the students' sums) are
methods with loops. Each of those is proved equal to a specification
function, and the functions' properties are proved as lemmas. The sample
generator is also a method with loops, but it is proved only to keep its
counts within the source's ranges (see `Analytics.GenerateSample` under
"## Left out"), not equal to a function.

Files: `wrappers.dfy` (Option), `js_builtins.dfy` (the JavaScript string and
array built-ins the source relies on), `tally.dfy` (counting into a
dictionary, `Object.entries`, stable descending sort, top N),
`analytics.dfy`, `guides.dfy`, `auth.dfy`, `password_modal.dfy`,
`students.dfy`, `traffic_chart.dfy`, `dashboard.dfy`.

The `|| "Direct"` fallback (src/lib/analytics.ts:207) is meant to count
empty referrers as "Direct", but the referrer query filters on `referrer <> ''`
(src/lib/analytics.ts:204), and that filter also drops null referrers. So
the `|| "Direct"` fallback never fires for database rows, and only a stored
referrer that is literally "Direct" reaches that bucket. The model follows
the code: `Analytics.ReferrerRows` applies the filter before the keys are
computed, and `Analytics.FalsyReferrerIsDirect` states the fallback itself.

## Model

| member | source | states |
|---|---|---|
| JsBuiltins.Includes | src/lib/analytics.ts:184-186 | `includes` is true exactly when the needle occurs at some position of the string |
| JsBuiltins.ToLower | src/lib/analytics.ts:182 | lower-casing keeps the length and lower-cases every character pointwise |
| JsBuiltins.ToLowerIdempotent | src/lib/analytics.ts:182 | lower-casing twice is lower-casing once |
| JsBuiltins.Trim | src/app/guides/actions.ts:6-9 | the result is the input without its leading and trailing whitespace (the ECMAScript whitespace set): a middle slice whose ends are not whitespace, and only whitespace was cut |
| JsBuiltins.TrimIdempotent | src/app/guides/actions.ts:29-32 | trimming a trimmed value changes nothing |
| JsBuiltins.RemoveFirst | src/app/guides/actions.ts:49 | `replace("/", "")` leaves a string without "/" unchanged; otherwise the result is one shorter, and putting "/" back at the first-occurrence index, before which the result has none, gives the input |
| JsBuiltins.SliceFrom | src/components/TrafficChart.tsx:81 | `slice(start)`: a negative start keeps the last min(-start, length) elements, and a start of 0 keeps all; the result is always a suffix |
| Tally.Count | src/lib/analytics.ts:112-115 | the number of rows with a key is at most the number of rows, and is zero exactly when the key is absent |
| Tally.FirstSeen | src/lib/analytics.ts:112-115 | dictionary insertion order: distinct keys, each a key of the rows, and every row's key listed |
| Tally.FirstSeenOrder | src/lib/analytics.ts:117 | the keys appear in the order of their first row |
| Tally.CountInto | src/lib/analytics.ts:113 | `acc[k] = (acc[k] \|\| 0) + 1` adds the key with count 1, or raises its count by one, and leaves every other key as it was |
| Tally.FirstSeenSnoc | src/lib/analytics.ts:112-115 | a new key is appended to the insertion order, and a known key leaves it unchanged |
| Tally.CountStep | src/lib/analytics.ts:112-115 | counting one more row keeps the dictionary equal to the tally of the rows seen so far |
| Tally.CountByKey | src/lib/analytics.ts:112-115 | the reduce loop builds a dictionary whose keys are exactly the rows' keys, in first-seen order, each mapped to its exact count |
| Tally.CountByKeyEntries | src/lib/analytics.ts:117 | `Object.entries` of that dictionary is the tally of the rows |
| Tally.TalliedSum | src/lib/analytics.ts:181-191 | the counts of a tally add up to the number of rows |
| Tally.TalliedEntries | src/lib/analytics.ts:193-196 | a tally lists each key of the rows once, with a positive and exact count |
| Tally.SumCountsSnoc | src/app/students/page.tsx:51 | summing from the left, as `reduce` does, adds each entry's count |
| Tally.InsertDesc | src/lib/analytics.ts:118 | inserting an entry adds it to the multiset of entries |
| Tally.InsertDescOrdered | src/lib/analytics.ts:118 | insertion into a list in descending order keeps it descending |
| Tally.SortDesc | src/lib/analytics.ts:118 | the sort is a permutation into non-increasing count order |
| Tally.SortDescStable | src/lib/analytics.ts:118 | the sort is stable: entries with equal counts keep their input order |
| Tally.TopN | src/lib/analytics.ts:117-120 | sort then `slice(0, n)`: min(n, length) entries, non-increasing, each an input entry |
| Tally.TopNExcluded | src/lib/analytics.ts:117-120 | an entry left out counts no more than any entry kept |
| Tally.TopTallySize | src/lib/analytics.ts:117-120 | a top-n tally has min(n, number of distinct keys) entries |
| Tally.TopTallyExact | src/lib/analytics.ts:117-120 | a top-n tally lists distinct keys of the rows with their exact counts, in non-increasing order |
| Tally.TopTallyExcluded | src/lib/analytics.ts:117-120 | a key of the rows that is not listed has no more rows than any listed key |
| Tally.TopTallyTies | src/lib/analytics.ts:117-120 | listed keys with equal counts appear in the order their first rows appear |
| Analytics.SessionSetMembers | src/lib/analytics.ts:103 | the set of session ids holds exactly the ids of the rows |
| Analytics.UniqueVisitorsAtMostRows | src/lib/analytics.ts:103 | unique visitors never exceed the number of rows |
| Analytics.TopPagesFacts | src/lib/analytics.ts:112-120 | at most ten top pages with distinct paths, non-increasing exact counts, no unlisted path viewed more than a listed one, ties in first-seen order |
| Analytics.VisitorsAtMostViews | src/lib/analytics.ts:150-156 | a day never has more distinct sessions than rows |
| Analytics.QuietDay | src/lib/analytics.ts:144-147 | a day without rows has zero views and zero visitors |
| Analytics.DailySeriesShape | src/lib/analytics.ts:131-141 | the series has max(diffDays + 1, 0) entries, one per consecutive day from the start |
| Analytics.DailySeriesCounts | src/lib/analytics.ts:159-163 | every day of the series has visitors at most views, and a day without rows is zero |
| Analytics.DailySeriesIgnoresOutOfRange | src/lib/analytics.ts:150-156 | rows whose day is outside the range do not change the series |
| Analytics.AllDates | src/lib/analytics.ts:136-141 | `allDates` holds max(diffDays + 1, 0) consecutive days from the start |
| Analytics.ZeroBuckets | src/lib/analytics.ts:144-147 | one zero bucket per date, and no others |
| Analytics.FillStep | src/lib/analytics.ts:150-156 | counting one row into the bucket of its day, if it has one, keeps each bucket equal to the counts of the rows seen so far |
| Analytics.FillBuckets | src/lib/analytics.ts:150-156 | after the fill loop each bucket holds the views and the distinct sessions of its day, and rows outside the range are skipped |
| Analytics.BuildDailySeries | src/lib/analytics.ts:136-163 | the four loops (dates, zeroed buckets, filling, conversion) produce exactly the daily series |
| Analytics.ClassifyByMarkers | src/lib/analytics.ts:182-188 | Mobile exactly when "mobile", "android" or "iphone" occurs in the lower-cased user agent; otherwise Tablet exactly when "tablet" or "ipad" occurs; otherwise Desktop |
| Analytics.DeviceKeysNamed | src/lib/analytics.ts:183-188 | every row is bucketed under "Mobile", "Tablet" or "Desktop" |
| Analytics.DeviceStatsFacts | src/lib/analytics.ts:181-196 | device counts sum to the number of rows, and only device types that occur are listed, each once, with its exact count |
| Analytics.ReferrerRows | src/lib/analytics.ts:199-204 | the referrer query returns the rows with a non-empty referrer, in order and with repeats kept: appending a row appends it exactly when its referrer is non-empty |
| Analytics.ReferrerKeysSpec | src/lib/analytics.ts:206-211 | the keys are computed row by row, and the aggregation throws exactly when some referrer does not parse as a URL |
| Analytics.FalsyReferrerIsDirect | src/lib/analytics.ts:207 | a falsy referrer gets the key "Direct", and a listed "Direct" entry counts it |
| Analytics.ReferrerStatsFacts | src/lib/analytics.ts:213-216 | at most ten referrers with distinct keys and exact, non-increasing counts |
| Analytics.SampleCountsBounded | src/lib/analytics.ts:40-68 | every top-page, device and referrer count of a sample is at most its total page views |
| Analytics.ShareSum | src/lib/analytics.ts:46-68 | the fixed shares of each sample list add up to at most the total |
| Analytics.GenerateSample | src/lib/analytics.ts:19-69 | the sample has diffDays + 1 consecutive days with views in 1..24 and visitors between 1 and views, a total equal to the sum of daily views, unique visitors at most the total, the fixed path, device and referrer lists, and three recent activities |
| Analytics.GetAnalyticsStats | src/lib/analytics.ts:72-239 | an unreachable table gives a sample, any throw gives zero totals and empty lists, and otherwise each field is its aggregation of the rows |
| Analytics.UniqueVisitorsBound | src/lib/analytics.ts:219-220 | when the exact count covers the rows, unique visitors are at most total page views |
| Guides.SearchParam | src/app/guides/actions.ts:51 | `searchParams.get` is null exactly when no parameter has the name, and otherwise gives the value of the first parameter with that name |
| Guides.ToEmbed | src/app/guides/actions.ts:44-54 | any result is an embed URL, starting with the embed prefix |
| Guides.ToEmbedRecognises | src/app/guides/actions.ts:45-53 | a link is converted exactly when it is non-empty, parses, and its hostname contains "youtu.be" or "youtube.com" |
| Guides.ShortLinkId | src/app/guides/actions.ts:48-49 | a short link's video id is its path with the first "/" removed, and this check comes first |
| Guides.ShortLinkPathId | src/app/guides/actions.ts:48-49 | `youtu.be/ABC123` embeds exactly `ABC123` |
| Guides.WatchLinkId | src/app/guides/actions.ts:50-51 | a youtube.com link embeds its first `v` parameter, or the literal "null" when there is none |
| Guides.TrimmedField | src/app/guides/actions.ts:6-9 | a missing field stays undefined, and a present one comes back trimmed: trimming it again leaves it unchanged |
| Guides.PayloadNormalised | src/app/guides/actions.ts:27-35 | text fields are trimmed, the category is kept as submitted, published is true exactly when the field is "on", and the embed URL comes from the trimmed link |
| Guides.FormOfFields | src/app/guides/actions.ts:27-34 | a payload written back as a form gives back each of its fields |
| Guides.ResubmitIsStable | src/app/guides/actions.ts:27-35 | resubmitting a payload's own values yields the same payload |
| Guides.Updated | src/app/guides/actions.ts:27-36 | an update writes category, published and embed URL, keeps the creation time, and keeps a text column whose field was missing |
| Guides.UpdateRows | src/app/guides/actions.ts:36 | only the row with the submitted id changes; every other row and the set of ids stay the same |
| Guides.DeleteRows | src/app/guides/actions.ts:41 | exactly the row with the submitted id is removed, and the rest are unchanged |
| Guides.UpdateIdempotent | src/app/guides/actions.ts:36 | applying the same update twice equals applying it once |
| Guides.GuidesTable.Create | src/app/guides/actions.ts:4-23 | an accepted insert adds one row built from the normalised form under the fresh id, and a rejected one changes nothing |
| Guides.GuidesTable.Update | src/app/guides/actions.ts:25-37 | an accepted update applies the normalised payload to the row named by the form's id |
| Guides.GuidesTable.Delete | src/app/guides/actions.ts:39-42 | an accepted delete removes the row named by the form's id |
| Auth.UserOf | src/contexts/AuthContext.tsx:26-31 | the user copies the session user's fields, with a missing or empty sign-in time as null |
| Auth.PasswordChange | src/contexts/AuthContext.tsx:104-142 | no email gives "User not found" with no provider call; otherwise the current password is checked first, the update is only sent after that check succeeds and is sent whenever it does (a failed or thrown check makes exactly the one verification call), and with an email the returned error is also the error state |
| Auth.UpdateNeedsVerification | src/contexts/AuthContext.tsx:113-127 | an update call implies a user email and a successful verification, with exactly the two calls made |
| Auth.AuthProvider.constructor | src/contexts/AuthContext.tsx:16-18 | user null, loading true, error null |
| Auth.AuthProvider.LoadInitialSession | src/contexts/AuthContext.tsx:22-39 | a session user signs in, no session keeps the user, an exception sets "Failed to load session", and loading ends false |
| Auth.AuthProvider.OnAuthStateChange | src/contexts/AuthContext.tsx:44-61 | the session decides the user (null without one), and loading and error are cleared |
| Auth.AuthProvider.SignIn | src/contexts/AuthContext.tsx:66-89 | the user is untouched, the returned error is the provider's message or "Login failed" and is also the error state, and loading ends false |
| Auth.AuthProvider.SignOut | src/contexts/AuthContext.tsx:91-102 | success clears the user, an exception keeps it and sets "Failed to sign out", and loading ends false |
| Auth.AuthProvider.UpdatePassword | src/contexts/AuthContext.tsx:104-142 | the returned error, provider calls and error state are those of the guarded sequence; the user is untouched and loading ends false |
| PasswordModal.Validate | src/components/ChangePasswordModal.tsx:26-44 | each rejection is reported exactly when its check fails and all earlier checks pass; the submission passes exactly when no field is empty, new equals confirm, new has at least 6 characters and differs from current |
| PasswordModal.Feedback | src/components/ChangePasswordModal.tsx:26-58 | success, with "Password berhasil diubah!", exactly when the checks pass and the change reports no error; otherwise the first rejection, the error message (or "Gagal mengubah password" when it is empty), or the exception message |
| PasswordModal.FeedbackNeverBlank | src/components/ChangePasswordModal.tsx:50-58 | every toast has a non-empty message |
| PasswordModal.ChangePasswordModal.constructor | src/components/ChangePasswordModal.tsx:16-19 | three empty fields, not loading |
| PasswordModal.ChangePasswordModal.HandleClose | src/components/ChangePasswordModal.tsx:64-69 | the three fields are cleared and the dialog closes |
| PasswordModal.ChangePasswordModal.HandleSubmit | src/components/ChangePasswordModal.tsx:22-62 | the change is requested exactly when all checks pass; success clears the fields and closes, any failure keeps them; loading is false after an attempt |
| Students.Schools | src/app/students/page.tsx:64 | one school per student, in order |
| Students.DistinctCardinality | src/app/students/page.tsx:64 | a list without repeats has as many elements as its set |
| Students.DistinctSchools | src/app/students/page.tsx:64 | the size of the set of schools, at most the number of students, and 0 for an absent or empty list |
| Students.SumValues | src/app/students/page.tsx:51 | the left-to-right sum of the dictionary values is the sum of their counts |
| Students.Summarize | src/app/students/page.tsx:15-64 | counts map each student nis of the view rows to its exact number of rows, the total access equals the number of view rows, and the headline counts are as above |
| TrafficChart.MaxValue | src/components/TrafficChart.tsx:36 | at least 1, at least every day's views and visitors, and equal to one of them unless it is 1 |
| TrafficChart.StepValue | src/components/TrafficChart.tsx:37-38 | the least step whose four multiples reach the maximum (`ceil(max / 4)`) |
| TrafficChart.YAxisLabels | src/components/TrafficChart.tsx:41 | five labels |
| TrafficChart.AxisLabels | src/components/TrafficChart.tsx:37-41 | the labels are [4s, 3s, 2s, s, 0]: strictly descending, ending at 0, with the top at least the maximum |
| TrafficChart.ChartFitsAxis | src/components/TrafficChart.tsx:36-41 | every drawn value lies below the top label |
| TrafficChart.BarWindow | src/components/TrafficChart.tsx:81 | bars for the last min(14, length) days, in their original order |
| TrafficChart.Render | src/components/TrafficChart.tsx:19-41 | a placeholder exactly for absent or empty data; otherwise the scale, labels and a non-empty window of at most 14 bars |
| TrafficChart.TrafficChartView.constructor | src/components/TrafficChart.tsx:17 | nothing is hovered |
| TrafficChart.TrafficChartView.MouseEnter | src/components/TrafficChart.tsx:90 | the entered bar becomes the only highlighted one, inside the drawn window |
| TrafficChart.TrafficChartView.MouseLeave | src/components/TrafficChart.tsx:91 | nothing is hovered |
| TrafficChart.TrafficChartView.Rerender | src/components/TrafficChart.tsx:17 | new data keeps the hover state, which stays inside the window unless the window shrinks |
| Dashboard.DisplayData | src/components/DashboardClient.tsx:227 | the last min(timespan, 90) days, capped by the data length (all days for 0), as a suffix, non-empty for non-empty data |
| Dashboard.MaxViews | src/components/DashboardClient.tsx:228 | at least 1, at least every view count of the window, and equal to one of them unless it is 1 |
| Dashboard.MinViews | src/components/DashboardClient.tsx:229 | at most every view count of the window, and equal to one of them |
| Dashboard.MinAtMostMax | src/components/DashboardClient.tsx:228-229 | the bottom of the scale is at most its top |
| Dashboard.OptionWindow | src/components/DashboardClient.tsx:104-107 | each period option parses to its number of days, and the window shows that many days or all there are |
| Dashboard.TrendPanel | src/components/DashboardClient.tsx:88-229 | a skeleton while loading; the no-traffic placeholder for an error body or empty series; otherwise the display window with every view between min and max |
| Dashboard.DashboardPanel.constructor | src/components/DashboardClient.tsx:28-30 | the initial stats, period "30", not loading, nothing fetched on mount |
| Dashboard.DashboardPanel.FetchAnalytics | src/components/DashboardClient.tsx:32-43 | one request for the period; any body replaces the stats, a rejection keeps them; loading ends false |
| Dashboard.DashboardPanel.SelectTimespan | src/components/DashboardClient.tsx:45-49 | a fetch happens exactly when the period changes to a value other than "30"; otherwise the stats, requests and loading flag are kept |

## Left out

- Database queries, HTTP requests, the auth provider and the URL parser are parameters. Their answers (rows, counts, bodies, errors, hostnames) are inputs, and all five page-view queries of `getAnalyticsStats` are taken to see the same rows.
- Dates are whole day numbers. `diffDays` is a parameter, and the `Math.ceil` of a millisecond difference, `toISOString` day keys and local-time `setDate` are not modelled. The day of an event is given with the row.
- Timestamps of the sample activities are integers of milliseconds, not ISO strings.
- `Math.random()` draws are nondeterministic choices within the ranges the source maps them to. The spike probability is not modelled.
- Analytics.GenerateSample: states the ranges, the total and the listed keys, and bounds each list's sum by the total. It does not state each listed count's exact share. Shares are integer percentages rounded down, and a floating-point product that lands just below an integer is not modelled.
- `toLowerCase` is modelled on ASCII letters only.
- String lengths count characters, not UTF-16 code units. This matters for the 6-character password minimum on characters outside the Basic Multilingual Plane.
- `Object.entries` lists integer-like keys first in JavaScript. The model keeps insertion order for every key. Paths start with "/" and device names are words, so integer-like keys could only come from unusual referrer hostnames.
- The tallies count into plain `{}` objects, where the key `__proto__` is never stored and the key `constructor` starts from `Object`'s constructor function, not 0. The model counts both like any other key. Only unusual referrer hostnames could hit this.
- `parseInt` is modelled for the selector's digit strings. Leading whitespace and signs are not modelled.
- Session ids are plain strings: a null `session_id` is not distinguished from an empty one, so `new Set(...)` in the model would merge the two. Session ids are taken to be non-null.
- A null `user_agent` would throw in `toLowerCase` and end in the empty result. User agents are taken to be non-null strings.
- The joined student names of `recentActivity` and the exact-count query are passed through as inputs.
- Bar heights (`getBarHeight`), the SVG path of the line chart, and its rounded intermediate labels are floating-point layout and are not modelled. Neither are the stat cards, the device percentages, or the top-pages panel of the dashboard.
- Toasts are returned values, and console logging is omitted.
- Each auth and dialog operation runs to completion as one step. Interleaved asynchronous calls, React state batching and stale closures are not modelled. The subscription clean-up and `useAuth` outside a provider are not modelled either.
- Guides.GuidesTable.Create: the store's id and creation time are inputs, and whether the store carried the write out is a flag, because the actions ignore the store's answer. Column constraints are not modelled.
- A URL that parses is given as an already-split record of hostname, path and query parameters. Percent-decoding is the parser's concern.
