# Weather app: cache, accounts and pages

This project models the core of a small weather application. It has a Django
backend and a Next.js frontend.

- **Weather endpoint and cache tables** (`WeatherCache`). A request for a
  city's weather first purges the expired cache rows. It then serves a live
  cached record if one exists. Otherwise it geocodes the city, fetches a
  forecast, caches it for one hour, and writes a history row and a
  request-log row. Two admin endpoints delete the whole cache or one city's
  rows. The three tables are sequences in primary-key order. Each of the
  three reads of the wall clock is a parameter. The geocoder's answer and
  the forecast service's answer are parameters too.
- **User manager** (`Accounts`). `create_user` checks its fields in a fixed
  order, normalises the email, hashes the password and defaults both unit
  preferences to 0. The email column is unique. `create_superuser` defaults
  the staff and superuser flags to true and rejects any other value.
  E-mail normalisation and password hashing are opaque function parameters
  of the store.
- **Browser pages** (`Client`, `Login`, `Register`, `Profile`, `Dashboard`,
  `AdminDashboard`). A `Browser` object holds the stored token, and also
  records the pages navigated to, the alerts shown and the requests sent.
  Each page handler is a method that takes the server's reply as a
  parameter and updates the page state and the browser. JavaScript
  semantics are written out where they matter:
  - an empty string is falsy, so `x || fallback` is `OrElse`;
  - `Array.prototype.slice` resolves negative indices, so page 0 is empty;
  - an index past the end of an array is `undefined`;
  - `alert(undefined)` shows the text "undefined".
- **Admin dashboard reductions** (`AdminDashboard`). These are the
  pagination of the request log, the per-city frequency map and the two
  unit-preference tallies.

## Model

| member | source | states |
|---|---|---|
| WeatherCache.PurgeExpired | weather_app/weather_api/views.py:16-17 | the purge keeps exactly the rows whose expiry is not before the instant, with their multiplicities, and never grows the table |
| WeatherCache.FirstLive | weather_app/weather_api/views.py:19-20 | the index found is the lowest whose row is for the city and expires after the instant; None means no such row exists |
| WeatherCache.Served | weather_app/weather_api/views.py:19-20 | a row is served iff some row for the city is live at the instant, and the served row is the first live row for the city in primary-key order |
| WeatherCache.WithoutCity | weather_app/weather_api/views.py:77-79 | after deleting one city's rows none of them remains, and every other city's rows remain with their multiplicities |
| WeatherCache.PurgeKeepsServedEntry | weather_app/weather_api/views.py:16-20 | purging at one instant does not change which row a lookup at the same or a later instant serves |
| WeatherCache.ExpiringNowSurvivesButIsNotServed | weather_app/weather_api/views.py:17-20 | a row expiring exactly at the instant survives the `lt` purge but is not served by the `gt` lookup |
| WeatherCache.CacheHitAddsNothing | weather_app/weather_api/views.py:19-24 | on a hit the reply is a 200 with a live row of the original table, and only the purge changes the tables; when the purge reads the clock first, the reply is the first live row of the table before the request |
| WeatherCache.CityNotFoundAddsNothing | weather_app/weather_api/views.py:31-32 | after a miss, the reply is 404 'City not found' iff the geocoder answer is empty or the name is empty or longer than 99 characters, and then no row is added |
| WeatherCache.MissingCurrentAddsNothing | weather_app/weather_api/views.py:41-42 | a forecast without `current` gives 404 and nothing is inserted |
| WeatherCache.FetchAddsOneOfEach | weather_app/weather_api/views.py:34-66 | a fetch happens iff there is a miss, a valid name, some geocoder result and a complete forecast; it then appends one cache row (last geocoder result, expiry one hour after the insert instant), one history row and one 200 log row |
| WeatherCache.RowsAddedOnlyOnFetch | weather_app/weather_api/views.py:16-66 | without a fetch, expired rows are gone and history and logs are unchanged; a fetch adds one row to each |
| WeatherCache.WithoutCityKeepsOtherLookups | weather_app/weather_api/views.py:77-79 | deleting one city's rows does not change what any other city is served at any instant |
| WeatherCache.GetWeatherSpec | weather_app/weather_api/views.py:11-69 | the request as written: a cached reply is a live row of the original table; a fetched reply echoes a forecast that has both `current` and `hourly` and appends after the purged cache; any other outcome leaves only the purge |
| WeatherCache.GetWeatherIntended | weather_app/weather_api/views.py:11-69 | same table effect and same status as the code; every 200 reply is a cache record for the requested city that the tables hold: on a hit it is the code's own reply (the first live row, as `CacheHitAddsNothing` states), and on a fetch it is the row just inserted (the one `FetchAddsOneOfEach` describes) |
| WeatherCache.FreshFetchIsNotACacheRecord | weather_app/weather_api/views.py:68-69 | as written, the first request for Tokyo on an empty cache answers 200 with something that is not a cache record |
| WeatherCache.WeatherDb.GetWeather | weather_app/weather_api/views.py:11-69 | the new tables and the reply are those of `GetWeatherIntended` on the old tables, so a hit answers the first live row and a fetch answers the row it has just inserted |
| WeatherCache.WeatherDb.DeleteAllCache | weather_app/weather_api/views.py:71-75 | the cache table is emptied and history and logs are unchanged |
| WeatherCache.WeatherDb.DeleteCityCache | weather_app/weather_api/views.py:77-81 | the cache table loses exactly that city's rows and history and logs are unchanged |
| Accounts.UserStore.CreateUser | weather_app/weather_api/models.py:7-23 | the users and the outcome are those of `CreateUserSpec`, and email uniqueness is kept |
| Accounts.UserStore.CreateSuperuser | weather_app/weather_api/models.py:25-37 | the users and the outcome are those of `CreateSuperuserSpec`, and email uniqueness is kept |
| Accounts.ValidationOrder | weather_app/weather_api/models.py:8-13 | a missing email is reported before a missing display name, which is reported before a missing password, and a rejection adds no user |
| Accounts.CreateUserAddsOne | weather_app/weather_api/models.py:7-23 | creation succeeds iff all three fields are present and the normalised email is free; it then appends one user with the normalised email, the hashed password and the given units (0 when absent) |
| Accounts.CreateKeepsEmailsUnique | weather_app/weather_api/models.py:41 | both creation paths keep emails unique |
| Accounts.SuperuserFlags | weather_app/weather_api/models.py:29-35 | a created superuser is staff and superuser; an explicit false staff flag, else an explicit false superuser flag, is rejected with that error and adds no user |
| Accounts.SuperuserNeedsPassword | weather_app/weather_api/models.py:25-37 | `create_superuser` without a password fails with create_user's missing-password error and adds no user |
| AdminDashboard.TotalPages | weather_front/app/admin/page.tsx:138 | the page count is zero iff there are no logs, and is the least count of 10-log pages that covers all logs |
| AdminDashboard.SliceIndex | weather_front/app/admin/page.tsx:139-142 | a slice bound always resolves to a position within the array |
| AdminDashboard.PageOf | weather_front/app/admin/page.tsx:139-142 | a page holds at most 10 logs, all taken from the log list |
| AdminDashboard.PrevPage | weather_front/app/admin/page.tsx:223 | Previous goes back one page from above 1 and gives exactly 1 from page 1 or below |
| AdminDashboard.NextPage | weather_front/app/admin/page.tsx:233 | Next goes forward one page below the page count and gives exactly the page count from it or above |
| AdminDashboard.NextWithNoLogsLandsOnEmptyPage | weather_front/app/admin/page.tsx:138-142 | with no logs, Next from page 1 lands on page 0, which shows nothing, and Previous from there returns to page 1 |
| AdminDashboard.PageContents | weather_front/app/admin/page.tsx:139-142 | page p holds logs (p-1)*10 up to min(p*10, len) in order, a page past the end is empty, and no page holds more than 10 |
| AdminDashboard.PageZeroIsEmpty | weather_front/app/admin/page.tsx:139-142 | page 0 shows nothing |
| AdminDashboard.PagesArePrefix | weather_front/app/admin/page.tsx:138-142 | pages 1..k read in order are the first min(10k, len) logs |
| AdminDashboard.PagesPartitionLogs | weather_front/app/admin/page.tsx:138-142 | pages 1..totalPages read in order give back every log exactly once, and none of them is empty |
| AdminDashboard.Cities | weather_front/app/admin/page.tsx:145 | the city list has one entry per log, in order |
| AdminDashboard.Frequencies | weather_front/app/admin/page.tsx:146-149 | the `reduce` accumulator: every key it holds has a count of at least 1 |
| AdminDashboard.FrequenciesCount | weather_front/app/admin/page.tsx:146-149 | the accumulator's keys are the cities seen, each maps to its number of occurrences, and the counts sum to the number of cities |
| AdminDashboard.CityFrequency | weather_front/app/admin/page.tsx:145-149 | the loop yields one key per city in the logs, each counting that city's occurrences, with counts summing to the number of logs |
| AdminDashboard.Units | weather_front/app/admin/page.tsx:151-165 | one unit value per user, read from the chosen preference |
| AdminDashboard.BucketsCoverUnits | weather_front/app/admin/page.tsx:151-165 | the 0s, the 1s and the other values together are all the units, and there are no other values iff every unit is 0 or 1 |
| AdminDashboard.PreferenceTally | weather_front/app/admin/page.tsx:151-165 | bucket i counts the users whose unit is i; buckets plus strays are all users, and there are no strays iff every unit is 0 or 1 |
| AdminDashboard.AdminPage.CheckRole | weather_front/app/admin/page.tsx:41-65 | without a token the page goes to login; with one it asks for the role and becomes admin only on the role "admin", otherwise it goes to the dashboard, or to login on an error |
| AdminDashboard.AdminPage.LoadLogs | weather_front/app/admin/page.tsx:68-85 | logs are asked for only by an admin with a token; a reply replaces the logs and an error sets the logs error |
| AdminDashboard.AdminPage.LoadUsers | weather_front/app/admin/page.tsx:88-105 | users are asked for only by an admin with a token; a reply replaces the users and an error sets the users error |
| AdminDashboard.AdminPage.ClearCache | weather_front/app/admin/page.tsx:108-120 | a handler the page defines but never calls: without a token nothing happens; otherwise the delete is sent and success alerts while failure sets the error |
| AdminDashboard.AdminPage.ClearCityCache | weather_front/app/admin/page.tsx:123-135 | a handler the page defines but never calls: the same for one city's cache, with the city in the request and in the alert |
| AdminDashboard.AdminPage.Previous | weather_front/app/admin/page.tsx:222-224 | disabled on page 1; otherwise the page becomes `PrevPage` of the old page |
| AdminDashboard.AdminPage.Next | weather_front/app/admin/page.tsx:232-234 | disabled on the last page; otherwise the page becomes `NextPage` of the old page |
| Login.Submit | weather_front/app/login/page.tsx:23-42 | an incomplete form sends nothing; otherwise the email is sent as `username`, and only a non-empty token is stored and opens the dashboard; every other outcome alerts the server message or a default text |
| Register.Utf16Length | weather_front/app/register/page.tsx:77 | JavaScript's string length lies between the number of characters and twice that |
| Register.AstralLength | weather_front/app/register/page.tsx:77 | characters outside the Basic Multilingual Plane count two code units each |
| Register.FieldErrors | weather_front/app/register/page.tsx:66-104 | each field is flagged iff its rule fails: email, confirmation and display name are required, and the password needs at least 8 UTF-16 code units |
| Register.PasswordLengthInCharacters | weather_front/app/register/page.tsx:77 | 8 characters always pass the length rule, fewer than 4 never do, and 4 emoji already pass |
| Register.Submit | weather_front/app/register/page.tsx:32-58 | a request, without the confirmation, is sent iff the fields are valid and the passwords match; only an accepted registration redirects to login; each outcome alerts its message |
| Profile.UpdatePayloadOf | weather_front/app/profile/page.tsx:63-68 | the update leaves the password out iff it is empty and always carries the name and both units |
| Profile.ProfilePage.Load | weather_front/app/profile/page.tsx:19-42 | without a token the page goes to login and asks nothing; a reply fills the name and units; an "Invalid token." rejection goes to login and keeps the token |
| Profile.ProfilePage.Submit | weather_front/app/profile/page.tsx:45-83 | a mismatch is reported before a missing token and neither sends anything; otherwise the PATCH is sent and the message is the success text, the server's error, or the default text |
| Profile.ProfilePage.DeleteAccount | weather_front/app/profile/page.tsx:86-107 | nothing happens unless confirmed; the token is removed and the page goes to login only after the server accepted the deletion |
| Dashboard.ForecastRows | weather_front/app/dashboard/page.tsx:111-117 | one row per time entry; row i shows element i of each series, or undefined past that series' end |
| Dashboard.AlignedRowsAreComplete | weather_front/app/dashboard/page.tsx:111-117 | when the series are as long as the time axis, every row is complete |
| Dashboard.DashboardPage.PanelVisible | weather_front/app/dashboard/page.tsx:86 | the weather panel is shown iff there is data and the error is absent or the empty string |
| Dashboard.DashboardPage.BeginFetch | weather_front/app/dashboard/page.tsx:33-50 | without a token the error is set, loading ends, nothing is sent and no panel is shown; otherwise loading starts and Tokyo's weather is requested |
| Dashboard.DashboardPage.CompleteFetch | weather_front/app/dashboard/page.tsx:52-57 | a reply stores the data, an error stores the server message or the default text and hides the panel, and loading ends either way |

## Left out

- The HTTP calls to the geocoder and forecast services are parameters (their answers). The request URLs are represented by the coordinates they are built from.
- The geocoder's answer is taken to be a list of coordinate pairs. A JSON object answer, or a result without `lat`/`lon`, raises a KeyError in the view and is not modelled. The same goes for a `current` object that lacks one of its three fields.
- The fixed acting user (`CustomUser.objects.get(email=...)`) is the constant `ActingUser`. The 500 error when that account does not exist is not modelled.
- The `auto_now_add` timestamps (`cached_at`, `search_time`, `request_time`) are not modelled.
- Temperatures and wind speeds are carried as `real`; floating-point rounding is not modelled.
- `normalize_email` and `set_password` are opaque functions given to the user store. `WeatherCache.WeatherDb` and `Accounts.UserStore` model the tables, not the database engine. Transactions and concurrent requests are not modelled.
- Accounts.UserStore.CreateUser: a staff or superuser flag is a `bool` or absent. Other Python values in `**extra_fields` are not modelled.
- The serializers, `admin.py`, `urls.py`, the other API views, the settings and home pages, and the frontend layout are not part of this model.
- React effect scheduling, re-renders and the intermediate render while a request is awaited are not modelled. Each handler runs to completion with its reply given. The dashboard fetch is the exception: it is split at its `await` into `BeginFetch` and `CompleteFetch`.
- Form fields are page fields that the input handlers assign directly. The browser's e-mail format check on `type="email"` inputs is not modelled.
- AdminDashboard.CityFrequency: a city named like an `Object.prototype` member (such as `constructor` or `__proto__`) behaves differently in a JavaScript object. The model treats every name as an ordinary key.
- AdminDashboard.PreferenceTally: a unit outside {0, 1} makes the page write `NaN` at that index of the array. The model counts such units as strays instead.
- Chart rendering, the log table's markup and the time formatting (`toLocaleString`) are not modelled.
- The code has no unit conversion, search-history handling, latest-response-wins ordering or token clearing on an authorization failure, so none is modelled. In particular, the profile page keeps the token after an "Invalid token." rejection.

## Findings

| source | as written | input that shows it | evidently intended | confidence | as-written member | corrected member |
|---|---|---|---|---|---|---|
| weather_app/weather_api/views.py:68-69 | on a cache miss the endpoint answers with the forecast service's raw JSON, which has no `city_name`, `forecast_data`, `cached_at` or `expiry_time`; a hit answers with the serialized cache record that the dashboard reads (weather_front/app/dashboard/page.tsx:111 reads `forecast_data.time`) | the first request for Tokyo on an empty cache, with a complete forecast answer | answer with the record just cached, as a hit does, so every 200 reply has the same shape | high (not executed) | WeatherCache.FreshFetchIsNotACacheRecord | WeatherCache.GetWeatherIntended |

`WeatherCache.WeatherDb.GetWeather` follows the corrected reply. Its effect on the tables is the same as the code's, since the correction changes only the reply. The dashboard model takes a success reply to be such a record.
