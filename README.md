# timeflies-app client core in Dafny

This project models the client-side core of the timeflies calendar app:

- the Pinia stores for toasts, auth, weather, calendar, settings and events;
- the token refresh composable;
- the router's authentication guard.

Every store whose refs its actions update in place is a Dafny `class` with those refs as fields. The browser's `localStorage` is one shared `Storage.LocalStorage` object whose `entries` map the stores read and write. The toast list is a `Toasts.ToastStore` that the weather and event stores push onto.

The auth, weather and event stores and the refresh composable each have a `View()` of their state. The view includes the other objects the class changes: the toast list, the auth store and localStorage. Each of their methods that moves the whole state has a pure transition function (`...Spec`) on views, and ensures `View() == XSpec(old(View()), ...)`. Some helpers state their effect directly: `WeatherStore.CacheWeather` (the one storage entry it writes), `TokenRefresher.GetNextRefreshDelay` (its result and storage, against `RefreshDelay` and `RecordStart`), and `TokenRefresher.SetTimeout`/`ClearTimeout` (their fields one by one). The toast, calendar and settings stores also state their new fields directly in each method's `ensures`. The properties the app relies on are stated in the `ensures` of these transition functions and in lemmas about them.

Things outside the program become parameters:

- Network requests are replaced by how they ended, an `Outcome`. It is `Ok(payload)` for an ok response, `NotOk(message)` for a non-ok one, and `Threw(error)` when the request or its body parsing threw. In `Auth`, `Threw` means only that `fetch` itself rejected, before `loading` is reset.
- The clock (`Date.now()`) is a `now` parameter.
- Random ids (toast ids, `crypto.randomUUID`) are id parameters.
- `jwtDecode` and the ISO date parser are function parameters.
- `JSON.stringify`/`JSON.parse` of a record is a `Codec`. Its round trip is assumed only where a lemma says so: for all settings records through the `Faithful` precondition, and for the one list of forecasts concerned in `Weather.FallbackRestoresLastFetch`.

The browser's timer table is modelled explicitly. In `TokenRefresh`, `pending` maps each armed timeout id to its delay, and `nextId` is the next id. So "no timer leaks" is an invariant every transition is proved to preserve (`Consistent`). `setTimeout`'s delay goes through the Web IDL `long` conversion: NaN becomes 0, the value wraps modulo 2^32, and a negative result is clamped to 0.

JavaScript truthiness of `string | null` is `Common.Truthy`: null and `""` are falsy. `parseInt` of a stored timestamp is `Numeric.ParseInt`: an optional sign followed by the leading run of decimal digits, and `None` (NaN) when there are no digits. `Number.prototype.toString` of a timestamp is `Numeric.NatToString`. The two round-trip.

Some behaviour of the code is worth stating plainly:

- The auth store keeps a single token, in state and under localStorage key `'token'`. It has no `refreshAccessToken` action, although the refresh composable calls one.
- The event and weather stores read `authStore.accessToken`, which does not exist. That operand of `||` is always undefined, so their token is the localStorage entry `'accessToken'`. None of the files modelled writes that entry; auth.ts writes only `'token'` (src/stores/auth.ts:35, 59). If nothing else writes it, `fetchEvents` and `fetchWeather` always take their no-token branch, and `fetchEvents` then logs the user out. The model keeps the entry as part of the storage state, so the other branches describe storage where the entry is present.
- For the same reason, the refresh composable's `auth.accessToken` check is always false as written. `onMounted` never starts the cycle (src/composables/useTokenRefresh.ts:74), and a callback never refreshes (line 44). The model makes the check a `hasToken` parameter, and whether the refresh succeeded a `refreshOk` parameter. The `hasToken = true` branches (`MountSpec` with a token, `RefreshRearmsFullInterval`) describe an auth store that has that field.
- A token that fails to decode after login leaves the token stored. Only the error propagates.
- When the login or sign-up request itself throws, `loading` stays `true`, because the reset comes after the `await`.

## Model

| member | source | states |
|---|---|---|
| Toasts.WithoutId | src/stores/toast.ts:20-22 | The filtered list is never longer than the old one. |
| Toasts.WithoutIdMembers | src/stores/toast.ts:20-22 | The filtered list holds exactly the toasts of the old list whose id differs from the removed one. |
| Toasts.WithoutIdAppend | src/stores/toast.ts:20-22 | Removing by id distributes over concatenation of toast lists. |
| Toasts.WithoutAbsentId | src/stores/toast.ts:20-22 | Removing an id no toast carries leaves the list unchanged. |
| Toasts.WithoutIdIdempotent | src/stores/toast.ts:20-22 | Removing the same id twice is the same as removing it once. |
| Toasts.AddThenRemove | src/stores/toast.ts:13-22 | Adding a toast with a fresh id and then removing that id restores the list. |
| Toasts.ToastStore.constructor | src/stores/toast.ts:11 | A new toast store has no toasts. |
| Toasts.ToastStore.AddToast | src/stores/toast.ts:13-17 | `addToast` appends exactly one toast with the given id, type (default info), timeout (default 10000) and message. |
| Toasts.ToastStore.RemoveToast | src/stores/toast.ts:20-22 | `removeToast` leaves the filtered list, in which no toast carries the removed id. |
| Numeric.NatToString | src/composables/useTokenRefresh.ts:21 | A timestamp's decimal form is a non-empty digit string with no leading zero unless the number is 0. |
| Numeric.ParseInt | src/composables/useTokenRefresh.ts:25 | `parseInt` gives NaN (None) for an empty string and for one starting with neither a digit nor a sign. |
| Numeric.ParseIntOfNatToString | src/composables/useTokenRefresh.ts:21-25 | Parsing a timestamp the app wrote with `toString()` gives back that timestamp. |
| Common.AddMillis | src/stores/calendar.ts:29 | `new Date(t + delta)` is the shifted time within the ±8.64e15 ms range and an Invalid Date outside it; an invalid date stays invalid. |
| TokenRefresh.RefreshDelay | src/composables/useTokenRefresh.ts:17-31 | The delay is 0 with no truthy timestamp and NaN for an unparsable one. Otherwise it is at most one interval when the stored time is not after `now`, 0 once an interval has passed, and before that it ends exactly one interval after the stored time. |
| TokenRefresh.RecordStart | src/composables/useTokenRefresh.ts:18-23 | Computing the delay records `now` when no truthy timestamp is stored, changes nothing otherwise, and always leaves a truthy timestamp. |
| TokenRefresh.TimeoutDelay | src/composables/useTokenRefresh.ts:42-58 | The delay the timer waits is below 2^31. NaN waits 0, a delay below 2^31 is kept, and one in [2^31, 2^32) waits 0. |
| TokenRefresh.Disarm | src/composables/useTokenRefresh.ts:13-15 | Clearing the held timer leaves no timer armed and keeps the held id and storage. |
| TokenRefresh.ScheduleSpec | src/composables/useTokenRefresh.ts:33-59 | Scheduling leaves exactly one armed timer, the fresh one the composable now holds, with the computed delay. It records the start time and keeps no leaked timer. |
| TokenRefresh.StartSpec | src/composables/useTokenRefresh.ts:11-63 | Starting clears any held timer and schedules. The result is the same as scheduling directly, with the invariant kept. |
| TokenRefresh.FireSpec | src/composables/useTokenRefresh.ts:42-58 | When the timer fires: without a token it re-arms on the old timestamp. After a successful refresh it records `now` and holds one fresh timer. After a failed refresh it holds nothing, arms nothing and leaves storage alone. |
| TokenRefresh.StopSpec | src/composables/useTokenRefresh.ts:65-71 | Stopping leaves no timer held or armed and removes the last-refresh timestamp. |
| TokenRefresh.MountSpec | src/composables/useTokenRefresh.ts:73-77 | Mounting starts the cycle exactly when the session has a token and changes nothing otherwise. |
| TokenRefresh.StartWithoutTimestamp | src/composables/useTokenRefresh.ts:18-23 | With no timestamp stored, starting records `now` and arms a timer with delay 0. |
| TokenRefresh.StartResumesCadence | src/composables/useTokenRefresh.ts:25-30 | After a reload, a timestamp t written by the app with t ≤ now < t + 1 h arms the timer for exactly t + 1 h − now, and storage is unchanged. |
| TokenRefresh.RefreshRearmsFullInterval | src/composables/useTokenRefresh.ts:44-57 | A successful refresh records `now` and re-arms for exactly one hour. |
| TokenRefresh.FireWithoutTokenRearmsOnOldTimestamp | src/composables/useTokenRefresh.ts:44-57 | Without a token, a stored timestamp an hour or more old re-arms with delay 0, so the callback fires again at once. |
| TokenRefresh.TokenRefresher.constructor | src/composables/useTokenRefresh.ts:9 | The composable starts holding no timer, with no timer armed. |
| TokenRefresh.TokenRefresher.SetTimeout | src/composables/useTokenRefresh.ts:42 | `setTimeout` arms a timer under a fresh id and returns that id. |
| TokenRefresh.TokenRefresher.ClearTimeout | src/composables/useTokenRefresh.ts:38 | `clearTimeout` disarms that id and nothing else. |
| TokenRefresh.TokenRefresher.GetNextRefreshDelay | src/composables/useTokenRefresh.ts:17-31 | Returns `RefreshDelay` of the stored timestamp and leaves storage as `RecordStart` says. |
| TokenRefresh.TokenRefresher.ScheduleNextRefresh | src/composables/useTokenRefresh.ts:33-59 | Moves the state as `ScheduleSpec` says. |
| TokenRefresh.TokenRefresher.StartTokenRefresh | src/composables/useTokenRefresh.ts:11-63 | Moves the state as `StartSpec` says. |
| TokenRefresh.TokenRefresher.Fire | src/composables/useTokenRefresh.ts:42-58 | Runs the timer callback as `FireSpec` says. |
| TokenRefresh.TokenRefresher.StopTokenRefresh | src/composables/useTokenRefresh.ts:65-71 | Moves the state as `StopSpec` says. |
| TokenRefresh.TokenRefresher.Mount | src/composables/useTokenRefresh.ts:73-77 | Moves the state as `MountSpec` says. |
| TokenRefresh.TokenRefresher.Unmount | src/composables/useTokenRefresh.ts:79-81 | Unmounting stops the cycle as `StopSpec` says. |
| Auth.LoginErrorMessage | src/stores/auth.ts:27-31 | A rejected login throws 'Invalid email or password' exactly when the server said 'Invalid credentials', and the generic message otherwise. |
| Auth.PersistTokenSpec | src/stores/auth.ts:83-88 | `persistToken` adopts the stored token when it is truthy and changes nothing otherwise. The user and storage are never touched. |
| Auth.LogoutSpec | src/stores/auth.ts:77-82 | After logout the user and token are null and the 'token' key is gone. |
| Auth.StoreTokenSpec | src/stores/auth.ts:33-40 | The token is set and stored before decoding. A decodable token sets the user; an undecodable one throws and leaves the user as it was. |
| Auth.LoginSpec | src/stores/auth.ts:13-41 | A request that throws leaves `loading` true. A rejected one maps the server message and changes nothing else. An accepted one stores the token, with `loading` false. |
| Auth.SignUpSpec | src/stores/auth.ts:42-64 | A request that throws leaves `loading` true. A rejected one throws 'Failed to sign up' and changes nothing else. An accepted one stores the token, with `loading` false. |
| Auth.PersistTokenIdempotent | src/stores/auth.ts:83-88 | Calling `persistToken` twice is the same as calling it once. |
| Auth.RejectedLeavesSessionAlone | src/stores/auth.ts:27-31 | A rejected login or sign-up leaves user, token and storage as they were. |
| Auth.LoginSurvivesReload | src/stores/auth.ts:33-40 | After a successful login with a non-empty token, `persistToken` on a reloaded store recovers that token from storage. |
| Auth.AuthStore.constructor | src/stores/auth.ts:7-11 | The store starts with no user, no token and `loading` false. |
| Auth.AuthStore.PersistToken | src/stores/auth.ts:83-88 | Moves the state as `PersistTokenSpec` says. |
| Auth.AuthStore.Logout | src/stores/auth.ts:77-82 | Moves the state as `LogoutSpec` says. |
| Auth.AuthStore.StoreToken | src/stores/auth.ts:33-40 | Moves the state and reports the thrown error as `StoreTokenSpec` says. |
| Auth.AuthStore.Login | src/stores/auth.ts:13-41 | Moves the state and reports the thrown error as `LoginSpec` says. |
| Auth.AuthStore.SignUp | src/stores/auth.ts:42-64 | Moves the state and reports the thrown error as `SignUpSpec` says. |
| Weather.ShouldShowErrorToast | src/stores/weather.ts:25-29 | The error toast is shown when no truthy time is stored, never when the stored time is NaN, and otherwise exactly when more than ten minutes have passed. |
| Weather.ShowErrorToastSpec | src/stores/weather.ts:25-38 | A shown toast appends one error toast and records `now`; otherwise nothing changes. The forecasts are never touched. |
| Weather.LoadCachedSpec | src/stores/weather.ts:40-54 | A cache entry that parses becomes the forecasts. One that does not parse is removed. No truthy entry changes nothing. |
| Weather.FetchWeatherSpec | src/stores/weather.ts:60-98 | No token or a non-ok response shows the debounced error toast. Ok data replaces and caches the forecasts. A thrown request falls back to the cache and then shows the toast. |
| Weather.DebounceWindow | src/stores/weather.ts:29-36 | A first error toast is shown at time t, and another is then shown at `now` exactly when now − t > 10 min. |
| Weather.FirstErrorToastShown | src/stores/weather.ts:29-36 | With no toast time stored, the error toast is always shown. |
| Weather.FallbackRestoresLastFetch | src/stores/weather.ts:92-97 | When the cache codec reads back what it wrote for the fetched forecasts, a thrown fetch after a successful one shows exactly those forecasts. |
| Weather.WeatherStore.constructor | src/stores/weather.ts:104-105 | Setting the store up loads the cached forecasts as `LoadCachedSpec` says. |
| Weather.WeatherStore.ShowErrorToast | src/stores/weather.ts:25-38 | Moves the state as `ShowErrorToastSpec` says. |
| Weather.WeatherStore.LoadCachedWeather | src/stores/weather.ts:40-54 | Moves the state as `LoadCachedSpec` says. |
| Weather.WeatherStore.CacheWeather | src/stores/weather.ts:56-58 | Writes the encoded forecasts under 'weather_cache' and changes nothing else in storage. |
| Weather.WeatherStore.FetchWeather | src/stores/weather.ts:60-98 | Moves the state as `FetchWeatherSpec` says. |
| Events.WeekStartsOn | src/stores/events.ts:35-36 | The fetched range's week starts on day 0 exactly when the week starts on Sunday, and on 1 otherwise. |
| Events.ToTimeEvents | src/stores/events.ts:77-81 | The converted list has the response's length, and each event keeps its fields with both dates parsed. |
| Events.FetchEventsSpec | src/stores/events.ts:28-93 | `loading` always ends false. Without a token: a log-in-again error toast and a logout. Ok: the converted events with no toast. Non-ok: an error toast. Thrown: an error toast and the error message. |
| Events.Finally | src/stores/events.ts:144-152 | A write's `finally` block appends the success toast and clears `loading`, whatever the `try` did. |
| Events.Caught | src/stores/events.ts:135-143 | A write's `catch` block appends an error toast and records the error message. |
| Events.ModifySpec | src/stores/events.ts:95-153 | With no id: one error toast and nothing else. Otherwise the events stay as they were and the last toast is the success toast, right after the error toast when the request failed. |
| Events.CreateSpec | src/stores/events.ts:155-213 | With no title: one error toast and nothing else. Otherwise the last toast is the success toast. An ok response refetches. A failure adds the error toast before it and leaves the events alone, and a thrown request records its error message. |
| Events.DeleteSpec | src/stores/events.ts:215-255 | The last toast is always the success toast. An ok response refetches. A failure adds the error toast before it and leaves the events alone, and a thrown request records its error message. |
| Events.RefusedWritesReportSuccess | src/stores/events.ts:124-152 | A refused modify, create or delete ends with its error toast followed by its success toast. |
| Events.RefetchReplacesEvents | src/stores/events.ts:76-81 | A successful refetch leaves exactly as many events as the server sent. |
| Events.EventStore.constructor | src/stores/events.ts:23-25 | The store starts with no events, `loading` false and no error. |
| Events.EventStore.FetchEvents | src/stores/events.ts:28-93 | Moves the state as `FetchEventsSpec` says. |
| Events.EventStore.ReportDone | src/stores/events.ts:144-152 | Moves the state as `Finally` says. |
| Events.EventStore.ReportThrown | src/stores/events.ts:135-143 | Moves the state as `Caught` says. |
| Events.EventStore.ModifyEvent | src/stores/events.ts:95-153 | Moves the state as `ModifySpec` says. |
| Events.EventStore.CreateEvent | src/stores/events.ts:155-213 | Moves the state as `CreateSpec` says. |
| Events.EventStore.DeleteEvent | src/stores/events.ts:215-255 | Moves the state as `DeleteSpec` says. |
| Calendar.RotateLeft | src/stores/calendar.ts:52 | `slice(1).concat(s[0])` is a permutation that moves the first element to the end and shifts the rest one place left. |
| Calendar.DayNamesInOrder | src/stores/calendar.ts:48-54 | The header is a permutation of the day names. It is the stored order when the week starts on Sunday, and otherwise Monday first with Sunday last. |
| Calendar.GetDayName | src/stores/calendar.ts:56-58 | A `getDay()` index in 0..6 gives that day's name. Any other index gives undefined. |
| Calendar.HeaderStartsOnMonday | src/stores/calendar.ts:48-53 | With the store's constant setting, the header reads MON through SUN. |
| Calendar.HeaderColumnNamesDay | src/stores/calendar.ts:48-58 | Header column i names the weekday whose `getDay()` index is (i + 1) mod 7. |
| Calendar.NewGhostEvent | src/stores/calendar.ts:28-41 | The ghost event is titled 'New Event', has an empty description, starts at the given time, ends exactly one hour later when that date is valid, and is drawn at (x, y). |
| Calendar.CalendarStore.constructor | src/stores/calendar.ts:7-25 | The store starts with 12h notation in UTC, today and the visible month at `now`, and no focused date or ghost event. |
| Calendar.CalendarStore.SetVisibleMonth | src/stores/calendar.ts:20-22 | Sets the visible month and nothing else. |
| Calendar.CalendarStore.CreateGhostEvent | src/stores/calendar.ts:28-42 | Sets the ghost event to `NewGhostEvent` (defaults x = y = 0) and nothing else. |
| Calendar.CalendarStore.DestroyGhostEvent | src/stores/calendar.ts:44-46 | Clears the ghost event and nothing else. |
| Settings.InitialSettings | src/stores/settings.ts:6-13 | The store starts from the defaults (12, Monday first, focus hour on, UTC) when nothing truthy is stored, and otherwise from the parsed record, failing when it does not parse. |
| Settings.ReloadSeesWrittenSettings | src/stores/settings.ts:13-29 | With a faithful codec, a store set up after a write starts from exactly the record written. |
| Settings.SettingsStore.constructor | src/stores/settings.ts:15-18 | The four refs take the initial record's values. |
| Settings.SettingsStore.Load | src/stores/settings.ts:5-18 | Setting up fails exactly when `InitialSettings` fails, and otherwise yields a fresh store holding that record. |
| Settings.SettingsStore.SetTimezone | src/stores/settings.ts:20-30 | Changes only the timezone and writes all four current settings under 'settings'. |
| Router.RequiresAuth | src/router/index.ts:4-7 | A path requires auth only if a route with that path is flagged, and never when no route matches. |
| Router.BeforeEach | src/router/index.ts:14-19 | The guard redirects to '/auth' exactly when the route requires auth and the token is not truthy, and proceeds exactly otherwise. |
| Router.RouteFlags | src/router/index.ts:4-7 | '/' requires auth and '/auth' does not. |
| Router.RedirectTargetIsOpen | src/router/index.ts:4-19 | Navigating to the guard's redirect target always proceeds, so redirects never chain. |

## Left out

- Auth.LoginSpec, Auth.SignUpSpec: a response body that fails to parse is not modelled. It throws with `loading` already false (src/stores/auth.ts:25, 56).
- Network requests are abstracted to their `Outcome`. Their URLs, headers, bodies and query parameters (identifier, password, email, name, city, days, event id, the date range) are not modelled.
- `checkEmail` (src/stores/auth.ts:65-76) is left out: it only returns a field of a network response and changes no state.
- `jwtDecode` is a parameter: a token either decodes to a user or throws.
- A response whose `data.token` is missing is not modelled; the token is always a string.
- The payload of a successful weather response is taken as already formatted. `cToF` and the Fahrenheit fields are left out, because they are floating-point arithmetic that no other operation reads.
- The fetched event range is left out: `getStartOfMonth`/`getEndOfMonth` (src/utils/dates/date-formatter.ts) and date-fns `startOfWeek`/`endOfWeek`. It only shapes the request URL. Only its `weekStartsOn` choice is modelled.
- ISO date parsing is the `parseDate` parameter.
- JSON encoding and decoding of records is an abstract `Codec`. A cached or stored record of the wrong shape counts as a parse failure.
- Numeric.ParseInt: leading whitespace, a `0x` prefix and digits beyond the safe integer range are not modelled. Stored timestamps are written by the app itself and have none of these.
- Numeric.NatToString: exponent notation for numbers of 1e21 and more is not modelled. Timestamps are far below that.
- Real time is not modelled. The timer callback runs only when `Fire` is called.
- The nesting-level clamp of `setTimeout` (4 ms after five nested timers) is not modelled.
- Interleaving is not modelled: another call to start or stop while a refresh is awaited.
- Calls to `auth.refreshAccessToken` are not modelled; only whether they succeed is. The action does not exist in the auth store shown.
- Toast rendering (`h(MessageToast, …)`) is reduced to the message text.
- Calendar.GhostEvent: the drawing position `x`, `y` is an `int`, while the source holds JS numbers, usually fractional pixel positions (src/stores/calendar.ts:28, 37-38). The store only keeps and returns them, so no behaviour depends on this.
- Toast ids and ghost event ids are parameters instead of random strings.
- `console` logging, Vue's `onMounted`/`onUnmounted` registration, component rendering, src/main.ts and tailwind.config.js are not part of this model.
- The calendar store's constant `focusOnCurrentHour` and the exposed `dayNames` array are plain constants with no behaviour.
- Weather.WeatherStore.FetchWeather: the thrown path covers both a failed request and a failure while reading the body.
