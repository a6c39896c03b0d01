# Weather widget core, modelled in Dafny

This project models the sequential logic inside the single React component of a
client-side weather lookup widget (`src/App.js`). The user gives a city name or
coordinates, or asks for the device's position. The component then resolves a
location, fetches current and hourly weather from a forecast service, and shows
current conditions, up to twelve hour cards and a detail panel for a chosen hour.

The model has five modules, one per concern of the component:

- `Values` (`values.dfy`): the JavaScript values the component handles. An
  optional value stands for `undefined`. A coordinate is absent, the text of a
  number input, or a number. Truthiness follows JS: `undefined`, `""` and the
  number `0` are falsy, and the typed text `"0"` is truthy. Also here: JS
  `a || b` and `s[i]` past the end.
- `Conditions` (`conditions.dfy`): the ten-entry `weatherConditions` table and
  its three lookups. Current conditions fall back to "Unknown". Hour cards fall
  back to entry 0, "Clear Sky". The selected-hour panel has no fallback.
- `Hourly` (`hourly.dfy`): the `map`/`filter`/`slice` pipeline over the parallel
  hourly arrays. It is proved against an independent reference: the list of
  indices whose time is after "now".
- `Location` (`location.dfy`): how `getWeather` resolves a location. Parameters
  override the form fields by truthiness. The city is geocoded only when a
  coordinate is missing, and the first result replaces both coordinates. There
  are two early exits.
- `Session` (`session.dfy`): one attempt as a specification function
  (`Attempt`), and the class `WeatherApp`. The class holds the component's
  eight state fields. Its handlers update them step by step:
  - `GetWeather` runs the reset, the `try` body with its early returns, `catch`
    and `finally`.
  - `HandleUseMyLocation` and `HandleHourChange` are the other two handlers.
  - The input `onChange` handlers are `EditCity`, `EditLatitude` and
    `EditLongitude`.

  The module also models the selected-hour panel.

Network calls, the clock and the device are inputs:

- The geocoding and forecast responses are parameters. Their shape decides
  where the code throws. A missing `current_weather` member throws before the
  snapshot is set. A missing `hourly` member throws after it.
- `GetWeather` returns the requests it would have sent. This makes "no forecast
  is requested" a checkable statement.
- "Now" is an integer instant.
- Geolocation support and the position the device reports are parameters.

Behaviours of the code that the model keeps as written:

- `selectedHour` is not cleared when a new attempt starts. A selection past the
  end of the new hour list makes the detail panel read an undefined entry
  (`SelectedPanel` gives `RenderFault`).
- The snapshot and the hour list are not replaced together. When the forecast
  body has no `hourly` member, the snapshot stays on screen beside the generic
  error, and there are no hour cards (`AttemptNotAtomic`).
- A coordinate equal to 0 counts as missing (`ZeroIsMissing`). At the equator,
  "Use My Location" falls back to the latitude field (`EquatorUsesFormField`).
- `getWeather` reads the form fields as they were when the handler's render
  happened. So after `HandleUseMyLocation` writes the position into the
  latitude and longitude fields, the attempt still uses the earlier values.
- A city is geocoded whenever one coordinate is missing. Both coordinates then
  come from the first geocoding result, even a coordinate that was typed in.
- A failed or unsupported geolocation leaves earlier results on screen.
  "Unsupported" does not touch the `loading` flag.

## Model

| member | source | states |
|---|---|---|
| Values.Or | src/App.js:45-46 | the JS "or" is truthy iff either operand is; it is the first operand when that one is truthy, and the second operand otherwise |
| Values.ElementAt | src/App.js:99-101 | reading a parallel array by index is defined exactly below its length, and then gives that element |
| Conditions.CurrentCondition | src/App.js:79-83 | total: a known code gets its table entry; the label is "Unknown" iff the code is outside the ten keys |
| Conditions.CardCondition | src/App.js:197-198 | always a table entry and never "Unknown"; a missing or unknown code shows "Clear Sky"; "Clear Sky" iff the code is 0, unknown or missing |
| Conditions.DetailLabel | src/App.js:276-279 | defined iff the code is one of the ten keys, and then agrees with both other lookups |
| Conditions.UnknownCodeDisagreement | src/App.js:25-36 | for a code outside the table the three lookups show "Unknown", "Clear Sky" and nothing |
| Hourly.Entries | src/App.js:96-102 | the zip has one entry per time, the i-th built from index i of all four arrays |
| Hourly.Take | src/App.js:104 | `slice(0, n)` is a prefix of length min(n, length) |
| Hourly.FutureIndicesExact | src/App.js:103 | the reference index list is strictly increasing, within bounds, and holds i iff time i is after now |
| Hourly.UpcomingAtFutureIndices | src/App.js:96-103 | the filter keeps, in order, exactly the entries at the future indices |
| Hourly.WindowAligned | src/App.js:96-104 | the window is the first min(12, k) future entries, and each takes time, temperature, wind and code from one input index |
| Hourly.WindowBounds | src/App.js:103-104 | at most 12 entries, no more than the input, each strictly after now |
| Hourly.WindowKeepsOrder | src/App.js:96-104 | a chronological series gives a chronological window |
| Hourly.WindowLength | src/App.js:103-104 | the window is empty iff no time is after now; 12 or more future entries give exactly 12 |
| Hourly.WindowDefinedWhenAligned | src/App.js:96-102 | with arrays of equal length every kept entry has temperature, wind and code defined |
| Location.Preferred | src/App.js:45-46 | a truthy parameter overrides the form field, otherwise the form field is used |
| Location.Resolve | src/App.js:48-68 | resolved coordinates are truthy; present ones pass unchanged; geocoder used only if needed; "City not found!" iff it has no result; otherwise the first result goes to the coordinate check, accepted iff both its coordinates are truthy, and gives both coordinates |
| Location.Check | src/App.js:64-68 | the second exit is taken iff a coordinate is falsy |
| Location.NoCityNoGeocode | src/App.js:48 | without a city the geocoder's answer is irrelevant, and input is missing iff a coordinate is falsy |
| Location.ZeroIsMissing | src/App.js:45-64 | a numeric 0 latitude sends a city to the geocoder and, without a city, ends as missing input |
| Session.EquatorUsesFormField | src/App.js:126-130 | a device latitude of 0 with an empty form and no city ends the attempt as missing input, with no request sent |
| Session.ForecastPhase | src/App.js:76-106 | the snapshot exists iff `current_weather` is read; it throws unless both members exist; the hours are the window or empty |
| Session.Attempt | src/App.js:38-112 | an attempt's hour list is at most 12 and non-empty only with a snapshot and no error |
| Session.AttemptRequests | src/App.js:48-72 | geocode request iff needed, by city name and first; at most one forecast request, sent last exactly when resolution succeeds, with the resolved truthy coordinates |
| Session.AttemptEarlyExits | src/App.js:54-68 | each early return has its own message iff its resolution outcome, shows nothing and requests no forecast |
| Session.AttemptSuccess | src/App.js:76-106 | success iff resolution and both forecast members succeed; hours are the window; the snapshot shows the current reading classified with "Unknown" fallback |
| Session.AttemptNotAtomic | src/App.js:85-106 | the snapshot beside an error happens iff `hourly` is missing, and then the error is the generic one and there are no hours |
| Session.SelectedPanel | src/App.js:251-279 | the panel shows entry k with its label (no fallback) iff there is a snapshot and k is in range; a stale out-of-range index cannot render |
| Session.WeatherApp.Panel | src/App.js:251-279 | between events, a selection inside the hour list renders that entry and is below 12 |
| Session.WeatherApp.constructor | src/App.js:16-23 | the eight fields start at their `useState` values |
| Session.WeatherApp.EditCity | src/App.js:152 | only the city field changes |
| Session.WeatherApp.EditLatitude | src/App.js:160 | only the latitude field changes, to the typed text |
| Session.WeatherApp.EditLongitude | src/App.js:166 | only the longitude field changes, to the typed text |
| Session.WeatherApp.GetWeather | src/App.js:38-113 | the new weather, hours and error are the attempt's outcome on the form as it was; loading ends false; the form and the stale selection are kept |
| Session.WeatherApp.ResolveLocation | src/App.js:45-68 | the imperative resolution computes `Resolve` on the preferred coordinates and asks the geocoder only when needed |
| Session.WeatherApp.ShowForecast | src/App.js:76-106 | sets the snapshot and hours as `ForecastPhase` says, the snapshot before the hourly pipeline |
| Session.WeatherApp.HandleUseMyLocation | src/App.js:115-137 | unsupported: only the message, `loading` untouched; denied: message, loading false, old results kept; located: fields take the position and the attempt runs on the old fields; the invariant between events is kept |
| Session.WeatherApp.HandleHourChange | src/App.js:139-141 | only the selection changes |

## Left out

- Rendering, CSS and the react-icons glyphs: glyphs are opaque tags, and only the selected-hour panel's lookup is modelled.
- `fetch`, URL construction and `.json()` parsing: the responses are inputs, and a network or parse failure is a "threw" response.
- Asynchrony: the geolocation callbacks and the two awaited requests run to completion inside one method call. Overlapping attempts and their race are not modelled, and neither is the `loading` flag seen while a request is pending.
- Date parsing and locale formatting: times are integer instants, and a time string that does not parse is not modelled.
- The `toFixed(2)` location label: a city-less snapshot records the two coordinates and not their formatting.
- Floating point: temperature, wind and coordinates are reals passed through unchanged. NaN is not modelled.
- Malformed members inside the responses are not modelled: a `current_weather` without its fields, a `hourly` object without one of its arrays, and a geocoding result that is not an object.
- `console.error` in the `catch` block: logging only.
- Weather codes are integers: a code that is a fraction, a string or `null` in the JSON is not modelled.
