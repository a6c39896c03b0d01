/** The widget's session: one fetch attempt as a specification function, the
    eight state fields of the component as a class whose handlers update them
    step by step, and the selected-hour panel. */
module Session {
  import opened Values
  import opened Conditions
  import opened Hourly
  import opened Location

  /** The `error` state. The component only ever stores one of these six
      strings in it, the empty one meaning that no error line is shown. */
  datatype Alert =
    | NoAlert
    | CityNotFoundAlert
    | MissingInputAlert
    | FailureAlert
    | UnsupportedAlert
    | DeniedAlert
  {
    function Message(): string
    {
      match this
      case NoAlert => ""
      case CityNotFoundAlert => "City not found!"
      case MissingInputAlert => "Please enter a city or coordinates!"
      case FailureAlert => "Something went wrong. Try again later."
      case UnsupportedAlert => "Geolocation is not supported by your browser."
      case DeniedAlert => "Unable to retrieve your location."
    }
  }

  /** The `current_weather` object of the forecast response. */
  datatype CurrentWeather = CurrentWeather(temperature: real, windspeed: real, weathercode: int)

  /** What the forecast request delivered: a thrown failure (network error or
      unparsable body), or a body whose two members may be missing. A missing
      member makes the code that reads it throw. */
  datatype ForecastResponse =
    | ForecastThrew
    | ForecastBody(current: Option<CurrentWeather>, hourly: Option<HourlySeries>)

  /** The requests an attempt sends; they stand for the two `fetch` calls. */
  datatype Request = GeocodeRequest(name: string) | ForecastRequest(latitude: Coord, longitude: Coord)

  /** The heading of the result panel: the city text when there is one,
      otherwise the two coordinates (their decimal formatting is not modelled). */
  datatype LocationLabel = CityLabel(city: string) | CoordLabel(latitude: Coord, longitude: Coord)

  /** The `weather` state: the current-conditions snapshot. */
  datatype Weather = Weather(location: LocationLabel, temperature: real, windspeed: real, condition: Condition)

  /** The form fields as `getWeather`'s closure sees them. */
  datatype Form = Form(city: string, latitude: Coord, longitude: Coord)

  /** What one attempt leaves in `weather`, `hourlyData` and `error`, and the
      requests it sent. */
  datatype Outcome = Outcome(weather: Option<Weather>, hourly: seq<HourEntry>, error: Alert, requests: seq<Request>)

  /** The device position delivered to the geolocation callbacks. */
  datatype Position = Denied | Located(latitude: real, longitude: real)

  function Snapshot(city: string, lat: Coord, lon: Coord, current: CurrentWeather): Weather
  {
    Weather(
      if city != "" then CityLabel(city) else CoordLabel(lat, lon),
      current.temperature, current.windspeed, CurrentCondition(current.weathercode))
  }

  /** The coordinates the attempt resolves to (or how it fails to). */
  function ResolveFor(form: Form, latParam: Coord, lonParam: Coord, geo: GeoResponse): Resolution
  {
    var p := Preferred(latParam, lonParam, form.latitude, form.longitude);
    Resolve(form.city, p.0, p.1, geo)
  }

  /** Whether the attempt consults the geocoder. */
  predicate Geocodes(form: Form, latParam: Coord, lonParam: Coord)
  {
    var p := Preferred(latParam, lonParam, form.latitude, form.longitude);
    NeedsGeocode(form.city, p.0, p.1)
  }

  /** What the forecast half of an attempt leaves in `weather` and
      `hourlyData`, and whether it threw. */
  datatype Display = Display(weather: Option<Weather>, hourly: seq<HourEntry>, threw: bool)

  /** The forecast half of an attempt, from resolved coordinates: the snapshot
      is set as soon as `current_weather` is read, before the hourly pipeline
      runs, so a missing `hourly` member throws with the snapshot already set. */
  function ForecastPhase(city: string, lat: Coord, lon: Coord, fc: ForecastResponse, now: int): (d: Display)
    ensures d.weather.Some? <==> fc.ForecastBody? && fc.current.Some?
    ensures d.threw <==> !(fc.ForecastBody? && fc.current.Some? && fc.hourly.Some?)
    ensures !d.threw ==> d.hourly == Window(fc.hourly.value, now)
    ensures d.threw ==> d.hourly == []
    ensures |d.hourly| <= WindowSize
  {
    match fc
    case ForecastThrew => Display(None, [], true)
    case ForecastBody(current, hourly) =>
      if current.None? then Display(None, [], true)
      else
        var w := Some(Snapshot(city, lat, lon, current.value));
        if hourly.None? then Display(w, [], true)
        else
          WindowBounds(hourly.value, now);
          Display(w, Window(hourly.value, now), false)
  }

  /** One run of `getWeather(latParam, lonParam)` after its reset, through its
      early returns and its catch. */
  function Attempt(form: Form, latParam: Coord, lonParam: Coord, geo: GeoResponse, fc: ForecastResponse, now: int): (o: Outcome)
    // Hour cards never appear without the snapshot or beside an error.
    ensures o.hourly != [] ==> o.weather.Some? && o.error == NoAlert
    ensures |o.hourly| <= WindowSize
  {
    var geocodes := if Geocodes(form, latParam, lonParam) then [GeocodeRequest(form.city)] else [];
    match ResolveFor(form, latParam, lonParam, geo)
    case CityNotFound => Outcome(None, [], CityNotFoundAlert, geocodes)
    case MissingCoordinates => Outcome(None, [], MissingInputAlert, geocodes)
    case GeocodeFailed => Outcome(None, [], FailureAlert, geocodes)
    case Resolved(lat, lon) =>
      var d := ForecastPhase(form.city, lat, lon, fc, now);
      Outcome(d.weather, d.hourly, if d.threw then FailureAlert else NoAlert, geocodes + [ForecastRequest(lat, lon)])
  }

  /** The geocoder is asked, first and by the city's name, exactly when it is
      needed; a forecast is asked for at most once, after it, and only with
      the resolved coordinates, which are both truthy. */
  lemma AttemptRequests(form: Form, latParam: Coord, lonParam: Coord, geo: GeoResponse, fc: ForecastResponse, now: int)
    ensures var o := Attempt(form, latParam, lonParam, geo, fc, now);
      (GeocodeRequest(form.city) in o.requests <==> Geocodes(form, latParam, lonParam)) &&
      (o.requests != [] && o.requests[0].GeocodeRequest? ==> o.requests[0] == GeocodeRequest(form.city)) &&
      |o.requests| <= 2 && (forall i :: 1 <= i < |o.requests| ==> o.requests[i].ForecastRequest?) &&
      (forall i, j :: 0 <= i < j < |o.requests| ==> !(o.requests[i].ForecastRequest? && o.requests[j].ForecastRequest?)) &&
      (ResolveFor(form, latParam, lonParam, geo).Resolved? <==>
        o.requests != [] && o.requests[|o.requests| - 1].ForecastRequest?) &&
      (forall r :: r in o.requests && r.ForecastRequest? ==>
        ResolveFor(form, latParam, lonParam, geo) == Resolved(r.latitude, r.longitude) &&
        Truthy(r.latitude) && Truthy(r.longitude))
  {
  }

  /** One of four messages, the empty one meaning success. The two early
      returns each have their own message, show nothing and ask for no
      forecast. */
  lemma AttemptEarlyExits(form: Form, latParam: Coord, lonParam: Coord, geo: GeoResponse, fc: ForecastResponse, now: int)
    ensures var o := Attempt(form, latParam, lonParam, geo, fc, now);
      var r := ResolveFor(form, latParam, lonParam, geo);
      o.error in {NoAlert, CityNotFoundAlert, MissingInputAlert, FailureAlert} &&
      (o.error == CityNotFoundAlert <==> r == CityNotFound) &&
      (o.error == MissingInputAlert <==> r == MissingCoordinates) &&
      (o.error in {CityNotFoundAlert, MissingInputAlert} ==>
        o.weather == None && o.hourly == [] && forall q :: q in o.requests ==> q.GeocodeRequest?)
  {
  }

  /** Success exactly when resolution succeeds and the forecast body has both
      members; the hour cards are then the window, and the snapshot shows the
      current reading classified with the "Unknown" fallback. */
  lemma AttemptSuccess(form: Form, latParam: Coord, lonParam: Coord, geo: GeoResponse, fc: ForecastResponse, now: int)
    ensures var o := Attempt(form, latParam, lonParam, geo, fc, now);
      (o.error == NoAlert <==>
        ResolveFor(form, latParam, lonParam, geo).Resolved? && fc.ForecastBody? && fc.current.Some? && fc.hourly.Some?) &&
      (o.error == NoAlert ==> o.weather.Some? && o.hourly == Window(fc.hourly.value, now)) &&
      (o.weather.Some? ==>
        fc.ForecastBody? && fc.current.Some? &&
        o.weather.value.temperature == fc.current.value.temperature &&
        o.weather.value.windspeed == fc.current.value.windspeed &&
        o.weather.value.condition == CurrentCondition(fc.current.value.weathercode) &&
        (form.city != "" ==> o.weather.value.location == CityLabel(form.city)))
  {
  }

  /** The snapshot and the hour cards are not replaced together: the snapshot
      is set before the hourly pipeline runs, so a missing `hourly` member
      leaves the snapshot beside the generic error and no hour cards. */
  lemma AttemptNotAtomic(form: Form, latParam: Coord, lonParam: Coord, geo: GeoResponse, fc: ForecastResponse, now: int)
    ensures var o := Attempt(form, latParam, lonParam, geo, fc, now);
      (o.weather.Some? && o.error != NoAlert <==>
        ResolveFor(form, latParam, lonParam, geo).Resolved? && fc.ForecastBody? && fc.current.Some? && fc.hourly.None?) &&
      (o.weather.Some? && o.error != NoAlert ==> o.error == FailureAlert && o.hourly == [])
  {
  }

  /** At the equator the device's latitude is the number 0, which is falsy:
      the attempt falls back to the latitude field, and with an empty form and
      no city it ends as missing input without sending any request. */
  lemma EquatorUsesFormField(lon: real, geo: GeoResponse, fc: ForecastResponse, now: int)
    ensures Preferred(Num(0.0), Num(lon), Text(""), Text("")).0 == Text("")
    ensures Attempt(Form("", Text(""), Text("")), Num(0.0), Num(lon), geo, fc, now) == Outcome(None, [], MissingInputAlert, [])
  {
  }

  /** The "Weather at Selected Hour" panel. */
  datatype Panel =
    | NoPanel
    | HourPanel(entry: HourEntry, caption: Option<string>)
    | RenderFault  // `hourlyData[selectedHour]` is undefined and reading `.time` throws

  /** The panel is rendered only under the snapshot, with a non-empty hourly
      list and a selection; it shows the selected entry and its label without
      fallback. A selection past the end of the list cannot be rendered. */
  function SelectedPanel(weather: Option<Weather>, hourly: seq<HourEntry>, selected: Option<nat>): (p: Panel)
    ensures p.HourPanel? <==> weather.Some? && selected.Some? && selected.value < |hourly|
    ensures p.HourPanel? ==>
      p.entry == hourly[selected.value] && p.caption == DetailLabel(hourly[selected.value].weathercode)
    ensures p == RenderFault <==> weather.Some? && hourly != [] && selected.Some? && selected.value >= |hourly|
  {
    if weather.None? || hourly == [] || selected.None? then NoPanel
    else if selected.value < |hourly| then
      HourPanel(hourly[selected.value], DetailLabel(hourly[selected.value].weathercode))
    else RenderFault
  }

  /** The component's eight state fields. `selectedHour` is the value of the
      hour picker: `None` for its empty option, else the chosen index. */
  class WeatherApp {
    var city: string
    var latitude: Coord
    var longitude: Coord
    var weather: Option<Weather>
    var hourlyData: seq<HourEntry>
    var selectedHour: Option<nat>
    var error: Alert
    var loading: bool

    /** Holds whenever no handler is running: no request is pending, and hour
        cards are only ever shown under a snapshot, at most twelve of them. */
    ghost predicate Valid()
      reads this
    {
      !loading && |hourlyData| <= WindowSize && (hourlyData != [] ==> weather.Some?)
    }

    function FormView(): Form
      reads this
    {
      Form(city, latitude, longitude)
    }

    /** The panel as rendered from the current state. Between events a
        selection inside the hour list always renders its entry, since hour
        cards never exist without the snapshot. */
    function Panel(): (p: Panel)
      reads this
      ensures Valid() && selectedHour.Some? && selectedHour.value < |hourlyData| ==>
        p.HourPanel? && p.entry == hourlyData[selectedHour.value] && selectedHour.value < WindowSize
    {
      SelectedPanel(weather, hourlyData, selectedHour)
    }

    /** The `useState` initial values. */
    constructor ()
      ensures Valid()
      ensures city == "" && latitude == Text("") && longitude == Text("")
      ensures weather == None && hourlyData == [] && selectedHour == None
      ensures error == NoAlert && !loading
    {
      city, latitude, longitude := "", Text(""), Text("");
      weather, hourlyData, selectedHour := None, [], None;
      error, loading := NoAlert, false;
    }

    /** The three inputs' `onChange` handlers. */
    method EditCity(text: string)
      modifies this
      ensures city == text
      ensures latitude == old(latitude) && longitude == old(longitude) && weather == old(weather)
      ensures hourlyData == old(hourlyData) && selectedHour == old(selectedHour)
      ensures error == old(error) && loading == old(loading)
    {
      city := text;
    }

    method EditLatitude(text: string)
      modifies this
      ensures latitude == Text(text)
      ensures city == old(city) && longitude == old(longitude) && weather == old(weather)
      ensures hourlyData == old(hourlyData) && selectedHour == old(selectedHour)
      ensures error == old(error) && loading == old(loading)
    {
      latitude := Text(text);
    }

    method EditLongitude(text: string)
      modifies this
      ensures longitude == Text(text)
      ensures city == old(city) && latitude == old(latitude) && weather == old(weather)
      ensures hourlyData == old(hourlyData) && selectedHour == old(selectedHour)
      ensures error == old(error) && loading == old(loading)
    {
      longitude := Text(text);
    }

    /** `getWeather(latParam, lonParam)`: the "Get Weather" button calls it
        with both parameters absent. The two responses stand for the two
        `fetch` calls; the requests it would send are returned. */
    method GetWeather(latParam: Coord, lonParam: Coord, geo: GeoResponse, fc: ForecastResponse, now: int)
      returns (requests: seq<Request>)
      modifies this
      ensures var o := Attempt(old(FormView()), latParam, lonParam, geo, fc, now);
        weather == o.weather && hourlyData == o.hourly && error == o.error && requests == o.requests
      ensures !loading && Valid()
      // The form and the selection are left alone: a stale selection survives.
      ensures city == old(city) && latitude == old(latitude) && longitude == old(longitude)
      ensures selectedHour == old(selectedHour)
    {
      ghost var form := FormView();
      // The reset at the start of every attempt.
      error := NoAlert;
      weather := None;
      hourlyData := [];
      loading := true;

      var threw := false;
      label attempt: {
        var resolution;
        resolution, requests := ResolveLocation(latParam, lonParam, geo);
        match resolution
        case GeocodeFailed =>
          threw := true;
          assert Attempt(form, latParam, lonParam, geo, fc, now) == Outcome(None, [], FailureAlert, requests);
        case CityNotFound =>
          error := CityNotFoundAlert;
          loading := false;
          assert Attempt(form, latParam, lonParam, geo, fc, now) == Outcome(None, [], error, requests);
          break attempt;
        case MissingCoordinates =>
          error := MissingInputAlert;
          loading := false;
          assert Attempt(form, latParam, lonParam, geo, fc, now) == Outcome(None, [], error, requests);
          break attempt;
        case Resolved(lat, lon) =>
          requests := requests + [ForecastRequest(lat, lon)];
          threw := ShowForecast(lat, lon, fc, now);
      }
      // catch
      if threw {
        error := FailureAlert;
      }
      // finally
      loading := false;
    }

    /** The location half of `getWeather`'s `try` block: `latParam || latitude`,
        `lonParam || longitude`, the geocoding branch and the missing-coordinate
        check. It only reads the form fields; the two early returns that
        follow a failed resolution are taken by the caller. */
    method ResolveLocation(latParam: Coord, lonParam: Coord, geo: GeoResponse)
      returns (resolution: Resolution, requests: seq<Request>)
      ensures resolution == ResolveFor(FormView(), latParam, lonParam, geo)
      ensures requests == if Geocodes(FormView(), latParam, lonParam) then [GeocodeRequest(city)] else []
    {
      requests := [];
      var lat := Or(latParam, latitude);
      var lon := Or(lonParam, longitude);

      if city != "" && (!Truthy(lat) || !Truthy(lon)) {
        requests := [GeocodeRequest(city)];
        if geo.GeoThrew? {
          return GeocodeFailed, requests;
        }
        var results := geo.results;
        if results.None? || |results.value| == 0 {
          return CityNotFound, requests;
        }
        lat := results.value[0].latitude;
        lon := results.value[0].longitude;
      }

      if !Truthy(lat) || !Truthy(lon) {
        return MissingCoordinates, requests;
      }
      return Resolved(lat, lon), requests;
    }

    /** The forecast half of `getWeather`'s `try` block, entered after the
        reset: `weather` is set before the hourly pipeline runs. */
    method ShowForecast(lat: Coord, lon: Coord, fc: ForecastResponse, now: int) returns (threw: bool)
      requires weather == None && hourlyData == []
      modifies this`weather, this`hourlyData
      ensures var d := ForecastPhase(city, lat, lon, fc, now);
        weather == d.weather && hourlyData == d.hourly && threw == d.threw
    {
      if fc.ForecastThrew? || fc.current.None? {
        return true;
      }
      var current := fc.current.value;
      weather := Some(Snapshot(city, lat, lon, current));

      if fc.hourly.None? {
        return true;
      }
      var hours := Window(fc.hourly.value, now);
      hourlyData := hours;
      return false;
    }

    /** "Use My Location". `supported` stands for `navigator.geolocation`, and
        `position` for the callback that the device invokes. */
    method HandleUseMyLocation(supported: bool, position: Position, geo: GeoResponse, fc: ForecastResponse, now: int)
      returns (requests: seq<Request>)
      modifies this
      ensures old(Valid()) ==> Valid()
      ensures city == old(city) && selectedHour == old(selectedHour)
      // No geolocation: only the message changes, nothing is asked for, and
      // `loading` is left as it was.
      ensures !supported ==>
        error == UnsupportedAlert && requests == [] && loading == old(loading) &&
        latitude == old(latitude) && longitude == old(longitude) &&
        weather == old(weather) && hourlyData == old(hourlyData)
      // Denied: the message, and the previous results stay on screen.
      ensures supported && position.Denied? ==>
        error == DeniedAlert && requests == [] && !loading &&
        latitude == old(latitude) && longitude == old(longitude) &&
        weather == old(weather) && hourlyData == old(hourlyData)
      // Located: the fields take the position, and the attempt runs with the
      // position as parameters but the form fields as they were before.
      ensures supported && position.Located? ==>
        var o := Attempt(old(FormView()), Num(position.latitude), Num(position.longitude), geo, fc, now);
        latitude == Num(position.latitude) && longitude == Num(position.longitude) && !loading &&
        weather == o.weather && hourlyData == o.hourly && error == o.error && requests == o.requests
    {
      if !supported {
        error := UnsupportedAlert;
        requests := [];
        return;
      }

      error := NoAlert;
      loading := true;

      match position
      case Denied =>
        error := DeniedAlert;
        loading := false;
        requests := [];
      case Located(lat, lon) =>
        // getWeather runs in the closure of the render that created this
        // handler, so it reads the latitude and longitude fields as they were
        // before the two updates below; it writes neither field.
        requests := GetWeather(Num(lat), Num(lon), geo, fc, now);
        latitude := Num(lat);
        longitude := Num(lon);
    }

    /** The hour picker's `onChange`: records the chosen option and nothing else. */
    method HandleHourChange(value: Option<nat>)
      modifies this
      ensures selectedHour == value
      ensures city == old(city) && latitude == old(latitude) && longitude == old(longitude)
      ensures weather == old(weather) && hourlyData == old(hourlyData)
      ensures error == old(error) && loading == old(loading)
    {
      selectedHour := value;
    }
  }
}
