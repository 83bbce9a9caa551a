/** The weather store: the forecasts on screen, their copy cached under
    localStorage key 'weather_cache', and an error toast shown at most once
    every ten minutes. */
module Weather {
  import opened Common
  import opened Numeric
  import opened Storage
  import opened Toasts

  const WEATHER_CACHE_KEY: string := "weather_cache"
  const WEATHER_ERROR_TOAST_KEY: string := "weather_error_toast"
  const TOAST_DEBOUNCE_MS: int := 600_000
  const ERROR_MESSAGE: string := "There was an error fetching weather."

  datatype WeatherType = Sunny | Cloudy | Rainy | Snowy | Foggy | Stormy | Windy | Unknown

  /** One day's forecast, already formatted by the store; temperatures are
      carried as given, their Fahrenheit conversion is not modelled. */
  datatype Forecast = Forecast(date: Date, minTempC: real, maxTempC: real, weatherType: WeatherType)

  /** The store's state, the toast list and localStorage. */
  datatype WeatherView = WeatherView(weather: seq<Forecast>, toasts: seq<Toast>, entries: map<string, string>)

  /** Whether `showErrorToast` shows its toast, given the stored time of the
      last one: always when none (or "") is stored, never when it does not
      parse (the NaN comparison is false), and otherwise only once strictly
      more than ten minutes have passed. */
  function ShouldShowErrorToast(last: Option<string>, now: nat): (show: bool)
    ensures !Truthy(last) ==> show
    ensures Truthy(last) && ParseInt(last.value).None? ==> !show
    ensures Truthy(last) && ParseInt(last.value).Some? ==>
      (show <==> now - ParseInt(last.value).value > TOAST_DEBOUNCE_MS)
  {
    !Truthy(last) ||
    match ParseInt(last.value)
    case None => false
    case Some(t) => now - t > TOAST_DEBOUNCE_MS
  }

  function WeatherErrorToast(id: string): Toast
  {
    Toast(id, Error, DEFAULT_TIMEOUT, ERROR_MESSAGE)
  }

  /** `showErrorToast`. */
  function ShowErrorToastSpec(v: WeatherView, now: nat, toastId: string): (r: WeatherView)
    ensures r.weather == v.weather
    ensures ShouldShowErrorToast(Lookup(v.entries, WEATHER_ERROR_TOAST_KEY), now) ==>
      r.toasts == v.toasts + [WeatherErrorToast(toastId)] &&
      r.entries == v.entries[WEATHER_ERROR_TOAST_KEY := NatToString(now)]
    ensures !ShouldShowErrorToast(Lookup(v.entries, WEATHER_ERROR_TOAST_KEY), now) ==> r == v
  {
    if ShouldShowErrorToast(Lookup(v.entries, WEATHER_ERROR_TOAST_KEY), now) then
      v.(toasts := v.toasts + [WeatherErrorToast(toastId)],
         entries := v.entries[WEATHER_ERROR_TOAST_KEY := NatToString(now)])
    else v
  }

  /** `loadCachedWeather`: adopt the cached forecasts when a truthy entry
      parses; drop an entry that does not parse. */
  function LoadCachedSpec(v: WeatherView, cache: Codec<seq<Forecast>>): (r: WeatherView)
    ensures r.toasts == v.toasts
    ensures !Truthy(Lookup(v.entries, WEATHER_CACHE_KEY)) ==> r == v
    ensures Truthy(Lookup(v.entries, WEATHER_CACHE_KEY)) ==>
      var parsed := cache.decode(v.entries[WEATHER_CACHE_KEY]);
      && (parsed.Some? ==> r.weather == parsed.value && r.entries == v.entries)
      && (parsed.None? ==> r.weather == v.weather && r.entries == v.entries - {WEATHER_CACHE_KEY})
  {
    var cached := Lookup(v.entries, WEATHER_CACHE_KEY);
    if !Truthy(cached) then v
    else match cache.decode(cached.value)
      case Some(forecasts) => v.(weather := forecasts)
      case None => v.(entries := v.entries - {WEATHER_CACHE_KEY})
  }

  /** `fetchWeather`, given how its request ended. The session token is read
      from localStorage key 'accessToken' (the auth store has no
      `accessToken` field, so that operand of `||` is always undefined). */
  function FetchWeatherSpec(v: WeatherView, now: nat, response: Outcome<seq<Forecast>>,
                            toastId: string, cache: Codec<seq<Forecast>>): (r: WeatherView)
    ensures !Truthy(Lookup(v.entries, ACCESS_TOKEN_KEY)) ==> r == ShowErrorToastSpec(v, now, toastId)
    ensures Truthy(Lookup(v.entries, ACCESS_TOKEN_KEY)) && response.NotOk? ==>
      r == ShowErrorToastSpec(v, now, toastId)
    ensures Truthy(Lookup(v.entries, ACCESS_TOKEN_KEY)) && response.Ok? ==>
      r == v.(weather := response.payload,
              entries := v.entries[WEATHER_CACHE_KEY := cache.encode(response.payload)])
    ensures Truthy(Lookup(v.entries, ACCESS_TOKEN_KEY)) && response.Threw? ==>
      r == ShowErrorToastSpec(LoadCachedSpec(v, cache), now, toastId)
  {
    if !Truthy(Lookup(v.entries, ACCESS_TOKEN_KEY)) then ShowErrorToastSpec(v, now, toastId)
    else match response
      case NotOk(_) => ShowErrorToastSpec(v, now, toastId)
      case Ok(forecasts) =>
        v.(weather := forecasts, entries := v.entries[WEATHER_CACHE_KEY := cache.encode(forecasts)])
      case Threw(_) => ShowErrorToastSpec(LoadCachedSpec(v, cache), now, toastId)
  }

  /** A first toast shown at time t is followed by another one at `now` if
      and only if strictly more than ten minutes have passed. */
  lemma {:induction false} DebounceWindow(v: WeatherView, t: nat, now: nat, id1: string, id2: string)
    requires WEATHER_ERROR_TOAST_KEY !in v.entries
    ensures var shown := ShowErrorToastSpec(v, t, id1);
      && shown.toasts == v.toasts + [WeatherErrorToast(id1)]
      && (ShowErrorToastSpec(shown, now, id2) != shown <==> now - t > TOAST_DEBOUNCE_MS)
  {
    ParseIntOfNatToString(t);
  }

  /** A first error toast is always shown, and records its time. */
  lemma FirstErrorToastShown(v: WeatherView, now: nat, id: string)
    requires WEATHER_ERROR_TOAST_KEY !in v.entries
    ensures ShowErrorToastSpec(v, now, id).toasts == v.toasts + [WeatherErrorToast(id)]
  {
  }

  /** When the cache codec reads back what it wrote for these forecasts,
      forecasts fetched successfully are exactly what a later failed fetch
      falls back to. */
  lemma {:induction false} FallbackRestoresLastFetch(v: WeatherView, now: nat, later: nat, forecasts: seq<Forecast>,
                                                    error: string, id1: string, id2: string, cache: Codec<seq<Forecast>>)
    requires cache.decode(cache.encode(forecasts)) == Some(forecasts) && cache.encode(forecasts) != ""
    requires Truthy(Lookup(v.entries, ACCESS_TOKEN_KEY))
    ensures var fetched := FetchWeatherSpec(v, now, Ok(forecasts), id1, cache);
      FetchWeatherSpec(fetched, later, Threw(error), id2, cache).weather == forecasts
  {
    var fetched := FetchWeatherSpec(v, now, Ok(forecasts), id1, cache);
    assert Lookup(fetched.entries, ACCESS_TOKEN_KEY) == Lookup(v.entries, ACCESS_TOKEN_KEY);
  }

  class WeatherStore {
    var weather: seq<Forecast>
    const storage: LocalStorage
    const toastStore: ToastStore
    const cache: Codec<seq<Forecast>>

    function View(): WeatherView
      reads this, storage, toastStore
    {
      WeatherView(weather, toastStore.toasts, storage.entries)
    }

    /** Setting the store up loads the cached forecasts. */
    constructor (storage: LocalStorage, toastStore: ToastStore, cache: Codec<seq<Forecast>>)
      modifies storage
      ensures this.storage == storage && this.toastStore == toastStore && this.cache == cache
      ensures View() == LoadCachedSpec(WeatherView([], old(toastStore.toasts), old(storage.entries)), cache)
    {
      this.storage := storage;
      this.toastStore := toastStore;
      this.cache := cache;
      weather := [];
      new;
      LoadCachedWeather();
    }

    method ShowErrorToast(now: nat, toastId: string)
      modifies storage, toastStore
      ensures View() == ShowErrorToastSpec(old(View()), now, toastId)
    {
      var lastToastTime := storage.Get(WEATHER_ERROR_TOAST_KEY);
      if ShouldShowErrorToast(lastToastTime, now) {
        toastStore.AddToast(toastId, ERROR_MESSAGE, Error);
        storage.SetItem(WEATHER_ERROR_TOAST_KEY, NatToString(now));
      }
    }

    method LoadCachedWeather()
      modifies this, storage
      ensures View() == LoadCachedSpec(old(View()), cache)
    {
      var cached := storage.Get(WEATHER_CACHE_KEY);
      if Truthy(cached) {
        var parsed := cache.decode(cached.value);
        if parsed.Some? {
          weather := parsed.value;
        } else {
          storage.RemoveItem(WEATHER_CACHE_KEY);
        }
      }
    }

    method CacheWeather(data: seq<Forecast>)
      modifies storage
      ensures storage.entries == old(storage.entries)[WEATHER_CACHE_KEY := cache.encode(data)]
    {
      storage.SetItem(WEATHER_CACHE_KEY, cache.encode(data));
    }

    /** `fetchWeather`; city and days only shape the request URL. */
    method FetchWeather(now: nat, response: Outcome<seq<Forecast>>, toastId: string)
      modifies this, storage, toastStore
      ensures View() == FetchWeatherSpec(old(View()), now, response, toastId, cache)
    {
      var token := storage.Get(ACCESS_TOKEN_KEY);
      if !Truthy(token) {
        ShowErrorToast(now, toastId);
        return;
      }
      match response
      case NotOk(_) =>
        ShowErrorToast(now, toastId);
      case Ok(formattedData) =>
        weather := formattedData;
        CacheWeather(formattedData);
      case Threw(_) =>
        LoadCachedWeather();
        ShowErrorToast(now, toastId);
    }
  }
}
