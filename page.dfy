/** The state that the start page's `DOMContentLoaded` handler
    (SCRIPT/script.js) keeps and updates: the `savedLinks` registry and its
    mirror in local storage, the link, weather and joke widgets, the modals,
    the form inputs, the error banner, the clock text, and a log of the
    weather requests made. Network replies arrive as method parameters. */
module Page {
  import opened Links
  import opened Storage
  import opened LinkView
  import opened Clock
  import opened Optional

  const LinkFormId: string := "link-form"
  const CityFormId: string := "city-form"
  const LinkTitleInput: string := "link-title"
  const LinkUrlInput: string := "link-url"
  const CityInput: string := "city-input"

  const WeatherErrorMessage: string := "Unable to fetch weather data. Please try again later."
  const BackgroundErrorMessage: string := "Unable to fetch background image. Please try again later."

  /** A call of `fetchWeather`: an empty city name makes it locate the
      device first, any other name asks for that city's forecast. */
  datatype WeatherRequest = CityForecast(city: string) | LocateThenForecast

  function RequestFor(city: string): (r: WeatherRequest)
    ensures r.CityForecast? <==> city != ""
    ensures r.CityForecast? ==> r.city == city
  {
    if city == "" then LocateThenForecast else CityForecast(city)
  }

  /** One day of the forecast payload; its fields are kept as opaque text. */
  datatype DayForecast = DayForecast(condition: string, temperature: string, icon: string)

  /** One rendered weather item: the day label and that day's forecast. */
  datatype WeatherItem = WeatherItem(day: string, condition: string, temperature: string, icon: string)

  /** The inputs a form's `reset()` clears. */
  function FormFields(formId: string): (r: set<string>)
    ensures r <= {LinkTitleInput, LinkUrlInput, CityInput}
    ensures LinkTitleInput in r <==> formId == LinkFormId
    ensures LinkUrlInput in r <==> formId == LinkFormId
    ensures CityInput in r <==> formId == CityFormId
  {
    if formId == LinkFormId then {LinkTitleInput, LinkUrlInput}
    else if formId == CityFormId then {CityInput}
    else {}
  }

  /** The inputs after `form.reset()`: the form's own fields are empty again
      and every other input keeps its text. */
  function ResetInputs(inputs: map<string, string>, fields: set<string>): (r: map<string, string>)
    ensures r.Keys == inputs.Keys
    ensures forall k :: k in inputs && k in fields ==> r[k] == ""
    ensures forall k :: k in inputs && k !in fields ==> r[k] == inputs[k]
  {
    map k | k in inputs :: if k in fields then "" else inputs[k]
  }

  class Dashboard {
    var savedLinks: seq<Link>
    var storage: map<string, Stored>
    var linkWidget: seq<LinkElement>
    var weatherWidget: seq<WeatherItem>
    var chuckWidget: seq<string>
    /** Modal id to "is displayed". */
    var modals: map<string, bool>
    /** Input id to its current text. */
    var inputs: map<string, string>
    var errorText: string
    var errorShown: bool
    var weatherRequests: seq<WeatherRequest>
    var timeText: string
    var dateText: string

    /** The stored `links` entry is exactly the in-memory list; the link
        widget shows one element per record url (the same urls, as a
        multiset); the page's form inputs exist. */
    ghost predicate Valid()
      reads this
    {
      LoadLinks(storage) == Ok(savedLinks) &&
      multiset(Hrefs(linkWidget)) == multiset(Urls(savedLinks)) &&
      LinkTitleInput in inputs && LinkUrlInput in inputs && CityInput in inputs
    }

    /** Page load with a readable `links` entry: the registry is what was
        stored (nothing when the key is absent) and every record is
        rendered, in stored order. */
    constructor (storage: map<string, Stored>, modalIds: set<string>, inputs: map<string, string>)
      requires LoadLinks(storage).Ok?
      requires LinkTitleInput in inputs && LinkUrlInput in inputs && CityInput in inputs
      ensures Valid()
      ensures LinksKey !in storage ==> savedLinks == []
      ensures LinksKey in storage ==> savedLinks == storage[LinksKey].links
      ensures this.storage == storage && this.inputs == inputs
      ensures linkWidget == Render(savedLinks)
      // The startup fetches (the stored city's weather at line 93 and the
      // background at line 242) are outside this model, so none is recorded.
      ensures weatherWidget == [] && chuckWidget == [] && weatherRequests == []
      ensures modals == map id | id in modalIds :: false
      ensures !errorShown
    {
      savedLinks := LoadLinks(storage).value;
      this.storage := storage;
      linkWidget := [];
      weatherWidget := [];
      chuckWidget := [];
      modals := map id | id in modalIds :: false;
      this.inputs := inputs;
      errorText := "";
      errorShown := false;
      weatherRequests := [];
      timeText := "";
      dateText := "";
      new;
      LoadSavedLinks();
      assert linkWidget == Render(savedLinks);
      HrefsOfRender(savedLinks);
    }

    /** Page load: `JSON.parse(localStorage.getItem("links")) || []` throws
        on a `links` entry that is not a link list, and nothing is set up. */
    static method Start(storage: map<string, Stored>, modalIds: set<string>, inputs: map<string, string>)
      returns (d: Dashboard?)
      requires LinkTitleInput in inputs && LinkUrlInput in inputs && CityInput in inputs
      ensures LoadLinks(storage).Err? ==> d == null
      ensures LoadLinks(storage).Ok? ==>
        d != null && fresh(d) && d.Valid() && d.storage == storage &&
        d.savedLinks == LoadLinks(storage).value && d.linkWidget == Render(d.savedLinks)
    {
      if LoadLinks(storage).Err? {
        return null;
      }
      d := new Dashboard(storage, modalIds, inputs);
    }

    /** `loadSavedLinks`: one element per record, inserted in list order. */
    method LoadSavedLinks()
      modifies this`linkWidget
      ensures linkWidget == old(linkWidget) + Render(savedLinks)
    {
      for i := 0 to |savedLinks|
        invariant linkWidget == old(linkWidget) + Render(savedLinks[..i])
      {
        assert Render(savedLinks[..i + 1]) == Render(savedLinks[..i]) + [ElementOf(savedLinks[i])];
        linkWidget := linkWidget + [ElementOf(savedLinks[i])];
      }
      assert savedLinks[..|savedLinks|] == savedLinks;
    }

    /** `savedLinks.push({ title, url })` and the write of the whole list:
        no validation, duplicates allowed. */
    method AddLink(title: string, url: string)
      modifies this`savedLinks, this`storage
      ensures savedLinks == old(savedLinks) + [Link(title, url)]
      ensures storage == SaveLinks(old(storage), savedLinks)
      ensures LoadLinks(storage) == Ok(savedLinks)
    {
      savedLinks := savedLinks + [Link(title, url)];
      storage := SaveLinks(storage, savedLinks);
    }

    /** The registry part of the delete handler: find the first record with
        `url`, splice it out and write the list, or do nothing at all (not
        even a write) when no record has that url. */
    method DeleteLink(url: string) returns (removed: bool)
      modifies this`savedLinks, this`storage
      ensures removed <==> HasUrl(old(savedLinks), url)
      ensures savedLinks == RemoveFirst(old(savedLinks), url)
      ensures removed ==> storage == SaveLinks(old(storage), savedLinks)
      ensures !removed ==> savedLinks == old(savedLinks) && storage == old(storage)
    {
      RemoveFirstIsSplice(savedLinks, url);
      var index := FindIndex(savedLinks, url);
      if index != -1 {
        savedLinks := savedLinks[..index] + savedLinks[index + 1..];
        storage := SaveLinks(storage, savedLinks);
        removed := true;
      } else {
        removed := false;
      }
    }

    /** A click on the delete button of the `k`-th link element: the first
        record with that element's url leaves the registry, and that
        element (not necessarily the one rendered for the removed record)
        leaves the widget. */
    method ClickDelete(k: nat) returns (removed: bool)
      requires Valid() && k < |linkWidget|
      modifies this`savedLinks, this`storage, this`linkWidget
      ensures Valid()
      ensures removed
      ensures savedLinks == RemoveFirst(old(savedLinks), old(linkWidget)[k].href)
      ensures storage == SaveLinks(old(storage), savedLinks)
      ensures linkWidget == RemoveAt(old(linkWidget), k)
    {
      var url := linkWidget[k].href;
      assert url in multiset(Urls(savedLinks)) by {
        assert Hrefs(linkWidget)[k] == url;
      }
      ghost var i :| 0 <= i < |savedLinks| && Urls(savedLinks)[i] == url;
      assert savedLinks[i].url == url;
      RemoveFirstUrls(savedLinks, url);
      HrefsOfRemoveAt(linkWidget, k);
      removed := DeleteLink(url);
      linkWidget := linkWidget[..k] + linkWidget[k + 1..];
    }

    /** The user typing into an input of the page. */
    method EnterText(inputId: string, text: string)
      requires Valid() && inputId in inputs
      modifies this`inputs
      ensures Valid()
      ensures inputs == old(inputs)[inputId := text]
    {
      inputs := inputs[inputId := text];
    }

    /** `toggleModal`: shows or hides the modal with that id; an id with no
        modal makes `getElementById` return null and the handler throw, so
        nothing changes. */
    method ToggleModal(modalId: string, show: bool) returns (found: bool)
      modifies this`modals
      ensures found <==> modalId in old(modals)
      ensures found ==> modals == old(modals)[modalId := show] && modals[modalId] == show
      ensures !found ==> modals == old(modals)
    {
      found := modalId in modals;
      if found {
        modals := modals[modalId := show];
      }
    }

    /** A close button hides the modal it sits in. */
    method CloseModal(modalId: string)
      requires modalId in modals
      modifies this`modals
      ensures modals == old(modals)[modalId := false]
    {
      modals := modals[modalId := false];
    }

    /** The submit handler of every form: the link form renders and appends
        a record and writes the list; the city form stores the city and then
        asks for its weather; any other form dispatches nothing. Then the
        owning modal is hidden and the form reset, whichever branch ran;
        a modal id with no modal throws before either happens. */
    method SubmitForm(formId: string, modalId: string)
      requires Valid()
      modifies this`savedLinks, this`storage, this`linkWidget, this`weatherRequests
      modifies this`modals, this`inputs
      ensures Valid()
      ensures formId == LinkFormId ==>
        var link := Link(old(inputs)[LinkTitleInput], old(inputs)[LinkUrlInput]);
        savedLinks == old(savedLinks) + [link] &&
        storage == SaveLinks(old(storage), savedLinks) &&
        linkWidget == old(linkWidget) + [ElementOf(link)] &&
        weatherRequests == old(weatherRequests)
      ensures formId == CityFormId ==>
        var city := old(inputs)[CityInput];
        storage == old(storage)[CityKey := Text(city)] &&
        weatherRequests == old(weatherRequests) + [RequestFor(city)] &&
        savedLinks == old(savedLinks) && linkWidget == old(linkWidget)
      ensures formId != LinkFormId && formId != CityFormId ==>
        savedLinks == old(savedLinks) && storage == old(storage) &&
        linkWidget == old(linkWidget) && weatherRequests == old(weatherRequests)
      ensures modalId in old(modals) ==>
        modals == old(modals)[modalId := false] && !modals[modalId] &&
        inputs == ResetInputs(old(inputs), FormFields(formId))
      ensures modalId !in old(modals) ==> modals == old(modals) && inputs == old(inputs)
    {
      if formId == LinkFormId {
        SubmitLink();
      } else if formId == CityFormId {
        SubmitCity();
      }
      var found := ToggleModal(modalId, false);
      if found {
        inputs := ResetInputs(inputs, FormFields(formId));
      }
    }

    /** The link-form branch: render the typed record, then append it and
        write the list. */
    method SubmitLink()
      requires Valid()
      modifies this`savedLinks, this`storage, this`linkWidget
      ensures Valid()
      ensures var link := Link(inputs[LinkTitleInput], inputs[LinkUrlInput]);
        savedLinks == old(savedLinks) + [link] &&
        storage == SaveLinks(old(storage), savedLinks) &&
        linkWidget == old(linkWidget) + [ElementOf(link)]
    {
      var title := inputs[LinkTitleInput];
      var url := inputs[LinkUrlInput];
      linkWidget := linkWidget + [ElementOf(Link(title, url))];
      AddLink(title, url);
      assert Hrefs(linkWidget) == old(Hrefs(linkWidget)) + [url];
      assert Urls(savedLinks) == old(Urls(savedLinks)) + [url];
    }

    /** The city-form branch: store the city, then ask for its weather. */
    method SubmitCity()
      requires Valid()
      modifies this`storage, this`weatherRequests
      ensures Valid()
      ensures storage == old(storage)[CityKey := Text(inputs[CityInput])]
      ensures weatherRequests == old(weatherRequests) + [RequestFor(inputs[CityInput])]
    {
      var city := inputs[CityInput];
      LoadIgnoresOtherKeys(storage, CityKey, Text(city));
      storage := storage[CityKey := Text(city)];
      weatherRequests := weatherRequests + [RequestFor(city)];
    }

    /** `populateWeatherWidget`: the old items go, then one item per day is
        inserted, labelled "Today", "Tomorrow" and the given weekday name. A
        payload with fewer than three days throws at the first missing one,
        leaving the items inserted so far. */
    method PopulateWeather(forecast: seq<DayForecast>, weekday: string)
      modifies this`weatherWidget
      ensures |weatherWidget| == if |forecast| < 3 then |forecast| else 3
      ensures forall i :: 0 <= i < |weatherWidget| ==>
        weatherWidget[i].condition == forecast[i].condition &&
        weatherWidget[i].temperature == forecast[i].temperature &&
        weatherWidget[i].icon == forecast[i].icon
      ensures |weatherWidget| > 0 ==> weatherWidget[0].day == "Today"
      ensures |weatherWidget| > 1 ==> weatherWidget[1].day == "Tomorrow"
      ensures |weatherWidget| > 2 ==> weatherWidget[2].day == weekday
    {
      weatherWidget := [];
      var days := ["Today", "Tomorrow", weekday];
      var i := 0;
      while i < 3 && i < |forecast|
        invariant 0 <= i <= 3 && i <= |forecast|
        invariant |weatherWidget| == i
        invariant forall j :: 0 <= j < i ==>
          weatherWidget[j] == WeatherItem(days[j], forecast[j].condition, forecast[j].temperature, forecast[j].icon)
      {
        var day := forecast[i];
        weatherWidget := weatherWidget + [WeatherItem(days[i], day.condition, day.temperature, day.icon)];
        i := i + 1;
      }
    }

    /** `populateChuckNorris`: the old joke items go and exactly one item,
        holding the new joke, takes their place. */
    method PopulateJoke(joke: string)
      modifies this`chuckWidget
      ensures chuckWidget == [joke]
    {
      chuckWidget := [joke];
    }

    /** `showError`: the banner shows the message. */
    method ShowError(message: string)
      modifies this`errorText, this`errorShown
      ensures errorText == message && errorShown
    {
      errorText := message;
      errorShown := true;
    }

    /** The `catch` of `fetchWeather`: the banner shows the fixed weather
        message and the forecast items already shown stay. */
    method WeatherFetchFailed()
      modifies this`errorText, this`errorShown
      ensures errorText == WeatherErrorMessage && errorShown
    {
      ShowError(WeatherErrorMessage);
    }

    /** The `catch` of `fetchUnsplash`: the banner shows the fixed
        background message. */
    method BackgroundFetchFailed()
      modifies this`errorText, this`errorShown
      ensures errorText == BackgroundErrorMessage && errorShown
    {
      ShowError(BackgroundErrorMessage);
    }

    /** `myClock`: writes the time and date texts for the given calendar
        fields (what they carry is stated by `TimeStringShape` and
        `ParseDateString`). */
    method ShowClock(hour: nat, minute: nat, day: nat, month: nat, year: int)
      requires month < |MonthNames|
      modifies this`timeText, this`dateText
      ensures timeText == TimeString(hour, minute)
      ensures dateText == DateString(day, month, year)
    {
      timeText := TimeString(hour, minute);
      dateText := DateString(day, month, year);
    }
  }
}
