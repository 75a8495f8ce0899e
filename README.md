# Start-page dashboard: link registry, clock text and widget updates

This project models the stateful core of a browser start page, the script
`SCRIPT/script.js`, and proves properties about that model.

- **Link registry.** The `savedLinks` list of `{title, url}` records is mirrored
  in local storage under the key `links`. At page load it is read once, and an
  absent key gives the empty list. The link form appends a record with no
  validation and writes the whole list. A delete button removes the *first*
  record whose url matches its own, and writes the list only when a record was
  actually removed. Then it removes its own element from the widget.
- **Link widget.** There is one rendered element per record. Each element has
  the record's title, the url as its target, and a favicon source derived from
  the url (`LinkView.LinkElement.Favicon`).
- **Clock text.** The time is a zero-padded `HH:MM`. The date is the padded day,
  the month's name from a twelve-entry table, and the year.
- **View updates.** `toggleModal` shows or hides a modal. Every form submit ends
  with the owning modal hidden and the form reset. A city submit stores
  `userCity` and then calls `fetchWeather` with the typed text. A non-empty
  name asks for that city's forecast. An empty one locates the device first
  (line 107). The weather widget is replaced by the items for "Today",
  "Tomorrow" and a weekday. The joke widget is replaced by exactly one joke.
- **Error banner.** A failed weather fetch and a failed background fetch show a
  fixed message in the banner (lines 119-120 and 141-142). A failed joke fetch
  only logs. A weather payload with fewer than three days makes
  `populateWeatherWidget` throw after the old items are gone (line 271). That
  call is not awaited (line 118), so the `catch` at line 119 never sees the
  throw. No banner appears, and the items built before the throw stay
  (`Page.Dashboard.PopulateWeather`).

Modules:

- `Links` (links.dfy) holds the record type, the first-match scan behind
  `findIndex`, the `splice` that follows it, and the reference definition
  `RemoveFirst` with its lemmas.
- `Storage` (storage.dfy) holds the local-storage entries, loading the registry
  and writing it back.
- `LinkView` (link_view.dfy) holds the rendered link elements and the favicon url.
- `Clock` (clock.dfy) holds decimal printing, `padStart`, the month table, the
  time and date texts, and their readers.
- `Page` (page.dfy) holds the class `Dashboard`. Its fields are the state the
  page's `DOMContentLoaded` handler keeps. Its methods are the event handlers.
- `Optional` (option.dfy) holds an `Option` type.

`Dashboard.Valid()` is the invariant that every handler keeps:

- the stored `links` entry reads back as exactly the in-memory list;
- the link widget's targets are the records' urls, as a multiset.

The multiset is needed because of how the delete button works. It removes its
own element but the first record with that url. With duplicate urls the two
drift apart (`LinkView.DuplicateUrlsDiverge`). With distinct urls the widget
stays exactly the rendering of the list (`LinkView.DistinctUrlsStayInSync`).

Three behaviours of the code are easy to miss:

- A delete with no match writes nothing (lines 380-383).
- An unparseable `links` entry makes `JSON.parse` throw at line 14, and then
  nothing on the page is set up (`Page.Dashboard.Start` returns null).
- The background fetch's `catch` also calls `showError` (line 142).

## Model

| member | source | states |
|---|---|---|
| Links.IndexOfUrl | SCRIPT/script.js:379 | the index is -1 exactly when no record has the url; otherwise it points at a record with that url and no earlier record has it |
| Links.FindIndex | SCRIPT/script.js:379 | the `findIndex` scan returns exactly `IndexOfUrl`: -1 iff there is no match, and otherwise the first record whose url matches |
| Links.RemoveAt | SCRIPT/script.js:381 | `splice(k, 1)` shortens the list by one, keeps the records before `k`, and shifts the ones after it down by one |
| Links.RemoveAtMultiset | SCRIPT/script.js:381 | `splice(k, 1)` takes exactly `s[k]` out of the multiset of elements |
| Links.RemoveFirstIsSplice | SCRIPT/script.js:379-381 | find-then-splice equals the reference first-match removal: with a match it removes the record at the first matching index, and without one the list is unchanged |
| Links.RemoveFirstRemovesOne | SCRIPT/script.js:379-382 | a delete by url removes exactly one record (the first match) when one matches, and nothing otherwise |
| Links.RemoveFirstUrls | SCRIPT/script.js:379-381 | a delete by url takes exactly one occurrence of the url out of the multiset of urls (none if there is none) |
| Links.RemoveFirstDuplicates | SCRIPT/script.js:379-381 | `[{A,x},{B,x}]` becomes `[{B,x}]` |
| Links.IndexOfDistinctUrl | SCRIPT/script.js:379 | when no earlier record shares the url of record `k`, looking it up finds `k` |
| Storage.LoadLinks | SCRIPT/script.js:14 | the registry read at page load: an absent entry gives the empty list, a stored list gives that list, and it fails exactly when the entry is other text |
| Storage.SaveLinks | SCRIPT/script.js:421 | writing the list replaces the `links` entry, reading it back gives that same list, and no other entry changes |
| Storage.LoadIgnoresOtherKeys | SCRIPT/script.js:424 | writing another key (such as `userCity`) does not change what the registry loads from |
| LinkView.FaviconUrl | SCRIPT/script.js:359 | the favicon source is the service prefix, then the url exactly as given (no encoding), then the size suffix |
| LinkView.LinkElement.Favicon | SCRIPT/script.js:358-360 | an element's favicon source names the element's own target: reading the url back out of it gives the href |
| LinkView.FaviconRoundTrip | SCRIPT/script.js:359 | the favicon source determines its url: stripping the service prefix and the size suffix gives the url back |
| LinkView.ElementOf | SCRIPT/script.js:354-369 | `createLinkElement(title, url)` shows the record's title and links to its url |
| LinkView.Render | SCRIPT/script.js:223-231 | the startup rendering has one element per record, in stored order, each built from its record |
| LinkView.HrefsOfRender | SCRIPT/script.js:364 | the rendered elements' targets are the records' urls, in order |
| LinkView.HrefsOfRemoveAt | SCRIPT/script.js:384 | removing element `k` takes exactly its target out of the multiset of targets |
| LinkView.RenderOfSplice | SCRIPT/script.js:381-384 | splicing out record `k` and re-rendering equals removing element `k` from the rendering |
| LinkView.DistinctUrlsStayInSync | SCRIPT/script.js:378-385 | when no earlier record shares its url (so whenever urls are distinct), the delete button of element `k` leaves the widget equal to the rendering of the list after the delete |
| LinkView.DuplicateUrlsDiverge | SCRIPT/script.js:378-385 | with `[{A,x},{B,x}]`, deleting element 1 leaves `{A,x}` on screen but `{B,x}` in the list |
| Clock.NatToString | SCRIPT/script.js:206 | `String(n)` is a non-empty digit string, one digit below 10 and two digits below 100, and it starts with `0` only for 0 itself (no leading zero) |
| Clock.ParseNatToString | SCRIPT/script.js:206 | the decimal text of `n` reads back as `n` |
| Clock.PadStart | SCRIPT/script.js:206-208 | `padStart` gives as length the larger of `width` and the length of `s`, ends with `s`, and is filled before it |
| Clock.TwoDigits | SCRIPT/script.js:206 | `padStart(2, "0")` gives at least two digits; a one-digit number gains a leading `0`, and a longer one is left as `String(n)` |
| Clock.TwoDigitsRoundTrip | SCRIPT/script.js:206-209 | below 100 the padded field is exactly two digits and reads back as the number |
| Clock.TimeString | SCRIPT/script.js:206-208 | the time text is at least five characters; its colon sits right after the hour field, and the text on both sides of it is digits |
| Clock.TimeStringShape | SCRIPT/script.js:206-208 | for hour < 24 and minute < 60 the time text has length 5 with `:` at index 2, and its fields read back as the hour and the minute |
| Clock.MonthIndexOfName | SCRIPT/script.js:191-204 | the month table has 12 names, each name contains no space, and each identifies its own index |
| Clock.YearString | SCRIPT/script.js:211 | `String(year)` starts with `-` exactly for a negative year; the rest is digits with no leading zero, except in "0" itself |
| Clock.ParseYearString | SCRIPT/script.js:211 | `String(year)`, with a sign for negative years, reads back as the year |
| Clock.ParseMonthYearOf | SCRIPT/script.js:209-211 | the `MonthName Year` part of the date text reads back as the month index and the year |
| Clock.DateString | SCRIPT/script.js:209-211 | the date text is the digit day field, a space, the month's name at the position right after it, a second space, and the year text, which ends it; its length is the sum of the parts |
| Clock.ParseDateString | SCRIPT/script.js:209-211 | the date text, read back, gives exactly its padded day (below 100), month index and year |
| Page.RequestFor | SCRIPT/script.js:105-115 | `fetchWeather` asks for the named city's forecast exactly when the name is non-empty, and otherwise locates the device first |
| Page.FormFields | SCRIPT/script.js:429 | the inputs `form.reset()` clears: the link form owns the title and url inputs, the city form owns the city input, and no form owns another's input |
| Page.ResetInputs | SCRIPT/script.js:429 | `form.reset()` empties the form's own inputs and leaves every other input as it was |
| Page.Dashboard.constructor | SCRIPT/script.js:14 | page load: an absent `links` entry gives an empty registry, otherwise the stored list; every record is rendered in order; the invariant holds |
| Page.Dashboard.Start | SCRIPT/script.js:14 | page load fails (nothing is set up) exactly when the `links` entry is not a link list; otherwise it yields a valid dashboard holding the stored list |
| Page.Dashboard.LoadSavedLinks | SCRIPT/script.js:223-231 | the loop appends one element per record, in list order |
| Page.Dashboard.AddLink | SCRIPT/script.js:420-421 | the record `{title, url}` is appended with no validation, and the stored entry then equals the new list |
| Page.Dashboard.DeleteLink | SCRIPT/script.js:379-383 | removes the first record with the url iff one exists, leaving the others in order; it writes the list only then; with no match neither the list nor the storage changes |
| Page.Dashboard.ClickDelete | SCRIPT/script.js:378-385 | a delete click always removes a record (the first with the element's url), always removes the clicked element, and keeps the invariant |
| Page.Dashboard.ToggleModal | SCRIPT/script.js:437-440 | the named modal becomes shown or hidden as asked; an unknown id changes nothing |
| Page.Dashboard.CloseModal | SCRIPT/script.js:74-79 | a close button hides its modal |
| Page.Dashboard.SubmitForm | SCRIPT/script.js:404-432 | the link form appends the typed record to the list, the storage and the widget; the city form stores `userCity` and requests that city's weather; any branch ends with the modal hidden and the form reset; the invariant holds |
| Page.Dashboard.SubmitLink | SCRIPT/script.js:410-421 | the link branch renders the typed `{title, url}`, appends it to the list and writes the list; the invariant holds |
| Page.Dashboard.SubmitCity | SCRIPT/script.js:422-425 | the city branch stores `userCity` as typed and then requests weather for that same city |
| Page.Dashboard.PopulateWeather | SCRIPT/script.js:267-299 | the old items go; with three forecast days there are exactly three items, labelled Today, Tomorrow and the weekday, each carrying its day's forecast; a shorter payload leaves one item per day present |
| Page.Dashboard.PopulateJoke | SCRIPT/script.js:304-320 | the joke widget holds exactly one item, the new joke |
| Page.Dashboard.ShowError | SCRIPT/script.js:395-399 | the banner is shown with the message |
| Page.Dashboard.WeatherFetchFailed | SCRIPT/script.js:119-122 | a weather failure shows the fixed weather message and leaves the forecast items untouched |
| Page.Dashboard.BackgroundFetchFailed | SCRIPT/script.js:141-144 | a background failure shows the fixed background message |
| Page.Dashboard.ShowClock | SCRIPT/script.js:190-215 | writes the time text and the date text of the given calendar fields |

`Page.Dashboard.EnterText` is the user typing into an input. It has no
counterpart in the script.

## Left out

- The network requests are not modelled: `fetchWeather`, `fetchUnsplash`,
  `setChuckNorris`, their URLs and the API keys of `config.js`. A weather request
  is recorded in `weatherRequests`. Replies, and failures, enter as method calls
  with the payload as parameters.
- `getCurrentLocation`, geolocation and reverse geocoding (lines 107-113 and
  167-185) are asynchronous browser capabilities. `LocateThenForecast` records
  only that this path was taken.
- The `setInterval` ticking and `new Date()` are not modelled. The calendar
  fields are parameters of `ShowClock`, and the weekday name is a parameter of
  `PopulateWeather`, because `toLocaleDateString` and date arithmetic are locale
  library behaviour.
- Page.Dashboard.PopulateWeather: a weather item holds the raw temperature text,
  not the `°C` text the element shows. The icon's alt text, CSS classes and
  element structure are also not kept.
- JSON encoding is not modelled. A `links` entry is either a link list, exactly
  as the script writes it, or other text.
- Other text under `links` always counts as a startup failure. The script
  differs for two kinds of text that it never writes itself:
  - text that parses to a falsy JSON value (`null`, `false`, `0`) gives the
    empty list;
  - a JSON array whose elements are non-null but not records (`[1]`,
    `[{"title":"t"}]`) loads without a throw, and `createLinkElement` then gets
    `undefined` fields (line 228). An array with a `null` element (`[null]`)
    throws at line 228, a startup failure as in the model.
- `localStorage` is taken to be written only by this page, and `setItem` never
  fails. Other tabs of the same origin share the storage; a write of `links`
  from one of them breaks the mirror invariant, and this page's next add or
  delete overwrites it. A `setItem` that throws (quota, disabled storage) would
  leave the storage behind `savedLinks`. At line 421 it would also skip the
  modal close and the form reset. At line 382 it would leave the element on
  screen.
- The preferences are not part of this model: the restore of the background
  image, title and notes (lines 15-17, 237-262), their input handlers (lines
  50-55, 65-68), and the startup weather fetch for a stored city (line 93).
  They touch keys other than `links` (`Storage.LoadIgnoresOtherKeys`).
- A joke fetch failure only logs, so it changes no state. `console.error` is not
  modelled.
- `form.reset()` restores each input's default value. The model takes that
  default to be empty text.
- A delete click is identified by the position of its element in the link
  widget. Element identity and event-listener closures are not modelled.
- `populateWeatherWidget` and `populateChuckNorris` are `async`. Their effects
  are modelled as happening at once.
