# NASA space explorer gallery: a verified model

This project models the logic of a browser gallery for NASA's Astronomy Picture of
the Day feed (`js/script.js`). The user picks a start and an end date. The page loads
the whole feed once and keeps it for the session (`apodDatabase`). It selects the
entries dated within the range (`currentGalleryData`) and renders one card per entry.
Clicking a card opens a detail view (the modal), which shows an image, a video
thumbnail, an embedded YouTube player, or a placeholder.

The model is split by component:

- `entries.dfy` (module `Entries`): the feed's `Entry` record and the JavaScript value
  rules the code relies on. A `Date` is a day number or an invalid date, and every
  comparison with an invalid date is false. An optional string is "truthy" only when
  it is present and not empty.
- `range_filter.dfy` (module `RangeFilter`): `filterDataByDateRange`, as a recursive
  function. The lemmas prove that it is sound, complete (counting duplicates),
  order-preserving and idempotent. They also prove that its result is the one longest
  order-preserving selection of in-range entries, and they work the 2024-04-01..10
  example.
- `youtube.dfy` (module `YouTube`): `extractYouTubeId`. The regular expression at
  `js/script.js:264` is written out as the match a backtracking engine performs. The
  greedy `^.*` reaches up to the first line terminator and backs off to the rightmost
  position where an alternative matches. The alternatives are tried in order. The
  capture is the longest following run without `#`, `&` or `?`, and it is returned
  only when it has 11 characters.
- `media.dfy` (module `Media`): the pure source choices. These are the card image,
  the modal's media decision tree and the explanation fallback. The module also holds
  the gallery view, the state of the modal's elements, and the transitions
  `OpenView` and `CloseView`.
- `session.dfy` (module `SpaceExplorer`): range validation and class `Session`. The
  class holds the two globals, the results area and the modal. Its methods are the
  event handlers, each proved against the functions above. The invariant `Valid()`
  states that the selection is always the cache filtered by the last accepted range.
  It also states that a gallery of cards shows exactly that selection, card `i` for
  entry `i`.

The network request is a parameter (`FetchResult`): a parsed list of entries, or a
failure. Each handler call runs atomically.

The model follows the code as written, including these behaviours:

- A YouTube URL with no extractable 11-character identifier does not fall through to
  the placeholder. The player is removed and the image keeps whatever it showed
  before (`Media.OpenYouTubeWithoutId`).
- Opening a video that has a thumbnail neither removes a player left by an earlier
  YouTube video nor un-hides the image (`Media.OpenThumbnailKeepsEarlierPlayer`).
- Opening a non-YouTube video without a thumbnail sets the image to the placeholder
  but does not make it visible. After an earlier YouTube embed has hidden the image,
  the modal shows neither a player nor the placeholder (`Media.OpenOtherVideo`,
  `Media.PlaceholderAfterEmbedStaysHidden`).
- Every video gets the click-to-open handler, not only those shown by thumbnail.
- A date input that is filled in but does not parse passes validation, because
  `new Date(a) > new Date(b)` is false when either date is invalid. The filter then
  selects nothing (`SpaceExplorer.AcceptedRange`).

## Model

| member | source | states |
|---|---|---|
| `RangeFilter.Filter` | js/script.js:110-117 | Every returned entry satisfies start <= date <= end, inclusive at both ends and false for an unparseable date. The result is never longer than the dataset. |
| `RangeFilter.FilterIsSubsequence` | js/script.js:114-117 | The result is an order-preserving subsequence of the dataset. |
| `RangeFilter.FilterCount` | js/script.js:114-117 | An entry occurs in the result exactly as many times as in the dataset when its date is in range, and never otherwise (soundness and completeness). |
| `RangeFilter.FilterComplete` | js/script.js:114-117 | Every dataset entry dated within [start, end] is returned. |
| `RangeFilter.InRangeSubsequenceNoLonger` | js/script.js:114-117 | No order-preserving selection of in-range entries is longer than the filter's result. |
| `RangeFilter.FilterIsLongestSelection` | js/script.js:114-117 | Any in-range subsequence at least as long as the result equals it, so the result is the unique maximal in-range selection. |
| `RangeFilter.FilterIdempotent` | js/script.js:114-116 | Filtering the result again with the same range returns the same sequence. |
| `RangeFilter.FilterEmptyRange` | js/script.js:110-117 | A range with an invalid bound, or with start after end, selects nothing. |
| `RangeFilter.FilterAppend` | js/script.js:114-117 | Filtering a concatenation is the concatenation of the filtered parts. |
| `RangeFilter.FilterDailyFeed` | js/script.js:110-117 | On a feed with one entry per consecutive day, the result is exactly the run of days shared by the feed and [start, end], in order. |
| `RangeFilter.AprilExample` | js/script.js:110-117 | Entries dated 04-01..04-10 filtered by (04-03, 04-05) give exactly the entries of 04-03, 04-04 and 04-05, in that order. |
| `YouTube.FirstAlternativeFrom` | js/script.js:264 | At one position the alternatives are tried in order: the result is the first one that matches, and none before it matches. |
| `YouTube.LineEnd` | js/script.js:264 | The positions `^.*` can reach end at the first line terminator. |
| `YouTube.LastMatch` | js/script.js:264 | The greedy `^.*` backs off to the rightmost position where an alternative matches, and no position to its right matches. |
| `YouTube.RunEnd` | js/script.js:264 | `[^#&?]*` takes the longest run without `#`, `&` or `?`. |
| `YouTube.AlternativeMarker` | js/script.js:264 | A match of an alternative fixes one character of the url: a `/` for the first four alternatives, the `?` at offset 5 for `watch?v=`, the `&` at offset 0 for `&v=`. |
| `YouTube.ExtractYouTubeId` | js/script.js:263-267 | The result is null, or exactly 11 characters with no `#`, `&` or `?`. |
| `YouTube.ExtractAtRightmostMatch` | js/script.js:264-266 | When the group matches, the result is the maximal run after the rightmost match if that run has 11 characters, and null otherwise. |
| `YouTube.ExtractWithoutMatch` | js/script.js:264-266 | When no alternative matches at any reachable position, the result is null. |
| `YouTube.ExtractFromWatchUrl` | js/script.js:263-267 | For `<prefix>watch?v=<id>`, where the id holds no `/`, `#`, `&` or `?` and the prefix no line break, the result is `<id>` when it has 11 characters and null for any other length. |
| `Media.ContainsIsIncludes` | js/script.js:213 | The substring search `Contains` (for `includes`) holds exactly when the text occurs at some index of the url. |
| `Media.YouTubeHostOccurs` | js/script.js:213 | `IsYouTubeHost` holds exactly when `youtube.com` or `youtu.be` occurs in the url. |
| `Media.CardFor` | js/script.js:159-174 | A card carries the entry's title and date, shows the video badge exactly for videos, and shows the thumbnail for a video that has a non-empty one, else the url. |
| `Media.CardImage` | js/script.js:161-162 | A card shows the entry's url, or for a video the non-empty thumbnail url. An image card always shows the url. |
| `Media.CardImageChoice` | js/script.js:161-163 | A video card uses `thumbnail_url` when present and non-empty, else `url`. An image card uses `url` and has no video badge. |
| `Media.GalleryFor` | js/script.js:143-178 | The view is the empty-state view iff the selection is empty. Otherwise it has one card per entry, card i for entry i. |
| `Media.EmptySelectionIsNotAnError` | js/script.js:147-156 | An empty selection yields the empty-state view, never the error or loading view. |
| `Media.ModalMediaFor` | js/script.js:202-243 | Only non-video entries get a picture, and its source is `hdurl` or `url`. An embed carries an 11-character identifier that is the extraction result of the url. |
| `Media.ExplanationText` | js/script.js:247 | The explanation is the entry's own explanation, or "No explanation available.". It is never empty. |
| `Media.OpenView` | js/script.js:202-259 | After `openModal` the modal is shown and scrolling is locked. If a player present before an open always hid the image and had an 11-character identifier, the same holds after it. |
| `Media.CloseView` | js/script.js:270-274 | After `closeModal` the modal is hidden and the page scrolls. A player that hid the image still hides it. |
| `Media.OpenShowsEntry` | js/script.js:245-259 | After any open the modal is shown and scrolling is locked. Title, date and explanation come from the entry. A click opens the url exactly for videos. |
| `Media.OpenImage` | js/script.js:234-243 | An image shows `hdurl` if present, else `url`. The image is visible and no player remains. |
| `Media.OpenYouTubeVideo` | js/script.js:213-227 | A video with no thumbnail, a YouTube url and an extracted identifier gets a player for that identifier, and the image is hidden. |
| `Media.OpenWatchPageVideo` | js/script.js:213-227 | A video with no thumbnail at a `youtube.com ... watch?v=<11 characters>` url, where the id holds no `/`, `#`, `&` or `?` and the prefix no line break, is embedded with those 11 characters. |
| `Media.OpenYouTubeWithoutId` | js/script.js:208-216 | A YouTube url with no identifier gets neither a player nor the placeholder, and the image is left as it was. |
| `Media.OpenOtherVideo` | js/script.js:228-232 | A non-YouTube video with no thumbnail sets the image to the "Video Content" placeholder and removes any player. The image's visibility is left as it was. |
| `Media.PlaceholderAfterEmbedStaysHidden` | js/script.js:208-232 | After a YouTube embed, opening a non-YouTube video without a thumbnail leaves no player, and the placeholder image stays hidden. |
| `Media.OpenThumbnailKeepsEarlierPlayer` | js/script.js:204-206 | A video with a thumbnail shows the thumbnail. A player and a hidden image left by an earlier open stay as they were. |
| `Media.CloseRestoresScrolling` | js/script.js:270-274 | Closing hides the modal and unlocks scrolling, changes nothing else, and is idempotent. |
| `SpaceExplorer.ValidateRange` | js/script.js:69-77 | The search is accepted iff both dates are filled in and start is not after end. The missing-date alert is shown exactly when a date is empty. |
| `SpaceExplorer.AcceptedRange` | js/script.js:74-77 | An accepted range with two valid dates has start <= end. One with an unparseable date selects nothing. |
| `SpaceExplorer.Session.Valid` | js/script.js:88-92 | The selection is the cache filtered by the last accepted range, so it is never longer than the cache. A gallery of cards has one card per selected entry. A player in the modal always hides the image. |
| `SpaceExplorer.Session.constructor` | js/script.js:19-20 | The page starts with an empty cache and an empty selection, and the modal is closed. |
| `SpaceExplorer.Session.ShowLoading` | js/script.js:121-129 | The results area shows the loading view, and the session invariant still holds. |
| `SpaceExplorer.Session.ShowError` | js/script.js:132-140 | The results area shows the error view with the message, and the session invariant still holds. |
| `SpaceExplorer.Session.LoadApodData` | js/script.js:101-107 | The cache is replaced by the feed when the request succeeds, and is left unchanged when it fails. |
| `SpaceExplorer.Session.DisplayGallery` | js/script.js:143-178 | The selection is replaced wholesale by the data, and the view is the one rendered for it. |
| `SpaceExplorer.Session.FetchAndDisplayImages` | js/script.js:64-98 | A rejected range changes nothing and makes no request. A request is made only while the cache is empty. On success, loading is shown, then the filtered cache is shown and becomes the selection. On failure, loading then the error view is shown and the selection and cache are kept. The invariant is preserved. |
| `SpaceExplorer.Session.OpenModal` | js/script.js:191-260 | An index outside the selection changes nothing. Otherwise the modal becomes `OpenView` of that entry, and card i opens the entry it was rendered from. |
| `SpaceExplorer.Session.CloseModal` | js/script.js:270-274 | The modal becomes `CloseView` of the previous one. |
| `SpaceExplorer.RetryThenCache` | js/script.js:82-107 | A failed load is retried by the next search. Once a non-empty feed is loaded, no later search requests it. |

## Left out

- HTML templating and the DOM. Only the gallery's view and the modal's element state
  are modelled (shown, scroll lock, image source/alt/hidden, player, texts, click target).
  The markup, CSS classes and the image cursor style (which follows the click target)
  are not.
- `fetch` and `response.json()` are foreign network calls. They become the
  `FetchResult` parameter. The body is taken to be a list of entries; a body that
  parses to `null` or to an object makes the code throw later in ways not modelled.
- Parsing the date text with `new Date` is a library call, so dates enter the model
  already parsed as day numbers or as invalid.
- `formatDate` and `setDefaultDates` depend on the host locale, timezone and clock.
  The modal records the entry's date, not its formatted text.
- `displayRandomSpaceFact` draws from `Math.random` and is purely cosmetic.
- `alert` and `console.error` are browser calls. The validation alert is returned as
  the method's `alert` result, and the console message is dropped.
- `window.open` is recorded only as the url the image's click handler would open.
- The `DOMContentLoaded` wiring of the listeners is not modelled. The close button and
  a click on the backdrop both call `CloseModal`.
- Overlapping requests from repeated clicks are asynchronous interleaving. Each
  handler call is atomic here.
- Entries whose `url` or `title` is missing are not modelled: `url` and `title` are
  strings. A missing `url` makes `openModal` throw for a video without a thumbnail
  (`item.url.includes` at js/script.js:213).
- The page's initial markup is not part of this model. The results area starts as
  `Initial`, and the modal starts closed with empty texts.
- `YouTube.ExtractYouTubeId` counts characters as Unicode scalar values. JavaScript
  (the regular expression has no `u` flag) counts UTF-16 code units. A character
  outside the Basic Multilingual Plane is one character here and two code units in
  JavaScript. Anywhere in the url it can change the result: at the `.` of `youtu.be`
  (where JavaScript's `.` takes only one code unit, so `youtu😀be/` does not match)
  or inside the captured run (where it changes the length compared with 11).
