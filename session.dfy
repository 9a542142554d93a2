/** The page's controller: the two module globals `apodDatabase` and
    `currentGalleryData`, the results area and the modal, and the handlers that
    change them (`fetchAndDisplayImages`, `loadApodData`, `displayGallery`,
    `showLoading`, `showError`, `openModal`, `closeModal`). */
module SpaceExplorer {
  import opened Entries
  import opened RangeFilter
  import opened Media
  import YouTube

  const MissingDatesAlert: string := "Please select both start and end dates."
  const InvertedRangeAlert: string := "Start date must be earlier than end date."
  const LoadFailedMessage: string := "Failed to load space images. Please try again."

  /** The value of a date input: empty, or a text that `new Date` turns into a Date
      (possibly an invalid one). */
  datatype DateInput = Blank | Entered(date: Date)

  /** What the one request for the feed yields: the parsed list of entries, or a
      failure (a non-ok status, a network error, or a body that does not parse). */
  datatype FetchResult = Fetched(body: seq<Entry>) | FetchFailed

  /** The checks at the start of `fetchAndDisplayImages`: the alert to show, if any. */
  function ValidateRange(start: DateInput, end: DateInput): (alert: Option<string>)
    ensures alert.None? <==> start.Entered? && end.Entered? && !Later(start.date, end.date)
    ensures alert == Some(MissingDatesAlert) <==> start.Blank? || end.Blank?
    ensures alert.Some? ==> alert.value == MissingDatesAlert || alert.value == InvertedRangeAlert
  {
    if start.Blank? || end.Blank? then Some(MissingDatesAlert)
    else if Later(start.date, end.date) then Some(InvertedRangeAlert)
    else None
  }

  /** A range that passes the checks either selects by a real interval with
      start <= end, or contains a date that does not parse and then selects nothing. */
  lemma AcceptedRange(start: DateInput, end: DateInput, data: seq<Entry>)
    requires ValidateRange(start, end).None?
    ensures start.date.At? && end.date.At? ==> start.date.day <= end.date.day
    ensures !(start.date.At? && end.date.At?) ==> Filter(data, start.date, end.date) == []
  {
    if !(start.date.At? && end.date.At?) {
      FilterEmptyRange(data, start.date, end.date);
    }
  }

  class Session {
    /** `apodDatabase`: the whole feed, loaded once; empty until a load succeeds. */
    var apodDatabase: seq<Entry>
    /** `currentGalleryData`: the entries of the gallery on screen, by card position. */
    var currentGalleryData: seq<Entry>
    /** The content of the results area. */
    var gallery: GalleryView
    /** The detail view. */
    var modal: ModalView
    /** Every content the results area has shown, oldest first. */
    ghost var galleryHistory: seq<GalleryView>
    /** The date range of the last search that reached the filter. */
    ghost var rangeStart: Date
    ghost var rangeEnd: Date

    /** The selection is the cache filtered by the active range, a gallery of cards
        (or the empty-state view) shows exactly the selection, card i for entry i, and
        a player in the modal always replaces its image. */
    ghost predicate Valid()
      reads this
      ensures Valid() ==> |currentGalleryData| <= |apodDatabase|
      ensures Valid() && gallery.Cards? ==> |gallery.cards| == |currentGalleryData|
      ensures Valid() && modal.embed.Some? ==> modal.imageHidden
    {
      && currentGalleryData == Filter(apodDatabase, rangeStart, rangeEnd)
      && (gallery.Cards? || gallery.NoResults? ==> gallery == GalleryFor(currentGalleryData))
      && PlayerHidesImage(modal)
    }

    constructor ()
      ensures Valid()
      ensures apodDatabase == [] && currentGalleryData == []
      ensures gallery == Initial && modal == ClosedModal && galleryHistory == [Initial]
    {
      apodDatabase := [];
      currentGalleryData := [];
      gallery := Initial;
      modal := ClosedModal;
      galleryHistory := [Initial];
      rangeStart, rangeEnd := InvalidDate, InvalidDate;
    }

    // ShowLoading, ShowError, LoadApodData and DisplayGallery are steps of
    // FetchAndDisplayImages (js/script.js:80-96). The two views below keep Valid();
    // a load or a display on its own can break it until the handler completes.

    /** `showLoading()`. */
    method ShowLoading()
      modifies this`gallery, this`galleryHistory
      ensures old(Valid()) ==> Valid()
      ensures gallery == Loading && galleryHistory == old(galleryHistory) + [Loading]
    {
      gallery := Loading;
      galleryHistory := galleryHistory + [gallery];
    }

    /** `showError(message)`. */
    method ShowError(message: string)
      modifies this`gallery, this`galleryHistory
      ensures old(Valid()) ==> Valid()
      ensures gallery == Failed(message) && galleryHistory == old(galleryHistory) + [Failed(message)]
    {
      gallery := Failed(message);
      galleryHistory := galleryHistory + [gallery];
    }

    /** `loadApodData()`: one request; the feed replaces `apodDatabase` only when it
        arrives and parses. `ok` is false where the source throws. */
    method LoadApodData(response: FetchResult) returns (ok: bool)
      modifies this`apodDatabase
      ensures ok <==> response.Fetched?
      ensures apodDatabase == if ok then response.body else old(apodDatabase)
    {
      match response
      case FetchFailed =>
        ok := false;
      case Fetched(body) =>
        apodDatabase := body;
        ok := true;
    }

    /** `displayGallery(data)`: `currentGalleryData` is replaced by `data`, and the
        results area shows the empty-state view or one card per entry. */
    method DisplayGallery(data: seq<Entry>)
      modifies this`currentGalleryData, this`gallery, this`galleryHistory
      ensures currentGalleryData == data
      ensures gallery == GalleryFor(data)
      ensures galleryHistory == old(galleryHistory) + [gallery]
    {
      currentGalleryData := data;
      if |data| == 0 {
        gallery := NoResults;
        galleryHistory := galleryHistory + [gallery];
        return;
      }
      gallery := GalleryFor(data);
      galleryHistory := galleryHistory + [gallery];
    }

    /** `fetchAndDisplayImages()` with the two date inputs. `response` is what the
        request for the feed would yield; it is used only when a request is made,
        which `fetched` reports. `alert` is the validation notice, if one is shown. */
    method FetchAndDisplayImages(start: DateInput, end: DateInput, response: FetchResult)
      returns (alert: Option<string>, fetched: bool)
      requires Valid()
      modifies this`apodDatabase, this`currentGalleryData, this`gallery, this`galleryHistory
      modifies this`rangeStart, this`rangeEnd
      ensures Valid()
      ensures alert == ValidateRange(start, end)
      // A rejected range changes nothing, shows no loading view and makes no request.
      ensures alert.Some? ==> !fetched && unchanged(this)
      // The feed is requested only while the cache is empty.
      ensures alert.None? ==> fetched == (old(apodDatabase) == [])
      ensures apodDatabase == if fetched && response.Fetched? then response.body else old(apodDatabase)
      // Success: the selection is the filtered cache, shown after the loading view.
      ensures alert.None? && !(fetched && response.FetchFailed?) ==>
                && currentGalleryData == Filter(apodDatabase, start.date, end.date)
                && gallery == GalleryFor(currentGalleryData)
                && galleryHistory == old(galleryHistory) + [Loading, gallery]
      // Failure: the error view replaces the loading view; the selection is kept.
      ensures alert.None? && fetched && response.FetchFailed? ==>
                && currentGalleryData == old(currentGalleryData)
                && gallery == Failed(LoadFailedMessage)
                && galleryHistory == old(galleryHistory) + [Loading, gallery]
    {
      alert := ValidateRange(start, end);
      fetched := false;
      if alert.Some? {
        return;
      }
      ShowLoading();
      var loaded := true;
      if |apodDatabase| == 0 {
        fetched := true;
        loaded := LoadApodData(response);
      }
      if loaded {
        var filteredData := Filter(apodDatabase, start.date, end.date);
        DisplayGallery(filteredData);
        rangeStart, rangeEnd := start.date, end.date;
      } else {
        ShowError(LoadFailedMessage);
      }
    }

    /** `openModal(index)`: nothing happens for an index outside the current
        gallery; otherwise the modal shows that entry. */
    method OpenModal(index: int)
      requires Valid()
      modifies this`modal
      ensures Valid()
      ensures 0 <= index < |currentGalleryData| ==> modal == OpenView(old(modal), currentGalleryData[index])
      ensures !(0 <= index < |currentGalleryData|) ==> modal == old(modal)
      // The card at position `index` opens the entry it was rendered from.
      ensures gallery.Cards? && 0 <= index < |gallery.cards| ==>
                modal.shown && modal.title == gallery.cards[index].title && modal.date == Some(gallery.cards[index].date)
    {
      if !(0 <= index < |currentGalleryData|) {
        return;
      }
      var item := currentGalleryData[index];
      var view := modal;
      if item.IsVideo() {
        if Truthy(item.thumbnailUrl) {
          view := view.(imageSrc := item.thumbnailUrl.value, imageAlt := item.title);
        } else {
          view := view.(embed := None);
          if IsYouTubeHost(item.url) {
            var videoId := YouTube.ExtractYouTubeId(item.url);
            if videoId.Some? {
              view := view.(imageHidden := true, embed := Some(videoId.value));
            }
          } else {
            view := view.(imageSrc := PlaceholderSrc, imageAlt := PlaceholderAlt);
          }
        }
      } else {
        view := view.(imageSrc := OrElse(item.hdurl, item.url), imageAlt := item.title, imageHidden := false);
        view := view.(embed := None);
      }
      view := view.(title := item.title, date := Some(item.date));
      view := view.(explanation := OrElse(item.explanation, NoExplanation));
      if item.IsVideo() {
        view := view.(opensOnClick := Some(item.url));
      } else {
        view := view.(opensOnClick := None);
      }
      view := view.(shown := true, scrollLocked := true);
      modal := view;
    }

    /** `closeModal()`, from the close button or a click on the backdrop. */
    method CloseModal()
      requires Valid()
      modifies this`modal
      ensures Valid()
      ensures modal == CloseView(old(modal))
    {
      modal := modal.(shown := false, scrollLocked := false);
    }
  }

  /** Three searches with an accepted range on a fresh page: a failed request
      leaves the cache empty, so the next search requests the feed again; once a
      non-empty feed has loaded, no later search makes a request. */
  method RetryThenCache(start: DateInput, end: DateInput, feed: seq<Entry>, later: FetchResult)
    returns (first: bool, second: bool, third: bool)
    requires ValidateRange(start, end).None? && feed != []
    ensures first && second && !third
  {
    var page := new Session();
    var alert;
    alert, first := page.FetchAndDisplayImages(start, end, FetchFailed);
    alert, second := page.FetchAndDisplayImages(start, end, Fetched(feed));
    alert, third := page.FetchAndDisplayImages(start, end, later);
  }
}
