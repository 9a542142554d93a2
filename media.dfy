/** What the gallery and the detail view (modal) show for an entry: the source
    choices of `displayGallery` and `openModal`, and the state of the modal's
    elements as `openModal` and `closeModal` leave it. */
module Media {
  import opened Entries
  import YouTube

  /** The text shown when an entry has no explanation. */
  const NoExplanation: string := "No explanation available."

  /** The inline SVG that stands in for a video that can be neither previewed nor embedded. */
  const PlaceholderSrc: string := "data:image/svg+xml,<svg xmlns=\"http://www.w3.org/2000/svg\" width=\"400\" height=\"300\" viewBox=\"0 0 400 300\"><rect width=\"400\" height=\"300\" fill=\"%23f0f0f0\"/><text x=\"200\" y=\"150\" text-anchor=\"middle\" font-family=\"Arial\" font-size=\"16\" fill=\"%23666\">Video Content</text></svg>"

  const PlaceholderAlt: string := "Video content - click to view"

  /** `s.includes(t)`, searched from the front. */
  predicate Contains(s: string, t: string)
    decreases |s|
  {
    |t| <= |s| && (s[..|t|] == t || (s != [] && Contains(s[1..], t)))
  }

  /** `t` occurs in `s` starting at index `i`. */
  ghost predicate OccursAt(s: string, t: string, i: int) {
    0 <= i && i + |t| <= |s| && s[i..i + |t|] == t
  }

  /** The front-to-back search finds `t` exactly when `t` occurs somewhere in `s`. */
  lemma {:induction false} ContainsIsIncludes(s: string, t: string)
    ensures Contains(s, t) <==> exists i :: OccursAt(s, t, i)
    decreases |s|
  {
    if |t| <= |s| {
      if s[..|t|] == t {
        assert OccursAt(s, t, 0);
      } else if s != [] {
        ContainsIsIncludes(s[1..], t);
        forall i | OccursAt(s[1..], t, i) ensures OccursAt(s, t, i + 1) {
          assert s[1..][i..i + |t|] == s[i + 1..i + 1 + |t|];
        }
        if exists i :: OccursAt(s, t, i) {
          var i :| OccursAt(s, t, i);
          assert i != 0;
          assert s[1..][i - 1..i - 1 + |t|] == s[i..i + |t|];
          assert OccursAt(s[1..], t, i - 1);
        }
      }
    }
  }

  /** The URL names the one video host the detail view can embed. */
  predicate IsYouTubeHost(url: string) {
    Contains(url, "youtube.com") || Contains(url, "youtu.be")
  }

  /** The host check holds exactly when `youtube.com` or `youtu.be` occurs in the url. */
  lemma YouTubeHostOccurs(url: string)
    ensures IsYouTubeHost(url) <==> (exists i :: OccursAt(url, "youtube.com", i)) || (exists i :: OccursAt(url, "youtu.be", i))
  {
    ContainsIsIncludes(url, "youtube.com");
    ContainsIsIncludes(url, "youtu.be");
  }

  // ---------------------------------------------------------------- gallery

  /** The image a gallery card shows: a video's thumbnail when it has one, else the entry's url. */
  function CardImage(e: Entry): (src: string)
    ensures !e.IsVideo() ==> src == e.url
    ensures src == e.url || (e.IsVideo() && e.thumbnailUrl == Some(src) && src != "")
  {
    if e.IsVideo() then OrElse(e.thumbnailUrl, e.url) else e.url
  }

  /** One card of the gallery; its position in the gallery is the index it opens. */
  datatype Card = Card(image: string, title: string, videoBadge: bool, date: Date)

  function CardFor(e: Entry): (c: Card)
    ensures c.title == e.title && c.date == e.date
    ensures c.videoBadge <==> e.IsVideo()
    ensures c.image == (if e.IsVideo() && Truthy(e.thumbnailUrl) then e.thumbnailUrl.value else e.url)
  {
    Card(CardImage(e), e.title, e.IsVideo(), e.date)
  }

  /** What the results area shows. `Initial` is the page's own content before any search. */
  datatype GalleryView =
    | Initial
    | Loading
    | Failed(message: string)
    | NoResults
    | Cards(cards: seq<Card>)

  /** The view `displayGallery(data)` renders: the empty-state view for no entries,
      otherwise one card per entry, in order. */
  function GalleryFor(data: seq<Entry>): (g: GalleryView)
    ensures g.NoResults? <==> data == []
    ensures g.Cards? <==> data != []
    ensures g.Cards? ==> |g.cards| == |data|
    ensures g.Cards? ==> forall i :: 0 <= i < |data| ==> g.cards[i] == CardFor(data[i])
  {
    if data == [] then NoResults else Cards(seq(|data|, i requires 0 <= i < |data| => CardFor(data[i])))
  }

  /** An empty selection is shown as "no results", never as an error or as loading. */
  lemma EmptySelectionIsNotAnError(data: seq<Entry>)
    ensures !GalleryFor(data).Failed? && !GalleryFor(data).Loading?
    ensures data == [] ==> GalleryFor(data) == NoResults
  {
  }

  /** A video card shows the thumbnail when there is one and the video's url
      otherwise; an image card always shows the url, never its high-resolution image. */
  lemma CardImageChoice(e: Entry)
    ensures e.IsVideo() && Truthy(e.thumbnailUrl) ==> CardFor(e).image == e.thumbnailUrl.value
    ensures e.IsVideo() && !Truthy(e.thumbnailUrl) ==> CardFor(e).image == e.url
    ensures !e.IsVideo() ==> CardFor(e).image == e.url && CardFor(e).videoBadge == false
  {
  }

  // ---------------------------------------------------------------- detail view

  /** The media decision of `openModal`. */
  datatype ModalMedia =
    | Picture(src: string)     // an image: its high-resolution url, else its url
    | Thumbnail(src: string)   // a video with a thumbnail
    | Embed(videoId: string)   // a YouTube video whose identifier was extracted
    | NoEmbed                  // a YouTube url without an identifier: no new media
    | Placeholder              // any other video

  function ModalMediaFor(e: Entry): (m: ModalMedia)
    ensures m.Picture? <==> !e.IsVideo()
    ensures m.Embed? ==> |m.videoId| == 11 && YouTube.ExtractYouTubeId(e.url) == Some(m.videoId)
    ensures m.Picture? ==> m.src == e.url || e.hdurl == Some(m.src)
  {
    if !e.IsVideo() then Picture(OrElse(e.hdurl, e.url))
    else if Truthy(e.thumbnailUrl) then Thumbnail(e.thumbnailUrl.value)
    else if IsYouTubeHost(e.url) then
      match YouTube.ExtractYouTubeId(e.url)
      case Some(id) => Embed(id)
      case None => NoEmbed
    else Placeholder
  }

  /** The explanation paragraph of the detail view. */
  function ExplanationText(e: Entry): (text: string)
    ensures text != ""
    ensures text == NoExplanation || e.explanation == Some(text)
  {
    OrElse(e.explanation, NoExplanation)
  }

  /** The state of the modal's elements that `openModal` and `closeModal` set. */
  datatype ModalView = ModalView(
    shown: bool,                   // the modal is displayed
    scrollLocked: bool,            // the page behind it does not scroll
    imageSrc: string,              // the modal image's source and alternative text
    imageAlt: string,
    imageHidden: bool,             // the modal image is hidden (an embedded player replaces it)
    embed: Option<string>,         // the identifier of the embedded player, when one is present
    title: string,
    date: Option<Date>,            // the date shown (its text formatting is not modelled)
    explanation: string,
    opensOnClick: Option<string>)  // the url a click on the image opens in a new tab

  /** The modal before anything has been opened. */
  const ClosedModal: ModalView :=
    ModalView(false, false, "", "", false, None, "", None, "", None)

  /** A player is present only with the image hidden, and it carries an 11-character
      identifier. */
  predicate PlayerHidesImage(m: ModalView) {
    m.embed.Some? ==> m.imageHidden && |m.embed.value| == 11
  }

  /** The modal after `openModal` on entry `e`, starting from `v`. Media elements a
      branch does not touch keep their previous state. */
  function OpenView(v: ModalView, e: Entry): (r: ModalView)
    ensures r.shown && r.scrollLocked
    ensures PlayerHidesImage(v) ==> PlayerHidesImage(r)
  {
    var media :=
      match ModalMediaFor(e)
      case Picture(src) => v.(imageSrc := src, imageAlt := e.title, imageHidden := false, embed := None)
      case Thumbnail(src) => v.(imageSrc := src, imageAlt := e.title)
      case Embed(id) => v.(imageHidden := true, embed := Some(id))
      case NoEmbed => v.(embed := None)
      case Placeholder => v.(imageSrc := PlaceholderSrc, imageAlt := PlaceholderAlt, embed := None);
    media.(title := e.title, date := Some(e.date), explanation := ExplanationText(e),
           opensOnClick := if e.IsVideo() then Some(e.url) else None,
           shown := true, scrollLocked := true)
  }

  /** The modal after `closeModal`: hidden, and the page scrolls again. */
  function CloseView(v: ModalView): (r: ModalView)
    ensures !r.shown && !r.scrollLocked
    ensures PlayerHidesImage(v) ==> PlayerHidesImage(r)
  {
    v.(shown := false, scrollLocked := false)
  }

  /** After any open the modal is shown with the entry's title, date and explanation,
      the page does not scroll, and clicking the image opens the url exactly for videos. */
  lemma OpenShowsEntry(v: ModalView, e: Entry)
    ensures OpenView(v, e).shown && OpenView(v, e).scrollLocked
    ensures OpenView(v, e).title == e.title && OpenView(v, e).date == Some(e.date)
    ensures OpenView(v, e).explanation == (if Truthy(e.explanation) then e.explanation.value else NoExplanation)
    ensures OpenView(v, e).opensOnClick.Some? <==> e.IsVideo()
    ensures e.IsVideo() ==> OpenView(v, e).opensOnClick == Some(e.url)
  {
  }

  /** An image entry shows its high-resolution url when it has one, else its url,
      visible and with no player left from an earlier video. */
  lemma OpenImage(v: ModalView, e: Entry)
    requires !e.IsVideo()
    ensures OpenView(v, e).imageSrc == (if Truthy(e.hdurl) then e.hdurl.value else e.url)
    ensures !OpenView(v, e).imageHidden && OpenView(v, e).embed == None
  {
  }

  /** A video without a thumbnail whose url names YouTube and yields an identifier
      gets an embedded player for that identifier, and the image is hidden. */
  lemma OpenYouTubeVideo(v: ModalView, e: Entry, id: string)
    requires e.IsVideo() && !Truthy(e.thumbnailUrl)
    requires IsYouTubeHost(e.url) && YouTube.ExtractYouTubeId(e.url) == Some(id)
    ensures OpenView(v, e).embed == Some(id) && OpenView(v, e).imageHidden
    ensures |id| == 11
  {
  }

  /** The usual watch page of YouTube: a video without a thumbnail at
      `...youtube.com.../watch?v=<11 characters>` is embedded with those 11 characters. */
  lemma OpenWatchPageVideo(v: ModalView, e: Entry, prefix: string, id: string)
    requires e.IsVideo() && !Truthy(e.thumbnailUrl)
    requires e.url == prefix + "watch?v=" + id && Contains(e.url, "youtube.com")
    requires forall i :: 0 <= i < |prefix| ==> !YouTube.IsLineTerminator(prefix[i])
    requires |id| == 11 && forall i :: 0 <= i < |id| ==> id[i] != '/' && !YouTube.IsIdStop(id[i])
    ensures OpenView(v, e).embed == Some(id) && OpenView(v, e).imageHidden
  {
    YouTube.ExtractFromWatchUrl(prefix, id);
  }

  /** A YouTube url without an identifier gets neither a player nor the placeholder:
      the player is removed and the image keeps whatever it showed before. */
  lemma OpenYouTubeWithoutId(v: ModalView, e: Entry)
    requires e.IsVideo() && !Truthy(e.thumbnailUrl)
    requires IsYouTubeHost(e.url) && YouTube.ExtractYouTubeId(e.url) == None
    ensures OpenView(v, e).embed == None
    ensures OpenView(v, e).imageSrc == v.imageSrc && OpenView(v, e).imageAlt == v.imageAlt
    ensures OpenView(v, e).imageHidden == v.imageHidden
  {
  }

  /** Any other video without a thumbnail sets the image to the "Video Content"
      placeholder and removes the player, but leaves the image's visibility as it
      was: after an earlier embed the placeholder stays hidden. */
  lemma OpenOtherVideo(v: ModalView, e: Entry)
    requires e.IsVideo() && !Truthy(e.thumbnailUrl) && !IsYouTubeHost(e.url)
    ensures OpenView(v, e).imageSrc == PlaceholderSrc && OpenView(v, e).imageAlt == PlaceholderAlt
    ensures OpenView(v, e).embed == None
    ensures OpenView(v, e).imageHidden == v.imageHidden
  {
  }

  /** Opening a YouTube video and then another video without a thumbnail leaves the
      modal with neither a player nor a visible placeholder. */
  lemma PlaceholderAfterEmbedStaysHidden(v: ModalView, yt: Entry, other: Entry)
    requires yt.IsVideo() && !Truthy(yt.thumbnailUrl)
    requires IsYouTubeHost(yt.url) && YouTube.ExtractYouTubeId(yt.url).Some?
    requires other.IsVideo() && !Truthy(other.thumbnailUrl) && !IsYouTubeHost(other.url)
    ensures OpenView(OpenView(v, yt), other).imageHidden
    ensures OpenView(OpenView(v, yt), other).embed == None
    ensures OpenView(OpenView(v, yt), other).imageSrc == PlaceholderSrc
  {
  }

  /** A video with a thumbnail shows the thumbnail, but does not remove a player or
      unhide the image left by an earlier YouTube video: that earlier player stays. */
  lemma OpenThumbnailKeepsEarlierPlayer(v: ModalView, e: Entry)
    requires e.IsVideo() && Truthy(e.thumbnailUrl)
    ensures OpenView(v, e).imageSrc == e.thumbnailUrl.value
    ensures OpenView(v, e).embed == v.embed && OpenView(v, e).imageHidden == v.imageHidden
  {
  }

  /** Closing hides the modal and restores scrolling, changes nothing else, and
      closing twice is the same as closing once. */
  lemma CloseRestoresScrolling(v: ModalView)
    ensures !CloseView(v).shown && !CloseView(v).scrollLocked
    ensures CloseView(v).(shown := v.shown, scrollLocked := v.scrollLocked) == v
    ensures CloseView(CloseView(v)) == CloseView(v)
  {
  }
}
