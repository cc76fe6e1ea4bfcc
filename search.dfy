/** Turning an OMDb title search into a list of result buttons
    (`perform_search`), and the detail card's buttons built when a result
    is picked (the `select_` branch of `button_click`). The HTTP calls
    themselves are not modelled: their answers are inputs. */
module Search {
  import opened Wrappers
  import opened Text
  import opened Callbacks

  /** One entry of an OMDb search answer's `Search` list. */
  datatype Movie = Movie(title: string, year: string, imdbId: string)

  /** An OMDb search answer: `Response` is `'True'` and `Search` holds the
      matches in the provider's order, or the search found nothing. */
  datatype SearchResponse = Found(matches: seq<Movie>) | NotFound

  /** What `perform_search` sends back. */
  datatype SearchReply = ResultList(buttons: seq<Button>) | NotFoundReply

  /** How many matches are shown. */
  const MaxResults := 8

  const OmdbBase := "http://www.omdbapi.com/"

  /** The title-search request for an (already translated) search term. */
  function SearchUrl(term: string, apiKey: string): string
  {
    OmdbBase + "?s=" + ReplaceChar(term, ' ', "+") + "&apikey=" + apiKey
  }

  /** The search term enters the URL without spaces, one character for one,
      and can be read back by turning every `+` into a space when the term
      held no `+` of its own. */
  lemma SearchUrlQuery(term: string, apiKey: string)
    ensures var q := ReplaceChar(term, ' ', "+");
      && SearchUrl(term, apiKey) == OmdbBase + "?s=" + q + "&apikey=" + apiKey
      && ' ' !in q && |q| == |term|
      && ('+' !in term ==> ReplaceChar(q, '+', " ") == term)
    ensures ' ' !in apiKey ==> ' ' !in SearchUrl(term, apiKey)
  {
    ReplaceRemoves(term, ' ', "+");
    ReplaceByChar(term, ' ', '+');
    if '+' !in term {
      ReplaceCharRoundTrip(term, ' ', '+');
    }
  }

  /** The caption of a result button: title and year. */
  function ResultCaption(m: Movie): string
  {
    "\U{1F3AC} " + m.title + " (" + m.year + ")"
  }

  /** The first eight matches, each as a button that selects it. */
  function ResultButtons(matches: seq<Movie>): (buttons: seq<Button>)
    ensures |buttons| <= MaxResults
    ensures |buttons| == if |matches| < MaxResults then |matches| else MaxResults
    ensures forall i :: 0 <= i < |buttons| ==>
      buttons[i] == CallbackButton(ResultCaption(matches[i]), Encode(Select(matches[i].imdbId)))
  {
    var shown := matches[..if |matches| < MaxResults then |matches| else MaxResults];
    seq(|shown|, i requires 0 <= i < |shown| => CallbackButton(ResultCaption(shown[i]), Encode(Select(shown[i].imdbId))))
  }

  /** `perform_search` once the search has been answered. */
  function PerformSearch(response: SearchResponse): (reply: SearchReply)
    ensures reply.ResultList? <==> response.Found?
    ensures reply.ResultList? ==> reply.buttons == ResultButtons(response.matches)
  {
    match response
    case Found(matches) => ResultList(ResultButtons(matches))
    case NotFound => NotFoundReply
  }

  /** Tapping result `i` opens the detail card of match `i`, in the
      provider's order; an id holding a separator is cut at it. */
  lemma ResultButtonsDispatch(matches: seq<Movie>, i: nat)
    requires i < |ResultButtons(matches)|
    ensures i < |matches|
    ensures Dispatch(ResultButtons(matches)[i].data) == Detail(Split(matches[i].imdbId, '_')[0])
    ensures '_' !in matches[i].imdbId ==>
      Dispatch(ResultButtons(matches)[i].data) == Detail(matches[i].imdbId)
  {
    DispatchSelectCuts(matches[i].imdbId);
    if '_' !in matches[i].imdbId {
      SplitWithoutSep(matches[i].imdbId, '_');
    }
  }

  /** The detail card cannot be built when the looked-up title is missing:
      `None.replace` raises and the handler stops before replying. */
  datatype DetailFault = MissingTitle

  function WatchUrl(imdbId: string): string
  {
    "https://vidsrc.me/embed/movie?imdb=" + imdbId
  }

  const DownloadBase := "https://yts.mx/browse-movies/"

  function DownloadUrl(title: string): string
  {
    DownloadBase + ReplaceChar(title, ' ', "%20")
  }

  /** The download link has no spaces, and its path gives the title back
      when the title held no `%`. */
  lemma DownloadUrlShape(title: string)
    ensures ' ' !in DownloadUrl(title)
    ensures DownloadUrl(title)[..|DownloadBase|] == DownloadBase
    ensures '%' !in title ==> UnescapeSpaces(DownloadUrl(title)[|DownloadBase|..]) == title
  {
    ReplaceRemoves(title, ' ', "%20");
    assert DownloadUrl(title)[|DownloadBase|..] == ReplaceChar(title, ' ', "%20");
    if '%' !in title {
      EscapeSpacesRoundTrip(title);
    }
  }

  /** The three buttons of the detail card for `imdbId`, given the title the
      lookup returned (`None` when the answer had no `Title`). */
  function DetailKeyboard(imdbId: string, title: Option<string>): (r: Result<seq<Button>, DetailFault>)
    ensures r.Success? <==> title.Some?
  {
    match title
    case None => Failure(MissingTitle)
    case Some(t) =>
      Success([UrlButton("\U{1F4FA} Watch Online", WatchUrl(imdbId)),
               UrlButton("\U{1F4E5} Download Movie", DownloadUrl(t)),
               CallbackButton("\U{1F30D} Get Subtitle", Encode(SubList(imdbId)))])
  }

  /** The card links to the player for the id and to the download page for
      the title, and its subtitle button lists the languages for that same
      id. */
  lemma DetailKeyboardLinks(imdbId: string, t: string)
    requires '_' !in imdbId
    ensures var bs := DetailKeyboard(imdbId, Some(t)).value;
      && |bs| == 3
      && bs[0].UrlButton? && bs[0].url == WatchUrl(imdbId)
      && bs[1].UrlButton? && bs[1].url == DownloadUrl(t) && ' ' !in bs[1].url
      && bs[2].CallbackButton? && Dispatch(bs[2].data) == SubtitleMenu(imdbId)
  {
    DownloadUrlShape(t);
    DispatchEncode(SubList(imdbId));
  }
}
