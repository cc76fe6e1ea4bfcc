/** The fixed keyboards of the bot: the welcome screen's language choice,
    the main menu, one button per genre, and one button per subtitle
    language (`start`, `show_main_menu`, and the `show_genres` and
    `sublist_` branches of `button_click`). */
module Menus {
  import opened Text
  import opened Callbacks

  /** `GENRES`, in order. */
  const Genres: seq<string> := ["Action", "Comedy", "Horror", "Sci-Fi", "Drama", "Animation", "Romance"]

  /** `SUB_LANGS` as (button caption, language code) pairs, in the
      dictionary's insertion order. */
  const SubtitleLanguages: seq<(string, string)> := [
    ("Sinhala \U{1F1F1}\U{1F1F0}", "si"),
    ("Tamil \U{1F1EE}\U{1F1F3}", "ta"),
    ("Hindi \U{1F1EE}\U{1F1F3}", "hi"),
    ("English \U{1F1FA}\U{1F1F8}", "en")
  ]

  /** The welcome screen's two language buttons. */
  function StartKeyboard(): seq<Button>
  {
    [CallbackButton("\U{1F1F1}\U{1F1F0} Sinhala", Encode(Lang("si"))),
     CallbackButton("\U{1F1FA}\U{1F1F8} English", Encode(Lang("en")))]
  }

  /** The main menu's two buttons. */
  function MainMenuKeyboard(): seq<Button>
  {
    [CallbackButton("\U{1F525} Trending Movies", Encode(Trending)),
     CallbackButton("\U{1F3AD} Browse by Genre", Encode(ShowGenres))]
  }

  /** One button per genre, captioned with the genre and carrying its
      lower-cased name. */
  function GenreKeyboard(): seq<Button>
  {
    seq(|Genres|, i requires 0 <= i < |Genres| => CallbackButton(Genres[i], Encode(Genre(Lower(Genres[i])))))
  }

  /** One button per subtitle language for the title `imdbId`. */
  function SubtitleKeyboard(imdbId: string): seq<Button>
  {
    seq(|SubtitleLanguages|, i requires 0 <= i < |SubtitleLanguages| =>
      CallbackButton(SubtitleLanguages[i].0, Encode(GenSub(imdbId, SubtitleLanguages[i].1))))
  }

  /** Every menu button leads where its caption says: the language buttons
      back to the main menu, the main menu's to the trending search and to
      the genre list. */
  lemma MenusDispatch()
    ensures forall b :: b in StartKeyboard() ==> b.CallbackButton? && Dispatch(b.data) == MainMenu
    ensures |MainMenuKeyboard()| == 2
    ensures Dispatch(MainMenuKeyboard()[0].data) == Search(TrendingQuery)
    ensures Dispatch(MainMenuKeyboard()[1].data) == GenreMenu
  {
    DispatchEncode(Lang("si"));
    DispatchEncode(Lang("en"));
    DispatchEncode(Trending);
    DispatchEncode(ShowGenres);
  }

  lemma GenresHaveNoSeparator()
    ensures forall i :: 0 <= i < |Genres| ==> '_' !in Genres[i]
  {
    assert '_' !in Genres[0] && '_' !in Genres[1] && '_' !in Genres[2] && '_' !in Genres[3];
    assert '_' !in Genres[4] && '_' !in Genres[5] && '_' !in Genres[6];
  }

  /** One button per genre, in order; tapping button `i` searches for the
      lower-cased genre `i`. */
  lemma GenreKeyboardDispatch()
    ensures |GenreKeyboard()| == |Genres|
    ensures forall i :: 0 <= i < |Genres| ==>
      GenreKeyboard()[i].caption == Genres[i] &&
      Dispatch(GenreKeyboard()[i].data) == Search(Lower(Genres[i]))
  {
    GenresHaveNoSeparator();
    forall i | 0 <= i < |Genres|
      ensures Dispatch(GenreKeyboard()[i].data) == Search(Lower(Genres[i]))
    {
      LowerKeepsNonLetter(Genres[i], '_');
      DispatchEncode(Genre(Lower(Genres[i])));
    }
  }

  lemma LanguageCodesHaveNoSeparator()
    ensures forall i :: 0 <= i < |SubtitleLanguages| ==> '_' !in SubtitleLanguages[i].1
  {
  }

  /** One button per subtitle language, in order; tapping one requests the
      subtitle of that title in that language when the id is free of the
      separator, and is rejected as malformed otherwise. */
  lemma SubtitleKeyboardDispatch(imdbId: string)
    ensures |SubtitleKeyboard(imdbId)| == |SubtitleLanguages|
    ensures forall i :: 0 <= i < |SubtitleLanguages| ==>
      SubtitleKeyboard(imdbId)[i].caption == SubtitleLanguages[i].0 &&
      Dispatch(SubtitleKeyboard(imdbId)[i].data) ==
        if '_' !in imdbId then MakeSubtitle(imdbId, SubtitleLanguages[i].1) else Malformed
  {
    LanguageCodesHaveNoSeparator();
    forall i | 0 <= i < |SubtitleLanguages|
      ensures Dispatch(SubtitleKeyboard(imdbId)[i].data) ==
        if '_' !in imdbId then MakeSubtitle(imdbId, SubtitleLanguages[i].1) else Malformed
    {
      GenSubDecodesIff(imdbId, SubtitleLanguages[i].1);
    }
  }
}
