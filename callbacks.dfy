/** The payloads carried by the bot's inline buttons, and the handler that
    routes a tapped button by testing those payloads in a fixed order
    (`button_click` in main.py). A payload is an underscore-delimited
    string whose first part names its kind. */
module Callbacks {
  import opened Text

  /** An inline keyboard button: one that sends a payload back when
      tapped, or one that opens a URL. */
  datatype Button = CallbackButton(caption: string, data: string) | UrlButton(caption: string, url: string)

  /** Every kind of payload the bot puts on a button. */
  datatype Callback =
    | Lang(code: string)
    | Trending
    | ShowGenres
    | Genre(name: string)
    | Select(imdbId: string)
    | SubList(imdbId: string)
    | GenSub(imdbId: string, langCode: string)

  /** The payload string of each kind, as the bot builds it. */
  function Encode(c: Callback): string
  {
    match c
    case Lang(code) => "lang_" + code
    case Trending => "trending"
    case ShowGenres => "show_genres"
    case Genre(name) => "genre_" + name
    case Select(id) => "select_" + id
    case SubList(id) => "sublist_" + id
    case GenSub(id, code) => "gensub_" + id + "_" + code
  }

  /** A payload's fields survive decoding only when none of them holds the
      separator; the language code of `Lang` is never decoded. */
  predicate WellFormed(c: Callback)
  {
    match c
    case Lang(_) => true
    case Trending => true
    case ShowGenres => true
    case Genre(name) => '_' !in name
    case Select(id) => '_' !in id
    case SubList(id) => '_' !in id
    case GenSub(id, code) => '_' !in id && '_' !in code
  }

  /** What the handler goes on to do with a tapped payload. `Malformed` is
      the `ValueError` of the three-way unpack of a `gensub_` payload;
      `Ignored` is a payload no branch matches, which is only acknowledged. */
  datatype Action =
    | MainMenu
    | Search(query: string)
    | GenreMenu
    | Detail(imdbId: string)
    | SubtitleMenu(imdbId: string)
    | MakeSubtitle(imdbId: string, langCode: string)
    | Malformed
    | Ignored

  /** The search term behind the "Trending" button. */
  const TrendingQuery := "2026"

  /** The intended meaning of each kind of payload: the action its handler
      branch performs with the fields it was built from. */
  function Meaning(c: Callback): Action
  {
    match c
    case Lang(_) => MainMenu
    case Trending => Search(TrendingQuery)
    case ShowGenres => GenreMenu
    case Genre(name) => Search(name)
    case Select(id) => Detail(id)
    case SubList(id) => SubtitleMenu(id)
    case GenSub(id, code) => MakeSubtitle(id, code)
  }

  /** `data.split("_")[1]`, for a payload known to hold a separator. */
  function SecondField(data: string): string
    requires '_' in data
  {
    SplitSingleIff(data, '_');
    Split(data, '_')[1]
  }

  lemma SeparatorOfPrefix(data: string, p: string)
    requires StartsWith(data, p) && p != [] && p[|p| - 1] == '_'
    ensures '_' in data
  {
    assert data[|p| - 1] == p[|p| - 1];
  }

  /** `button_click`: the ordered prefix and equality tests, and the
      decoding each branch performs. */
  function Dispatch(data: string): Action
  {
    if StartsWith(data, "lang_") then MainMenu
    else if data == "trending" then Search(TrendingQuery)
    else if data == "show_genres" then GenreMenu
    else if StartsWith(data, "genre_") then
      SeparatorOfPrefix(data, "genre_");
      Search(SecondField(data))
    else if StartsWith(data, "select_") then
      SeparatorOfPrefix(data, "select_");
      Detail(SecondField(data))
    else if StartsWith(data, "sublist_") then
      SeparatorOfPrefix(data, "sublist_");
      SubtitleMenu(SecondField(data))
    else if StartsWith(data, "gensub_") then
      var parts := Split(data, '_');
      if |parts| == 3 then MakeSubtitle(parts[1], parts[2]) else Malformed
    else Ignored
  }

  /** Two prefixes that differ at some position cannot both start a string. */
  lemma NotBoth(data: string, p: string, q: string, i: nat)
    requires StartsWith(data, p)
    requires i < |p| && i < |q| && p[i] != q[i]
    ensures !StartsWith(data, q)
  {
    assert data[i] == p[i];
  }

  /** A string that starts with `p` differs from any literal that
      disagrees with `p` at some position. */
  lemma DiffersFrom(data: string, p: string, lit: string, i: nat)
    requires StartsWith(data, p)
    requires i < |p| && i < |lit| && p[i] != lit[i]
    ensures data != lit
  {
    assert data[i] == p[i];
  }

  /** Round trip: a well-formed payload is dispatched to exactly the action
      its kind stands for, with the fields it was built from. */
  lemma DispatchEncode(c: Callback)
    requires WellFormed(c)
    ensures Dispatch(Encode(c)) == Meaning(c)
  {
    var data := Encode(c);
    match c
    case Lang(code) =>
      PrefixStartsWith("lang_", code);
    case Trending =>
      assert !StartsWith(data, "lang_") by { assert data[0] != 'l'; }
    case ShowGenres =>
      assert !StartsWith(data, "lang_") by { assert data[0] != 'l'; }
      assert data != "trending" by { assert data[0] != 't'; }
    case Genre(name) =>
      DispatchGenreCuts(name);
      SplitWithoutSep(name, '_');
    case Select(id) =>
      DispatchSelectCuts(id);
      SplitWithoutSep(id, '_');
    case SubList(id) =>
      DispatchSubListCuts(id);
      SplitWithoutSep(id, '_');
    case GenSub(id, code) =>
      GenSubDecodesIff(id, code);
  }

  /** A payload that starts with a tag and the separator is that tag, the
      separator and the rest. */
  lemma TaggedShape(data: string, tag: string)
    requires StartsWith(data, tag + "_")
    ensures data == tag + "_" + data[|tag| + 1..]
  {
    assert data == data[..|tag| + 1] + data[|tag| + 1..];
  }

  /** What `split("_")[1]` keeps of a field: its text up to the first
      separator, so a field holding `_` is cut short. */
  lemma SecondFieldCuts(tag: string, field: string)
    requires '_' !in tag
    ensures '_' in tag + "_" + field
    ensures SecondField(tag + "_" + field) == Split(field, '_')[0]
  {
    assert (tag + "_" + field)[|tag|] == '_';
    SplitLeading(tag, field, '_');
  }

  /** Any `select_` payload opens the detail card of its id cut at the
      first separator. */
  lemma DispatchSelectCuts(id: string)
    ensures Dispatch(Encode(Select(id))) == Detail(Split(id, '_')[0])
  {
    var data := Encode(Select(id));
    PrefixStartsWith("select_", id);
    NotBoth(data, "select_", "lang_", 0);
    NotBoth(data, "select_", "genre_", 0);
    DiffersFrom(data, "select_", "trending", 0);
    DiffersFrom(data, "select_", "show_genres", 1);
    assert data == "select" + "_" + id;
    SecondFieldCuts("select", id);
  }

  /** Any `genre_` payload searches for its name cut at the first
      separator. */
  lemma DispatchGenreCuts(name: string)
    ensures Dispatch(Encode(Genre(name))) == Search(Split(name, '_')[0])
  {
    var data := Encode(Genre(name));
    PrefixStartsWith("genre_", name);
    NotBoth(data, "genre_", "lang_", 0);
    DiffersFrom(data, "genre_", "trending", 0);
    DiffersFrom(data, "genre_", "show_genres", 0);
    assert data == "genre" + "_" + name;
    SecondFieldCuts("genre", name);
  }

  /** Any `sublist_` payload lists subtitle languages for its id cut at the
      first separator. */
  lemma DispatchSubListCuts(id: string)
    ensures Dispatch(Encode(SubList(id))) == SubtitleMenu(Split(id, '_')[0])
  {
    var data := Encode(SubList(id));
    PrefixStartsWith("sublist_", id);
    NotBoth(data, "sublist_", "lang_", 0);
    NotBoth(data, "sublist_", "genre_", 0);
    NotBoth(data, "sublist_", "select_", 1);
    DiffersFrom(data, "sublist_", "trending", 0);
    DiffersFrom(data, "sublist_", "show_genres", 1);
    assert data == "sublist" + "_" + id;
    SecondFieldCuts("sublist", id);
  }

  /** The lossy case made concrete: an id holding a separator loses its tail. */
  lemma SelectCutsExample()
    ensures Dispatch("select_tt_1") == Detail("tt")
  {
    DispatchSelectCuts("tt_1");
    assert "tt_1" == "tt" + "_" + "1";
    SplitLeading("tt", "1", '_');
    assert Encode(Select("tt_1")) == "select_tt_1";
  }

  /** A `gensub_` payload decodes exactly when neither of its two fields
      holds the separator; otherwise the unpack fails. */
  lemma GenSubDecodesIff(id: string, code: string)
    ensures Dispatch(Encode(GenSub(id, code))) ==
      if '_' !in id && '_' !in code then MakeSubtitle(id, code) else Malformed
  {
    var data := Encode(GenSub(id, code));
    assert data == "gensub_" + (id + "_" + code);
    PrefixStartsWith("gensub_", id + "_" + code);
    GenSubBranch(data);
    assert data == "gensub" + "_" + (id + "_" + code);
    SplitLeading("gensub", id + "_" + code, '_');
    SplitAround(id, code, '_');
    SplitSingleIff(id, '_');
    SplitSingleIff(code, '_');
    if '_' !in id && '_' !in code {
      SplitWithoutSep(id, '_');
      SplitWithoutSep(code, '_');
    }
  }

  /** Decoding never invents: whatever a payload is dispatched to, the
      payload starts with the encoding of that action's fields, and those
      fields are free of the separator. */
  lemma DispatchSound(data: string)
    ensures Dispatch(data).MainMenu? ==> StartsWith(data, "lang_")
    ensures Dispatch(data).GenreMenu? ==> data == Encode(ShowGenres)
    ensures Dispatch(data).Search? ==>
      var q := Dispatch(data).query;
      (data == Encode(Trending) && q == TrendingQuery) ||
      (StartsWith(data, Encode(Genre(q))) && '_' !in q)
    ensures Dispatch(data).Detail? ==>
      var id := Dispatch(data).imdbId;
      StartsWith(data, Encode(Select(id))) && '_' !in id
    ensures Dispatch(data).SubtitleMenu? ==>
      var id := Dispatch(data).imdbId;
      StartsWith(data, Encode(SubList(id))) && '_' !in id
  {
    if StartsWith(data, "lang_") || data == "trending" || data == "show_genres" {
    } else if StartsWith(data, "genre_") {
      TaggedFieldPrefix(data, "genre");
    } else if StartsWith(data, "select_") {
      TaggedFieldPrefix(data, "select");
    } else if StartsWith(data, "sublist_") {
      TaggedFieldPrefix(data, "sublist");
    }
  }

  /** Only a `gensub_` payload can be rejected or decoded as a subtitle
      request. */
  lemma OutsideGenSub(data: string)
    requires !StartsWith(data, "gensub_")
    ensures !Dispatch(data).Malformed? && !Dispatch(data).MakeSubtitle?
  {
  }

  /** A `gensub_` payload reaches the three-way unpack: no earlier test of
      the handler matches it. */
  lemma GenSubBranch(data: string)
    requires StartsWith(data, "gensub_")
    ensures Dispatch(data) ==
      var parts := Split(data, '_');
      if |parts| == 3 then MakeSubtitle(parts[1], parts[2]) else Malformed
  {
    NotBoth(data, "gensub_", "lang_", 0);
    NotBoth(data, "gensub_", "genre_", 3);
    NotBoth(data, "gensub_", "select_", 0);
    NotBoth(data, "gensub_", "sublist_", 0);
    DiffersFrom(data, "gensub_", "trending", 0);
    DiffersFrom(data, "gensub_", "show_genres", 0);
  }

  /** A `gensub_` payload of three parts is exactly the encoding of its
      second and third parts. */
  lemma GenSubThreeParts(data: string)
    requires StartsWith(data, "gensub_") && |Split(data, '_')| == 3
    ensures var parts := Split(data, '_');
      data == Encode(GenSub(parts[1], parts[2])) && WellFormed(GenSub(parts[1], parts[2]))
  {
    SplitPartsFree(data, '_');
    TaggedShape(data, "gensub");
    var rest := data[7..];
    SplitLeading("gensub", rest, '_');
    var parts := Split(data, '_');
    var q := Split(rest, '_');
    assert |q| == 2 && q == parts[1..];
    JoinSplit(rest, '_');
    assert rest == q[0] + "_" + q[1];
  }

  /** Decoding a subtitle request fails closed: a `gensub_` payload is
      rejected exactly when it does not split into three parts, and when
      it is accepted it is precisely the encoding of the two fields
      decoded, neither holding the separator. */
  lemma GenSubFailsClosed(data: string)
    ensures Dispatch(data).Malformed? <==>
      StartsWith(data, "gensub_") && |Split(data, '_')| != 3
    ensures Dispatch(data).MakeSubtitle? ==>
      var a := Dispatch(data);
      data == Encode(GenSub(a.imdbId, a.langCode)) && WellFormed(GenSub(a.imdbId, a.langCode))
  {
    if StartsWith(data, "gensub_") {
      GenSubBranch(data);
      if |Split(data, '_')| == 3 {
        GenSubThreeParts(data);
      }
    } else {
      OutsideGenSub(data);
    }
  }

  /** For a tagged payload, the field `split("_")[1]` returns starts the
      text after the tag. */
  lemma TaggedFieldPrefix(data: string, tag: string)
    requires '_' !in tag && StartsWith(data, tag + "_")
    ensures '_' in data
    ensures StartsWith(data, tag + "_" + SecondField(data)) && '_' !in SecondField(data)
  {
    TaggedShape(data, tag);
    var rest := data[|tag| + 1..];
    SecondFieldCuts(tag, rest);
    FirstPart(rest, '_');
    SplitPartsFree(rest, '_');
    var f := Split(rest, '_')[0];
    assert rest == f + rest[|f|..];
    assert data == tag + "_" + f + rest[|f|..];
    PrefixStartsWith(tag + "_" + f, rest[|f|..]);
  }

  /** Well-formed payloads of different kinds or fields never collide. */
  lemma EncodeInjective(c1: Callback, c2: Callback)
    requires WellFormed(c1) && WellFormed(c2)
    requires Encode(c1) == Encode(c2)
    ensures c1 == c2
  {
    DispatchEncode(c1);
    DispatchEncode(c2);
    if c1.Lang? && c2.Lang? {
      assert c1.code == Encode(c1)[5..];
      assert c2.code == Encode(c2)[5..];
    }
    if c1.Genre? {
      GenreIsNotTrending(c1.name);
    }
    if c2.Genre? {
      GenreIsNotTrending(c2.name);
    }
  }

  lemma GenreIsNotTrending(name: string)
    ensures Encode(Genre(name)) != Encode(Trending)
  {
    assert Encode(Genre(name))[0] != Encode(Trending)[0];
  }
}
