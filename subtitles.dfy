/** The subtitle file the `gensub_` branch of `button_click` produces: a
    single SRT cue whose text is a header naming the title followed by a
    translated greeting, saved under a name built from the title and the
    language code. Writing and sending the file are not modelled. */
module Subtitles {
  import opened Wrappers
  import opened Text

  /** The SRT cue number and timing line. */
  const CueIndex := "1"
  const CueTiming := "00:00:01,000 --> 00:00:10,000"
  const CueHeader := CueIndex + "\n" + CueTiming + "\n"

  const Credit := "Generated by Flixel AI"

  /** The line naming the title. */
  function TitleLine(title: string): string
  {
    "Subtitle for " + title
  }

  /** The header text naming the title, crediting the bot, and ending in a
      blank line. */
  function Header(title: string): string
  {
    TitleLine(title) + "\n" + Credit + "\n" + "\n"
  }

  /** The whole SRT text: the cue, then the header, then the translation. */
  function SrtBody(title: string, content: string): string
  {
    CueHeader + Header(title) + content
  }

  /** The file name: the title with spaces turned into `_`, then `_`, the
      language code and `.srt`. */
  function FileName(title: string, langCode: string): string
  {
    ReplaceChar(title, ' ', "_") + "_" + langCode + ".srt"
  }

  datatype SubtitleFile = SubtitleFile(name: string, body: string)

  /** Either step inside the handler's `try` failed: the translator raised,
      or the title was missing and `None.replace` raised. */
  datatype SubtitleFault = GenerationFailed

  /** The subtitle for a looked-up title (`None` when the lookup returned
      none) in language `langCode`, given what the translator returned for
      the fixed greeting (`None` when it raised). */
  function GenerateSubtitle(title: Option<string>, langCode: string, translated: Option<string>): (r: Result<SubtitleFile, SubtitleFault>)
    ensures r.Success? <==> title.Some? && translated.Some?
    ensures r.Success? ==> r.value.name == FileName(title.value, langCode)
    ensures r.Success? ==> r.value.body == SrtBody(title.value, translated.value)
  {
    match (title, translated)
    case (Some(t), Some(content)) => Success(SubtitleFile(FileName(t, langCode), SrtBody(t, content)))
    case _ => Failure(GenerationFailed)
  }

  /** Read line by line, the header is the title line, the credit and a
      blank line, and whatever follows it keeps its own lines. */
  lemma HeaderLines(title: string, rest: string)
    requires '\n' !in title
    ensures Split(Header(title) + rest, '\n') == [TitleLine(title), Credit, ""] + Split(rest, '\n')
  {
    var lines := Split(rest, '\n');
    var t4 := "" + "\n" + rest;
    var t3 := Credit + "\n" + t4;
    assert Header(title) + rest == TitleLine(title) + "\n" + t3;
    SplitLeading("", rest, '\n');
    SplitLeading(Credit, t4, '\n');
    assert '\n' !in TitleLine(title);
    SplitLeading(TitleLine(title), t3, '\n');
    assert Split(Header(title) + rest, '\n') == [TitleLine(title)] + ([Credit] + ([""] + lines));
    assert [TitleLine(title)] + ([Credit] + ([""] + lines)) == [TitleLine(title), Credit, ""] + lines;
  }

  /** Read line by line, the subtitle is the cue number, the timing line,
      the header's two lines and a blank line, and then exactly the lines of
      the translation. */
  lemma SrtLines(title: string, content: string)
    requires '\n' !in title
    ensures Split(SrtBody(title, content), '\n') ==
      [CueIndex, CueTiming, TitleLine(title), Credit, ""] + Split(content, '\n')
  {
    var rest := Header(title) + content;
    var body := SrtBody(title, content);
    var lines := Split(content, '\n');
    assert body == CueIndex + "\n" + (CueTiming + "\n" + rest);
    SplitLeading(CueIndex, CueTiming + "\n" + rest, '\n');
    SplitLeading(CueTiming, rest, '\n');
    HeaderLines(title, content);
    assert Split(body, '\n') == [CueIndex] + ([CueTiming] + ([TitleLine(title), Credit, ""] + lines));
    FiveLines(CueIndex, CueTiming, TitleLine(title), Credit, "", lines);
  }

  lemma FiveLines<T>(a: T, b: T, c: T, d: T, e: T, tail: seq<T>)
    ensures [a] + ([b] + ([c, d, e] + tail)) == [a, b, c, d, e] + tail
  {
  }

  /** The file name has the title's length of space-free text, a `_`, the
      language code and the `.srt` extension; it holds no space when the
      code holds none, and the title can be read back from it when the
      title held no `_` of its own. */
  lemma FileNameShape(title: string, langCode: string)
    ensures var f := FileName(title, langCode);
      && |f| == |title| + 1 + |langCode| + 4
      && ' ' !in f[..|title|]
      && f[|title|] == '_'
      && f[|title| + 1..|f| - 4] == langCode
      && f[|f| - 4..] == ".srt"
      && (' ' !in langCode ==> ' ' !in f)
      && ('_' !in title ==> ReplaceChar(f[..|title|], '_', " ") == title)
  {
    var f := FileName(title, langCode);
    var stem := ReplaceChar(title, ' ', "_");
    ReplaceByChar(title, ' ', '_');
    ReplaceRemoves(title, ' ', "_");
    assert f[..|title|] == stem;
    if '_' !in title {
      ReplaceCharRoundTrip(title, ' ', '_');
    }
    if ' ' !in langCode {
      assert f == stem + ("_" + langCode + ".srt");
      assert ' ' !in "_" + langCode + ".srt";
    }
  }
}
