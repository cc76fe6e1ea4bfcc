# Flixel movie bot: a Dafny model of its sequential core

The bot (`main.py`) is a Telegram movie-search assistant. Most of it is
message plumbing and calls to OMDb, Gemini and Google Translate. This project
models the three pieces of it that are plain sequential logic, and proves
what they promise:

- **The daily AI quota** (`ai_search` and the process-wide `ai_usage_tracker`).
  `Quota.QuotaTracker` holds the tracker as a `map<UserId, Record>`. Its
  method `AiSearch` follows the handler one statement at a time:
  1. A missing or stale record is reset to `{count: 0, date: today}`.
  2. The call is refused at 5 searches.
  3. A call without arguments gets the usage hint.
  4. The count goes up only once the AI has answered.

  The method is proved against the pure function `Quota.Transition`, and the
  lemmas about that function give the daily ceiling over any run of calls and
  show that calls by other users leave a record alone.
- **The button payloads** (`callback_data`) and the handler that routes them
  (`button_click`). `Callbacks.Callback` lists the payload kinds and
  `Callbacks.Encode` builds them. `Callbacks.Dispatch` copies the handler: the
  same ordered prefix tests, `split("_")[1]` with Python's `split` rules
  (`Text.Split`), and the three-way unpack of `gensub_` payloads, which raises
  when the count is not three. The lemmas cover:
  - the round trip for payloads whose fields hold no `_`;
  - what a field holding `_` is cut to;
  - the fail-closed `gensub_` decode;
  - that decoding never invents a field.
- **The string templates** around results:
  - the OMDb search URL;
  - the first eight results as `select_` buttons;
  - one button per genre and one per subtitle language;
  - the download link with `%20` for spaces;
  - the subtitle's file name and SRT text.

Inputs instead of effects: the date (`today`), the command's words, the AI's
reply, each OMDb answer and each translator result are parameters. `None`
stands for a call that raised, or for a missing `Title`.

Two points of the code's behaviour shape the model:
- A search is counted only after `generate_content` has returned, not when
  the call is admitted. An empty command, or an AI call that raises, leaves
  the count where the reset put it.
- Only `gensub_` payloads fail closed. The `genre_`, `select_` and `sublist_`
  branches keep the text up to the next `_` (`Callbacks.DispatchSelectCuts`).

## Model

| member | source | states |
|---|---|---|
| `Quota.Transition` | main.py:113-153 | One call touches only the caller's record. The record is first reset to count 0 and date `today` when missing or stale, even if the call then stops on empty arguments. The call is refused exactly when 5 searches were already made today, and the tracker is then unchanged. The count rises by exactly 1 exactly when arguments are present and the AI replied. The limit invariant is preserved. |
| `Quota.QuotaTracker.AiSearch` | main.py:111-153 | The in-place update of the tracker map and the outcome are those of `Transition`. A refusal changes nothing, no other user's record changes, and every count stays at most 5. |
| `Quota.QuotaTracker.constructor` | main.py:43 | The tracker starts empty, which satisfies the limit invariant. |
| `Quota.ReplayCounts` | main.py:117-145 | Over any run of calls on one day, a user's count grows by exactly the number of that user's calls that got a suggestion. |
| `Quota.DailyCeiling` | main.py:117-145 | In whatever order the calls of a day arrive, one at a time, a user is granted at most 5 minus the searches already used today, so at most 5 from a missing or stale record. |
| `Quota.ReplayWithinLimit` | main.py:123-145 | No run of calls takes any record above 5. |
| `Quota.ReplayOthersUntouched` | main.py:117-145 | Calls by other users neither create, remove nor change a user's record. |
| `Quota.LastSlot` | main.py:123-145 | With 4 searches used today, two successful calls in a row give one suggestion, then a refusal. |
| `Text.StartsWith` | main.py:205-265 | The `startswith` tests of `button_click`. `PrefixStartsWith` shows that a payload built as tag plus field passes its own tag's test. |
| `Text.Split` | main.py:233 | `split("_")` always gives at least one part, so index 0 exists even for the empty string. |
| `Text.SplitPartsFree` | main.py:233 | No part of a split holds the separator. |
| `Text.JoinSplit` | main.py:233 | Joining the parts of a split with the separator gives the string back. |
| `Text.SplitWithoutSep` | main.py:233 | A string without the separator splits into exactly itself. |
| `Text.SplitSingleIff` | main.py:267 | A string splits into one part if and only if it holds no separator. |
| `Text.SplitAround` | main.py:267 | Splitting `a + "_" + b` gives the parts of `a` followed by the parts of `b`. |
| `Text.SplitLeading` | main.py:233 | A leading part free of the separator, followed by the separator, splits off as the first part and leaves the split of the rest. |
| `Text.FirstPart` | main.py:233 | The first part of a split is the longest prefix free of the separator. |
| `Text.ReplaceChar` | main.py:163 | `str.replace` with a one-character pattern, as at main.py:163, 245 and 293. `ReplaceByChar` shows that replacing by one character keeps the length and changes exactly the pattern's positions. `ReplaceRemoves` shows no pattern character is left. |
| `Text.ReplaceRemoves` | main.py:163 | `replace(c, rep)` with `c` not in `rep` leaves no `c`. |
| `Text.ReplaceByChar` | main.py:293 | Replacing by one character keeps the length and changes exactly the positions that held the pattern. |
| `Text.ReplaceCharRoundTrip` | main.py:163 | Replacing `c` by `d` is undone by replacing `d` by `c` when the input held no `d`. |
| `Text.EscapeSpacesRoundTrip` | main.py:245 | `replace(' ', '%20')` is undone by unescaping `%20` when the text held no `%`. |
| `Text.Lower` | main.py:219 | `g.lower()` on ASCII text, one character at a time. `LowerChar` states what happens to each character, and `LowerKeepsNonLetter` shows that `_` is neither added nor removed. |
| `Text.LowerChar` | main.py:219 | `lower()` maps each ASCII capital to its own small letter (the letter at the same place in the alphabet), so it leaves no capital, and leaves every other character alone. |
| `Callbacks.Encode` | main.py:77-79 | The `callback_data` strings the bot builds (here and at main.py:91-93, 173, 219, 247, 259). What they mean is carried by `DispatchEncode` (each is routed back to its own kind and fields) and `EncodeInjective` (no two collide). |
| `Callbacks.Dispatch` | main.py:195-267 | The routing of `button_click`: the ordered prefix tests, `split("_")[1]` and the three-way unpack. Its contract is carried by `DispatchEncode` (round trip), `DispatchSound` (nothing invented, for every action but `MakeSubtitle`) and `GenSubFailsClosed` (malformed exactly for a `gensub_` payload without three parts). |
| `Callbacks.DispatchEncode` | main.py:205-267 | Round trip: every payload whose fields hold no `_` is routed to the action of its kind, with exactly the fields it was built from. |
| `Callbacks.DispatchSelectCuts` | main.py:231-233 | Any `select_` payload opens the detail card of its id cut at the first `_`. This is the lossy case of `split("_")[1]`. |
| `Callbacks.DispatchGenreCuts` | main.py:225-227 | Any `genre_` payload searches for its name cut at the first `_`. |
| `Callbacks.DispatchSubListCuts` | main.py:255-257 | Any `sublist_` payload lists subtitle languages for its id cut at the first `_`. |
| `Callbacks.SelectCutsExample` | main.py:233 | `select_tt_1` opens the detail card of `tt`. |
| `Callbacks.GenSubDecodesIff` | main.py:259-267 | `gensub_<id>_<code>` decodes to `(id, code)` if and only if neither field holds `_`; otherwise it is rejected. |
| `Callbacks.GenSubFailsClosed` | main.py:265-267 | A payload is rejected as malformed if and only if it starts with `gensub_` and does not split into three parts. An accepted one is exactly the encoding of the two decoded fields. |
| `Callbacks.DispatchSound` | main.py:205-257 | Whatever a payload is routed to among the main menu, a search, the genre menu, a detail card and a subtitle list, the payload begins with the encoding of that action's fields, and the decoded fields hold no `_`. |
| `Callbacks.EncodeInjective` | main.py:205-267 | Two payloads with fields free of `_` are equal only if they encode the same kind and fields. |
| `Menus.StartKeyboard` | main.py:77-79 | The Sinhala and English buttons. `MenusDispatch` shows both return to the main menu. |
| `Menus.MainMenuKeyboard` | main.py:89-95 | The trending and genre buttons. `MenusDispatch` shows they start the `2026` search and open the genre list. |
| `Menus.GenreKeyboard` | main.py:219 | The genre list. `GenreKeyboardDispatch` shows one button per genre, in order, each searching for its lower-cased genre. |
| `Menus.SubtitleKeyboard` | main.py:259 | The subtitle-language list for one title. `SubtitleKeyboardDispatch` shows one button per language, in order, each requesting that language for the same title. |
| `Menus.MenusDispatch` | main.py:77-93 | The two language buttons return to the main menu. The main menu's buttons start the trending search for `2026` and open the genre list. |
| `Menus.GenreKeyboardDispatch` | main.py:219 | One button per entry of `GENRES`, in order, each captioned with its genre. Tapping button `i` searches for the lower-cased genre `i`. |
| `Menus.SubtitleKeyboardDispatch` | main.py:259 | One button per subtitle language, in order. Tapping one requests that language for the same title when its id holds no `_`, and is rejected otherwise. |
| `Search.SearchUrl` | main.py:163 | The OMDb title-search URL. `SearchUrlQuery` shows the term enters it with spaces turned into `+`, and can be read back when it held no `+`. |
| `Search.ResultCaption` | main.py:173 | The caption of a result button, title then year. `ResultButtons` puts match `i`'s caption on button `i`. |
| `Search.SearchUrlQuery` | main.py:163 | The search term enters the OMDb URL with every space turned into `+`, keeps its length, and can be read back when it held no `+`. The URL has no spaces when the API key has none. |
| `Search.ResultButtons` | main.py:171-173 | At most 8 buttons, exactly `min(8, n)` of them, in the provider's order. Button `i` carries match `i`'s caption and `select_` plus its id. |
| `Search.PerformSearch` | main.py:169-189 | A result list is sent exactly when OMDb reported matches, and the list sent is `ResultButtons` of those matches: at most 8, in the provider's order, each a `select_` button. |
| `Search.ResultButtonsDispatch` | main.py:173 | Tapping result `i` opens the detail card of match `i` (its id cut at a `_`, if it holds one). |
| `Search.WatchUrl` | main.py:243 | The player link for an id. `DetailKeyboardLinks` puts it on the card's first button. |
| `Search.DownloadUrl` | main.py:245 | The download link, with `%20` for spaces. `DownloadUrlShape` shows it holds no space, and gives the title back when the title held no `%`. |
| `Search.DownloadUrlShape` | main.py:245 | The download link holds no space, and its path gives the title back when the title held no `%`. |
| `Search.DetailKeyboard` | main.py:237-249 | The detail card's buttons exist exactly when the lookup returned a title. |
| `Search.DetailKeyboardLinks` | main.py:241-249 | The card has three buttons: the player link for the id, the space-free download link for the title, and a subtitle button that lists languages for the same id. |
| `Subtitles.GenerateSubtitle` | main.py:273-307 | A subtitle file is produced exactly when the title is present and the translator answered. Its name and text are then those of `FileName` and `SrtBody`. |
| `Subtitles.SrtBody` | main.py:285-289 | The SRT text. For a title without a line break, `SrtLines` gives it line by line. |
| `Subtitles.FileName` | main.py:293 | The subtitle's file name. `FileNameShape` takes it apart piece by piece. |
| `Subtitles.SrtLines` | main.py:285-289 | For a title without a line break, the SRT text is, line by line, the cue number `1`, the timing line, `Subtitle for <title>`, the credit line, a blank line, and then exactly the lines of the translation. |
| `Subtitles.FileNameShape` | main.py:293 | The file name is the title's length of space-free text, then `_`, the language code and `.srt`. It holds no space when the code holds none, and gives the title back when the title held no `_`. |

## Left out

- Telegram I/O is not modelled: replies, message edits, photos, documents, deletions, `query.answer`, and the handler wiring and polling in `__main__` are transport plumbing. Message wording and Markdown are left out too, except for button captions. Each keyboard is a flat list of buttons, so the row layout is not modelled: main.py:77-79 puts both language buttons on one row, and the other keyboards have one button per row.
- The OMDb requests, Gemini `generate_content` and Google Translate (`to_english` and the subtitle translation) are foreign services. Their answers are inputs: an OMDb answer, an `Option` reply, an `Option` translation. The search term is the already-translated one.
- The prompt sent to Gemini, and the `.strip()` of its reply, are not modelled: `Suggested` carries the reply as given.
- `datetime.date.today()` is a clock, so the day is the parameter `today`.
- Writing and reopening the `.srt` file is filesystem I/O. Only the file's name and text are modelled, so a failed write is not one of `GenerateSubtitle`'s failure cases.
- Text.LowerChar: only ASCII letters are lowered. That is all `GENRES` needs; Python's full Unicode case mapping is not modelled.
- The message shown when something fails after the count has gone up is not modelled. The `except:` of `ai_search` also catches failures of `status.edit_text` and `perform_search`, which run after the increment. The user then sees the "AI failed" message for a search that was counted. The model gives `Suggested` and the raised count, which is what the tracker holds.
- async/await and overlapping calls for one user are not modelled. An `await` lies between the quota check and the count increment, so what two interleaved `ai_search` calls do to one record is outside this sequential model.
- The `lang_` choice stores nothing and only shows the main menu again, so there is no locale state.
- `Callbacks.Dispatch` gives `Ignored` for a payload that no branch matches. The handler has then only acknowledged the tap.
- The OMDb id lookups of the `select_` and `gensub_` branches are not modelled. Their answer enters as the optional title.
