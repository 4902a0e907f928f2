# Media downloader bot: selection flow model

This project is a Dafny model of the decision logic of a Telegram bot. The bot downloads YouTube videos and audio and relays direct media links. A text message is either a YouTube link or a media URL:

- A YouTube link gets a Video/Audio menu.
- A media URL is classified by the Content-Type of a HEAD request.

After the Video/Audio menu, each button click carries a callback token, a string of the form `<tag>_<choice>_<url>` with the URL embedded raw. `handle_callback` routes the token by an ordered chain of prefix tests and parses it back with `split('_')` and `'_'.join(...)`. The video path shows one button per format that has both tracks, two per row. The audio path offers MP3/M4A, then High/Medium/Low, and looks up a yt-dlp format selector and a bitrate in fixed tables.

The calls to Telegram, yt-dlp and `requests` are not modelled as side effects. Each handler is a function that returns the action it performs (`Bot.Action`). What the handler reads back from those libraries is a parameter: `Bot.Head` for the HEAD response and `Bot.Probe` for yt-dlp's format list. An exception in a callback is `Bot.Reply.Raised`, which skips `query.answer()`. Otherwise the result is `Answered(action)`.

Modules:

- `Strings` (strings.dfy): Python's `split`, `join`, `parts[n:]`, `parts[-1]`, `in` and `str(int)`.
- `Values` (values.dfy): optional dictionary entries, results and the format-dictionary values.
- `Keyboard` (keyboard.dfy): buttons and the rows-of-two chunking.
- `Tokens` (tokens.dfy): the callback tokens as a datatype, their f-string encodings, and the parses done by the download stages.
- `Formats` (formats.dfy): the video-format filter, the labels, and the button-building loop. The loop is an imperative method proved against a specification function.
- `AudioTable` (audio.dfy): `format_map` and `preferredquality`.
- `Bot` (bot.dfy): `handle_url`, `handle_media_url`, `handle_callback` and the flow lemmas.

The callback data carries the URL raw, without escaping. The audio extractor gets the bitrate 320, 128 or 64. Nothing in the callback path catches an exception.

## Model

| member | source | states |
|---|---|---|
| Strings.Split | main.py:116 | `split('_')` always yields at least one piece, and no piece contains the separator |
| Strings.SplitNoSeparator | main.py:116 | a string without `_` splits into itself alone |
| Strings.SplitAfterPiece | main.py:155 | splitting `a_b`, where `a` has no `_`, yields `a` followed by the pieces of `b` |
| Strings.SplitAtSeparator | main.py:133 | data containing `_` splits into at least two pieces, so `parts[1]` exists in every branch that reads it |
| Strings.JoinSplit | main.py:134 | `'_'.join(s.split('_')) == s` for every string |
| Strings.SplitJoin | main.py:158 | splitting the join of `_`-free pieces gives the pieces back |
| Strings.LastPieceIsSuffix | main.py:116 | `s.split('_')[-1]` is the suffix after the last `_`; it equals `s` exactly when `s` has no `_` |
| Strings.Contains | main.py:44 | Python's `t in s` holds exactly when `t` is a prefix of some suffix of `s` |
| Keyboard.Rows | main.py:79 | `[b[i:i+2] for i in range(0, n, 2)]` has ceil(n/2) rows; every row but the last has 2 buttons; the last has 1 exactly when n is odd |
| Keyboard.FlattenRows | main.py:79 | concatenating the rows gives back the button list, in order |
| Keyboard.RowsUnfold | main.py:79 | for more than two buttons the rows are the first pair followed by the rows of the rest |
| Keyboard.SliceShift | main.py:79 | slicing after dropping two items equals slicing two further on |
| Tokens.EncodeShape | main.py:52-104 | every token the bot builds has the shape `<tag>_<choice>_<url>`, and the tag holds no `_` |
| Tokens.Encode | main.py:52-104 | the f-strings of the four steps; stated by `Tokens.EncodeShape`, `Tokens.TokenPieces` and `Tokens.EncodeInjective` |
| Tokens.SplitTwoFields | main.py:155-158 | `a_b_u` with `_`-free `a`, `b` splits into `a`, `b` and the pieces of `u` |
| Tokens.TokenPieces | main.py:116 | a token splits into its tag, its choice and the pieces of its URL |
| Tokens.FieldsDetermineToken | main.py:52-104 | tag, choice and URL determine the step |
| Tokens.EncodeInjective | main.py:52-104 | distinct steps get distinct callback data, whatever the URL contains |
| Tokens.UrlRoundTrip | main.py:134 | `'_'.join(parts[2:])` recovers the embedded URL exactly, `_` included |
| Tokens.ParseVideo | main.py:133-134 | the format id `download_video` reads has no `_`, and tag, id and URL put back together with `_` give the data (the URL is empty when there is no second `_`) |
| Tokens.ParseAudio | main.py:155-158 | format type and quality have no `_`, and `{fmt}_{quality}_{url}` gives the data back (the URL is empty when there is no second `_`) |
| Tokens.FieldsRebuild | main.py:155-158 | the first two pieces and the re-joined rest rebuild the data |
| Tokens.ParseVideoRoundTrip | main.py:131-134 | `download_video` recovers the format id and the URL from `video_{id}_{url}` when the id has no `_` |
| Tokens.ParseVideoCutsFormatId | main.py:133-134 | a format id containing `_` is cut at its first `_`; the rest is prepended to the URL |
| Tokens.ParseAudioRoundTrip | main.py:155-158 | `download_audio` recovers format type, quality and URL from `{fmt}_{quality}_{url}` |
| Tokens.LastPieceOfToken | main.py:116 | `data.split('_')[-1]` of a token is the last piece of its URL; it is the whole URL iff the URL has no `_` |
| Formats.Kept | main.py:69-70 | the filter as a function; its order, multiplicity and membership are stated by `Formats.KeptAppend`, `Formats.KeptSingle` and `Formats.KeptMembers` |
| Formats.KeptMembers | main.py:69-70 | kept formats all have both tracks and come from the list; every format with both tracks is kept (missing codec keys pass) |
| Formats.KeptAppend | main.py:69-70 | filtering a concatenation is concatenating the filtered parts, so order and multiplicity are kept |
| Formats.KeptSingle | main.py:70 | a single format is kept, once, exactly when it has both tracks |
| Formats.HasVideoAndAudio | main.py:70 | the filter `f.get('vcodec') != 'none' and f.get('acodec') != 'none'`; stated by `Formats.KeptMembers` and `Formats.KeptSingle`, where a missing codec key passes |
| Formats.Resolution | main.py:71 | `f.get('format_note', f.get('height'))`: the height is used only when the `format_note` key is absent, not when it holds None; it enters the label stated by `Formats.VideoButtonsPerKeptFormat` |
| Formats.FormatButton | main.py:71-77 | a button is built iff `ext` and `format_id` are present; a missing `ext` raises KeyError('ext') first, then a missing `format_id` raises KeyError('format_id'); the data is the `video_{format_id}_{url}` token |
| Formats.VideoButtons | main.py:68-77 | the loop's result as a function; characterised by `Formats.VideoButtonsPerKeptFormat` |
| Formats.ErrorPersists | main.py:68-77 | once the loop has raised on a prefix, the whole loop raises the same error |
| Formats.PerKeptSnoc | main.py:68-77 | one more kept format extends the loop's result by its button, or by its KeyError, keeping one button per kept format |
| Formats.YoutubeVideoButtons | main.py:68-77 | the append loop builds exactly the specified buttons, or raises the specified first KeyError |
| Formats.VideoButtonsPerKeptFormat | main.py:68-77 | one button per kept format, in order, labelled `"{res}p ({ext})"`; otherwise the first kept format missing `ext`/`format_id` raises its KeyError |
| Formats.VideoButtonsAreFormatTokens | main.py:75 | every button of the video menu carries `video_{format_id}_{url}` for the menu's URL |
| AudioTable.Selector | main.py:160-174 | `format_map[fmt][quality]` succeeds exactly on {mp3, m4a} x {high, medium, low}; otherwise KeyError on the first missing key |
| AudioTable.MediumAliasesLow | main.py:160-171 | for both formats `medium` and `low` share one selector and `high` differs |
| AudioTable.PreferredQuality | main.py:178 | the bitrate handed to the audio extractor is a non-empty string of decimal digits for any quality string |
| AudioTable.BitrateOrder | main.py:178 | the bitrates of high, medium and low are strictly decreasing and positive |
| Bot.HandleText | main.py:42-60 | a text gets the type menu iff it contains `youtube.com` or `youtu.be`; its buttons are the two type-choice tokens of the text; any other text takes the media path |
| Bot.YoutubeOptions | main.py:50-55 | the Video/Audio keyboard; stated by `Bot.HandleText`: its data are the two type tokens of the link |
| Bot.MediaReply | main.py:200-207 | Content-Type is tested for image, then video, then audio, and the first match wins; otherwise "Unsupported media type" |
| Bot.HandleMediaUrl | main.py:195-209 | after a successful HEAD the reply is the Content-Type classification of `Bot.MediaReply` (a missing header reads as `''` and is unsupported); a failing HEAD is reported as "Error downloading media: ..."; media is sent only for the given URL |
| Bot.Select | main.py:118-127 | the branch run is the first in the fixed order whose prefix test holds; none runs iff no test holds |
| Bot.YoutubeVideoQualities | main.py:62-84 | a failing probe raises its error; a failing loop raises exactly the loop's KeyError; otherwise the menu is `Rows` of the loop's buttons (ceil(n/2) rows of two, the last of one when n is odd), which flatten back to those buttons |
| Bot.YoutubeAudioOptions | main.py:86-97 | the MP3/M4A keyboard; stated by `Bot.StepAdvances`: exactly the two codec tokens for the same URL |
| Bot.AudioQualityOptions | main.py:99-111 | the High/Medium/Low keyboard; stated by `Bot.StepAdvances`: exactly the three quality tokens of the codec for the same URL |
| Bot.DownloadVideo | main.py:131-151 | the video download's format id has no `_`, and on `video_{id}_{url}` with a `_`-free id it fetches format `id` from `url` |
| Bot.DownloadAudio | main.py:153-178 | the audio download raises exactly when format type or quality is outside `format_map` |
| Bot.Dispatch | main.py:118-129 | no action iff no prefix matches; only the video menu and the audio download can raise; otherwise the answer is sent after the branch |
| Bot.HandleCallbackAsWritten | main.py:113-129 | as written, the handler differs from the corrected one only in the three menu branches; for the downloads and unmatched data the two agree |
| Bot.HandleCallback | main.py:113-158 | the corrected handler; characterised by `Bot.CallbackFollowsToken` |
| Bot.ExactlyOneGuard | main.py:118-127 | every token the bot emits passes exactly one prefix test, that of its own branch |
| Bot.CallbackFollowsToken | main.py:113-158 | on a token the bot emitted, the corrected `handle_callback` performs exactly the step the token names, with its choices and URL recovered exactly |
| Bot.CallbackAsWrittenTruncatesUrl | main.py:116-123 | as written, the two menu stages receive only the last `_`-piece of the URL; the download stages receive it whole |
| Bot.AsWrittenLosesUrlPrefix | main.py:116 | `youtube_audio_youtu.be/a_b` yields the audio menu for `b` as written, and for `youtu.be/a_b` when corrected |
| Bot.StepAdvances | main.py:49-127 | every button a step shows is the token of its next step for the same URL: type Video to a format, type Audio to a codec (exactly MP3 and M4A), a codec to a quality of that codec (exactly High, Medium, Low); the downloads show none |
| Bot.VideoMenuFollowsToken | main.py:62-84 | when no kept format id renders with `_`, every video-menu button is `video_{id}_{url}` for the menu's URL and clicking it downloads format `id` from that URL |
| Bot.QualityTiers | main.py:160-178 | for either codec the three quality buttons give three different downloads: `medium` and `low` select the same stream, and the bitrate strictly decreases from high to low |

## Left out

- Telegram calls (`reply_text`, `edit_message_text`, `send_video`, `send_audio`, `reply_photo`, `reply_video`, `reply_audio`, `query.answer`) are modelled only as returned `Bot.Action` and `Bot.Reply` values.
- yt-dlp: `extract_info(url, download=False)` in the video menu is the `Bot.Probe` parameter. The download itself (`extract_info(..., download=True)`, `prepare_filename`, the `.webm` renaming, opening and removing the file) is the `FetchVideo`/`FetchAudio` action. These depend on a foreign library, the network and the file system.
- Bot.CallbackFollowsToken: `Answered(FetchVideo/FetchAudio)` presumes that the download and the upload succeed. In the code an exception there would also skip `query.answer()`. Those failures come from yt-dlp and Telegram, which are not modelled.
- Bot.VideoMenuFollowsToken: covers only menus whose kept format ids render without `_`. For an id with `_`, `download_video` cuts the id at its first `_` (`Tokens.ParseVideoCutsFormatId`), and the button does not download the format it names.
- `requests.head` is the `Bot.Head` parameter. Its header lookup is case-insensitive in `requests`; the model receives the Content-Type value directly. Exceptions raised by `reply_photo`/`reply_video`/`reply_audio` inside the same `try` are Telegram I/O and are not modelled.
- The `/start`, `/help` and `/donate` replies are fixed text. The handler registration, the command filter, the environment token, logging and `run_polling` are process wiring.
- async/await scheduling: the code has no concurrency logic of its own.
- Format dictionaries hold only `None`, strings and integers here. Other Python values (floats, lists) and their `str()` forms are not modelled.
- A `formats` entry that is present but holds None is not modelled. In the code, iterating over it raises TypeError; the model has only a missing entry, read as the empty list.
- Telegram's 64-byte limit on callback data is not part of this model.

## Findings

| source | as written | input that shows it | evidently intended | confidence | as-written member | corrected member |
|---|---|---|---|---|---|---|
| main.py:116 | the video-menu, audio-menu and quality-menu branches take the URL as the last `_`-separated piece of the callback data | `youtube_audio_youtu.be/a_b`: the audio menu is built for `b`, and every later step downloads `b` (YouTube video ids may contain `_`) | the whole embedded URL, re-joined from the third piece on, as `download_video` and `download_audio` already do (main.py:134, 158) | high; not executed | Bot.AsWrittenLosesUrlPrefix | Bot.CallbackFollowsToken |

`Bot.HandleCallbackAsWritten` models line 116 as written. `Bot.HandleCallback` is the corrected handler, and the flow lemmas are stated for it.
