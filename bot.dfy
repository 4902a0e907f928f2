/** The decisions of the bot's handlers (main.py:42-207) as functions from
    an incoming event to the one action the handler performs. Every call
    into Telegram, yt-dlp or `requests` is an `Action` value or, for what
    the bot reads back from them, a parameter. */
module Bot {
  import opened Values
  import opened Strings
  import opened Keyboard
  import opened Tokens
  import Formats
  import AudioTable

  datatype MediaKind = Photo | VideoFile | AudioFile

  /** What a handler does. */
  datatype Action =
    | ShowMenu(prompt: string, keyboard: seq<seq<Button>>)  // reply_text with an inline keyboard
    | SendMedia(kind: MediaKind, url: string)               // reply_photo / reply_video / reply_audio
    | ReplyText(text: string)                               // reply_text without keyboard
    | FetchVideo(format: string, url: string)               // "Downloading video...", yt-dlp, send_video
    | FetchAudio(format: string, codec: string, bitrate: string, url: string)
                                                            // "Downloading audio...", yt-dlp, send_audio
    | NoAction

  /** How `handle_callback` ends: the chosen branch's action followed by
      `query.answer()`, or an exception that skips the answer. */
  datatype Reply = Answered(action: Action) | Raised(error: Error)

  /** What `requests.head(url)` gave back: the Content-Type header, if any,
      or the message of the exception it raised. */
  datatype Head = HeadOk(contentType: Option<string>) | HeadFailed(message: string)

  /** What yt-dlp's `extract_info(url, download=False)` gave back: the
      `formats` entry of the info dictionary, if any, or the message of the
      exception it raised. */
  datatype Probe = Probed(formats: Option<seq<Formats.Format>>) | ProbeFailed(message: string)

  /** The callback data of every button an action shows. */
  function Emitted(a: Action): seq<string> {
    if a.ShowMenu? then KeyboardData(a.keyboard) else []
  }

  // ---------------------------------------------------------------------
  // Text messages: handle_url, youtube_options, handle_media_url

  /** `"youtube.com" in url or "youtu.be" in url` (main.py:44) */
  predicate IsYoutube(text: string) {
    Contains(text, "youtube.com") || Contains(text, "youtu.be")
  }

  /** The keyboard of `youtube_options` (main.py:50-55). */
  function YoutubeOptions(url: string): seq<seq<Button>> {
    [[Button("Video", TypeData("video", url)), Button("Audio", TypeData("audio", url))]]
  }

  /** The Content-Type chain of `handle_media_url` (main.py:200-207): the
      media kinds are tried in the order image, video, audio and the first
      one the Content-Type mentions wins. */
  function MediaReply(url: string, contentType: string): (a: Action)
    ensures a == SendMedia(Photo, url) <==>
      exists i :: 0 <= i <= |contentType| && "image" <= contentType[i..]
    ensures a == SendMedia(VideoFile, url) <==>
      !Contains(contentType, "image") && exists i :: 0 <= i <= |contentType| && "video" <= contentType[i..]
    ensures a == SendMedia(AudioFile, url) <==>
      !Contains(contentType, "image") && !Contains(contentType, "video") &&
      exists i :: 0 <= i <= |contentType| && "audio" <= contentType[i..]
    ensures a == ReplyText("Unsupported media type") <==>
      !Contains(contentType, "image") && !Contains(contentType, "video") && !Contains(contentType, "audio")
  {
    if Contains(contentType, "image") then SendMedia(Photo, url)
    else if Contains(contentType, "video") then SendMedia(VideoFile, url)
    else if Contains(contentType, "audio") then SendMedia(AudioFile, url)
    else ReplyText("Unsupported media type")
  }

  /** `handle_media_url` (main.py:195-209): a missing header reads as ''; a
      failing HEAD request is caught and reported. */
  function HandleMediaUrl(url: string, head: Head): (a: Action)
    ensures a.SendMedia? ==> head.HeadOk? && a.url == url
    ensures head.HeadFailed? ==> a.ReplyText? && "Error downloading media: " <= a.text
    ensures head == HeadOk(None) ==> a == ReplyText("Unsupported media type")
    ensures head.HeadOk? ==> a == MediaReply(url, head.contentType.GetOr(""))
  {
    match head
    case HeadFailed(m) => ReplyText("Error downloading media: " + m)
    case HeadOk(ct) =>
      assert !Contains("", "image") && !Contains("", "video") && !Contains("", "audio");
      MediaReply(url, ct.GetOr(""))
  }

  /** `handle_url` (main.py:42-47): a YouTube link gets the type menu, whose
      two buttons are the two type-choice tokens of the link; any other text
      goes to the media path. */
  function HandleText(text: string, head: Head): (a: Action)
    ensures a.ShowMenu? <==> IsYoutube(text)
    ensures IsYoutube(text) ==>
      Emitted(a) == [Encode(ChooseType(Video, text)), Encode(ChooseType(Audio, text))]
    ensures !IsYoutube(text) ==> a == HandleMediaUrl(text, head)
  {
    if IsYoutube(text) then
      var a := ShowMenu("Choose download type:", YoutubeOptions(text));
      assert Flatten(a.keyboard) == a.keyboard[0] + Flatten([]);
      a
    else HandleMediaUrl(text, head)
  }

  // ---------------------------------------------------------------------
  // Callbacks: handle_callback and the menus and downloads it calls

  /** The branches of `handle_callback`, named after the coroutine each one
      awaits, in the order they are tested. */
  datatype Branch = VideoQualities | AudioOptions | AudioQualities | AudioDownload | VideoDownload

  function Rank(b: Branch): nat {
    match b
    case VideoQualities => 0
    case AudioOptions => 1
    case AudioQualities => 2
    case AudioDownload => 3
    case VideoDownload => 4
  }

  /** The `startswith` test of each branch (main.py:118-127). */
  predicate Guard(b: Branch, data: string) {
    match b
    case VideoQualities => "youtube_video" <= data
    case AudioOptions => "youtube_audio" <= data
    case AudioQualities => "audio_mp3" <= data || "audio_m4a" <= data
    case AudioDownload => "mp3_" <= data || "m4a_" <= data
    case VideoDownload => "video_" <= data
  }

  /** The `if`/`elif` chain: the branch that runs is the first one, in the
      fixed order, whose guard holds; none runs when no guard holds. */
  function Select(data: string): (r: Option<Branch>)
    ensures r.Some? ==> Guard(r.value, data) && forall b :: Rank(b) < Rank(r.value) ==> !Guard(b, data)
    ensures r.None? <==> forall b :: !Guard(b, data)
  {
    if Guard(VideoQualities, data) then Some(VideoQualities)
    else if Guard(AudioOptions, data) then Some(AudioOptions)
    else if Guard(AudioQualities, data) then Some(AudioQualities)
    else if Guard(AudioDownload, data) then Some(AudioDownload)
    else if Guard(VideoDownload, data) then Some(VideoDownload)
    else None
  }

  /** `youtube_video_qualities` (main.py:62-84): probe the URL, build one
      button per format with both tracks, two buttons per row. A failing
      probe or a missing `ext`/`format_id` raises. */
  function YoutubeVideoQualities(url: string, probe: Probe): (r: Reply)
    ensures probe.ProbeFailed? ==> r == Raised(ExtractorError(probe.message))
    ensures r.Answered? <==> probe.Probed? && Formats.VideoButtons(probe.formats.GetOr([]), url).Ok?
    ensures probe.Probed? && Formats.VideoButtons(probe.formats.GetOr([]), url).Err? ==>
      r == Raised(Formats.VideoButtons(probe.formats.GetOr([]), url).error)
    ensures r.Answered? ==> (r.action.ShowMenu?
      && r.action.keyboard == Rows(Formats.VideoButtons(probe.formats.GetOr([]), url).value)
      && Flatten(r.action.keyboard) == Formats.VideoButtons(probe.formats.GetOr([]), url).value)
  {
    match probe
    case ProbeFailed(m) => Raised(ExtractorError(m))
    case Probed(formats) =>
      match Formats.VideoButtons(formats.GetOr([]), url)
      case Err(e) => Raised(e)
      case Ok(buttons) =>
        FlattenRows(buttons);
        Answered(ShowMenu("Available video qualities:", Rows(buttons)))
  }

  /** The keyboard of `youtube_audio_options` (main.py:87-92). */
  function YoutubeAudioOptions(url: string): seq<seq<Button>> {
    [[Button("MP3", CodecData("mp3", url)), Button("M4A", CodecData("m4a", url))]]
  }

  /** The keyboard of `audio_quality_options` (main.py:100-106). */
  function AudioQualityOptions(url: string, formatType: string): seq<seq<Button>> {
    [[Button("High", QualityData(formatType, "high", url)),
      Button("Medium", QualityData(formatType, "medium", url)),
      Button("Low", QualityData(formatType, "low", url))]]
  }

  /** `download_video` (main.py:131-151) up to the download itself. */
  function DownloadVideo(data: string): (a: Action)
    requires '_' in data
    ensures a.FetchVideo? && '_' !in a.format
    ensures forall id, u :: '_' !in id && data == VideoData(id, u) ==> a == FetchVideo(id, u)
  {
    assert forall id, u :: '_' !in id && data == VideoData(id, u) ==> ParseVideo(data) == (id, u) by {
      forall id, u | '_' !in id && data == VideoData(id, u) {
        ParseVideoRoundTrip(id, u);
      }
    }
    var (formatId, url) := ParseVideo(data);
    FetchVideo(formatId, url)
  }

  /** `download_audio` (main.py:153-193) up to the download itself: a
      format type or quality outside `format_map` raises KeyError. */
  function DownloadAudio(data: string): (r: Reply)
    requires '_' in data
    ensures r.Raised? <==> ParseAudio(data).0 !in {"mp3", "m4a"} || ParseAudio(data).1 !in {"high", "medium", "low"}
  {
    var (formatType, quality, url) := ParseAudio(data);
    match AudioTable.Selector(formatType, quality)
    case Err(e) => Raised(e)
    case Ok(selector) => Answered(FetchAudio(selector, formatType, AudioTable.PreferredQuality(quality), url))
  }

  /** The body of `handle_callback` from line 118 on, given the URL that the
      menu branches use. */
  function Dispatch(data: string, probe: Probe, url: string): (r: Reply)
    ensures r == Answered(NoAction) <==> forall b :: !Guard(b, data)
    ensures r.Raised? ==> Select(data) == Some(VideoQualities) || Select(data) == Some(AudioDownload)
  {
    match Select(data)
    case None => Answered(NoAction)
    case Some(VideoQualities) => YoutubeVideoQualities(url, probe)
    case Some(AudioOptions) => Answered(ShowMenu("Choose audio format:", YoutubeAudioOptions(url)))
    case Some(AudioQualities) =>
      assert data[5] == '_';
      SplitAtSeparator(data, '_');
      Answered(ShowMenu("Choose audio quality:", AudioQualityOptions(url, Split(data, '_')[1])))
    case Some(AudioDownload) =>
      assert data[3] == '_';
      DownloadAudio(data)
    case Some(VideoDownload) =>
      assert data[5] == '_';
      Answered(DownloadVideo(data))
  }

  /** `handle_callback` as written (main.py:113-129): the menu branches take
      the URL as `data.split('_')[-1]`. */
  function HandleCallbackAsWritten(data: string, probe: Probe): (r: Reply)
    ensures Select(data) !in {Some(VideoQualities), Some(AudioOptions), Some(AudioQualities)} ==>
      r == HandleCallback(data, probe)
  {
    Dispatch(data, probe, LastPiece(data, '_'))
  }

  /** `handle_callback` with the menu branches taking the URL the way the
      download branches do, `'_'.join(data.split('_')[2:])`. */
  function HandleCallback(data: string, probe: Probe): Reply {
    Dispatch(data, probe, Join(Drop(Split(data, '_'), 2), '_'))
  }

  // ---------------------------------------------------------------------
  // The flow of tokens the bot emits

  /** The branch a token is meant for. */
  function BranchOf(t: Token): Branch {
    match t
    case ChooseType(Video, _) => VideoQualities
    case ChooseType(Audio, _) => AudioOptions
    case ChooseCodec(_, _) => AudioQualities
    case ChooseQuality(_, _, _) => AudioDownload
    case ChooseFormat(_, _) => VideoDownload
  }

  /** Every token the bot emits passes exactly one guard: the one of its
      own branch. */
  lemma ExactlyOneGuard(t: Token)
    ensures forall b :: Guard(b, Encode(t)) <==> b == BranchOf(t)
  {
    var data := Encode(t);
    match t
    case ChooseType(k, u) =>
      assert data[..8] == "youtube_";
      assert data[8] == KindName(k)[0];
    case ChooseFormat(f, u) =>
      assert data[..6] == "video_";
      assert data[0] == 'v';
    case ChooseCodec(c, u) =>
      assert data[..6] == "audio_";
      assert data[6..9] == CodecName(c);
      assert data[0] == 'a';
    case ChooseQuality(c, q, u) =>
      assert data[..4] == CodecName(c) + "_";
      assert data[0] == 'm';
  }

  /** The next step of the flow as a function of a typed token: the
      reference the string dispatch is checked against. */
  function Step(t: Token, probe: Probe): Reply {
    match t
    case ChooseType(Video, u) => YoutubeVideoQualities(u, probe)
    case ChooseType(Audio, u) => Answered(ShowMenu("Choose audio format:", YoutubeAudioOptions(u)))
    case ChooseCodec(c, u) => Answered(ShowMenu("Choose audio quality:", AudioQualityOptions(u, CodecName(c))))
    case ChooseQuality(c, q, u) =>
      Answered(FetchAudio(AudioTable.FORMAT_MAP[CodecName(c)][QualityName(q)], CodecName(c),
                          AudioTable.PreferredQuality(QualityName(q)), u))
    case ChooseFormat(f, u) => Answered(FetchVideo(f, u))
  }

  /** `handle_callback` on the data of a button the bot emitted performs
      exactly the step the token names, with the token's URL and choices
      recovered exactly. */
  lemma CallbackFollowsToken(t: Token, probe: Probe)
    requires WellFormed(t)
    ensures HandleCallback(Encode(t), probe) == Step(t, probe)
  {
    var data := Encode(t);
    ExactlyOneGuard(t);
    assert Select(data) == Some(BranchOf(t));
    TokenPieces(t);
    UrlRoundTrip(t);
    assert HandleCallback(data, probe) == Dispatch(data, probe, t.url);
    match t
    case ChooseFormat(f, u) =>
      ParseVideoRoundTrip(f, u);
    case ChooseQuality(c, q, u) =>
      ParseAudioRoundTrip(CodecName(c), QualityName(q), u);
    case _ =>
  }

  /** As written, the menu branches get only the last `_`-piece of the URL
      while the download branches recover it whole. */
  lemma CallbackAsWrittenTruncatesUrl(t: Token, probe: Probe)
    requires WellFormed(t)
    ensures HandleCallbackAsWritten(Encode(t), probe) ==
      if t.ChooseType? || t.ChooseCodec? then Step(WithUrl(t, LastPiece(t.url, '_')), probe)
      else Step(t, probe)
  {
    var data := Encode(t);
    ExactlyOneGuard(t);
    assert Select(data) == Some(BranchOf(t));
    TokenPieces(t);
    LastPieceOfToken(t);
    assert HandleCallbackAsWritten(data, probe) == Dispatch(data, probe, LastPiece(t.url, '_'));
    match t
    case ChooseFormat(f, u) =>
      ParseVideoRoundTrip(f, u);
    case ChooseQuality(c, q, u) =>
      ParseAudioRoundTrip(CodecName(c), QualityName(q), u);
    case _ =>
  }

  /** A YouTube link whose video id holds `_`: as written, the audio menu is
      offered for "b" instead of the link. */
  lemma AsWrittenLosesUrlPrefix(probe: Probe)
    ensures HandleCallbackAsWritten("youtube_audio_youtu.be/a_b", probe) ==
      Answered(ShowMenu("Choose audio format:", YoutubeAudioOptions("b")))
    ensures HandleCallback("youtube_audio_youtu.be/a_b", probe) ==
      Answered(ShowMenu("Choose audio format:", YoutubeAudioOptions("youtu.be/a_b")))
  {
    var t := ChooseType(Audio, "youtu.be/a_b");
    assert Encode(t) == "youtube_audio_youtu.be/a_b";
    CallbackAsWrittenTruncatesUrl(t, probe);
    CallbackFollowsToken(t, probe);
    var r := LastPiece("youtu.be/a_b", '_');
    LastPieceIsSuffix("youtu.be/a_b", '_');
    assert r == "b";
  }

  /** `t'` is a step the menu of `t` offers: the video menu offers format
      choices, the audio menu codec choices, a codec's menu the qualities of
      that codec; every one for the same URL. The downloads offer nothing. */
  predicate Next(t: Token, t': Token) {
    && t'.url == t.url
    && match t
       case ChooseType(Video, _) => t'.ChooseFormat?
       case ChooseType(Audio, _) => t'.ChooseCodec?
       case ChooseCodec(c, _) => t'.ChooseQuality? && t'.codec == c
       case _ => false
  }

  /** `e` is the data of a step that follows `t`. */
  ghost predicate Advances(e: string, t: Token) {
    exists t' :: Encode(t') == e && Next(t, t')
  }

  /** Every button a step shows is the token of a step that follows it, for
      the same URL, and the download steps show none: the video path is
      type, format, download and the audio path type, codec, quality,
      download. The audio menus show exactly their two and three choices. */
  lemma StepAdvances(t: Token, probe: Probe)
    ensures Step(t, probe).Answered? ==>
      forall e :: e in Emitted(Step(t, probe).action) ==> Advances(e, t)
    ensures t.ChooseType? && t.kind == Audio ==>
      Emitted(Step(t, probe).action) == [Encode(ChooseCodec(Mp3, t.url)), Encode(ChooseCodec(M4a, t.url))]
    ensures t.ChooseCodec? ==>
      Emitted(Step(t, probe).action) == [Encode(ChooseQuality(t.codec, High, t.url)),
                                         Encode(ChooseQuality(t.codec, Medium, t.url)),
                                         Encode(ChooseQuality(t.codec, Low, t.url))]
    ensures t.ChooseFormat? || t.ChooseQuality? ==>
      Step(t, probe).Answered? && Emitted(Step(t, probe).action) == []
  {
    match t
    case ChooseType(Video, u) =>
      if probe.Probed? && Formats.VideoButtons(probe.formats.GetOr([]), u).Ok? {
        var buttons := Formats.VideoButtons(probe.formats.GetOr([]), u).value;
        Formats.VideoButtonsAreFormatTokens(probe.formats.GetOr([]), u);
        forall e | e in DataOf(buttons) ensures Advances(e, t) {
          var i :| 0 <= i < |buttons| && DataOf(buttons)[i] == e;
          assert buttons[i] in buttons;
          var f :| f in Formats.Kept(probe.formats.GetOr([])) && f.formatId.Some? &&
            buttons[i].data == Encode(ChooseFormat(Show(f.formatId.value), u));
          assert Next(t, ChooseFormat(Show(f.formatId.value), u));
        }
      }
    case ChooseType(Audio, u) =>
      var kb := YoutubeAudioOptions(u);
      assert Flatten(kb) == kb[0] + Flatten([]);
      assert Next(t, ChooseCodec(Mp3, u)) && Next(t, ChooseCodec(M4a, u));
    case ChooseCodec(c, u) =>
      var kb := AudioQualityOptions(u, CodecName(c));
      assert Flatten(kb) == kb[0] + Flatten([]);
      assert Next(t, ChooseQuality(c, High, u)) && Next(t, ChooseQuality(c, Medium, u));
      assert Next(t, ChooseQuality(c, Low, u));
    case _ =>
  }

  /** The video menu closes the loop: when no kept format id renders with a
      `_`, each of its buttons is the token of one format for the menu's URL,
      and clicking it downloads that format from that URL. */
  lemma VideoMenuFollowsToken(url: string, probe: Probe)
    requires probe.Probed?
    requires forall f :: f in Formats.Kept(probe.formats.GetOr([])) && f.formatId.Some? ==>
      '_' !in Show(f.formatId.value)
    ensures Step(ChooseType(Video, url), probe).Answered? ==>
      forall e :: e in Emitted(Step(ChooseType(Video, url), probe).action) ==>
        exists id :: ('_' !in id && e == Encode(ChooseFormat(id, url)) &&
          HandleCallback(e, probe) == Answered(FetchVideo(id, url)))
  {
    var formats := probe.formats.GetOr([]);
    if Formats.VideoButtons(formats, url).Ok? {
      var buttons := Formats.VideoButtons(formats, url).value;
      Formats.VideoButtonsAreFormatTokens(formats, url);
      forall e | e in DataOf(buttons)
        ensures exists id :: ('_' !in id && e == Encode(ChooseFormat(id, url)) &&
          HandleCallback(e, probe) == Answered(FetchVideo(id, url)))
      {
        var i :| 0 <= i < |buttons| && DataOf(buttons)[i] == e;
        assert buttons[i] in buttons;
        var f :| f in Formats.Kept(formats) && f.formatId.Some? &&
          buttons[i].data == Encode(ChooseFormat(Show(f.formatId.value), url));
        CallbackFollowsToken(ChooseFormat(Show(f.formatId.value), url), probe);
      }
    }
  }

  /** For either codec the three quality buttons download different things:
      `medium` and `low` select the same stream and differ only in the
      bitrate, which strictly decreases from `high` to `low`. */
  lemma QualityTiers(c: Codec, url: string, probe: Probe)
    ensures forall q :: Step(ChooseQuality(c, q, url), probe).Answered?
    ensures var h, m, l := Step(ChooseQuality(c, High, url), probe).action,
                           Step(ChooseQuality(c, Medium, url), probe).action,
                           Step(ChooseQuality(c, Low, url), probe).action;
      && h.FetchAudio? && m.FetchAudio? && l.FetchAudio?
      && h.format != m.format && m.format == l.format
      && DecimalValue(h.bitrate) > DecimalValue(m.bitrate) > DecimalValue(l.bitrate)
  {
    AudioTable.BitrateOrder();
  }
}
