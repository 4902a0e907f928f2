/** Callback tokens. The bot encodes each step of its selection flow as a
    string `<tag>_<choice>_<url>` (main.py:52-53, 75, 89-90, 102-104) with
    the URL embedded raw, and later parses it back with `split('_')` and
    `'_'.join(...)` (main.py:116, 133-134, 155-158). */
module Tokens {
  import opened Strings

  datatype Kind = Video | Audio
  datatype Codec = Mp3 | M4a
  datatype Quality = High | Medium | Low

  /** The steps of the flow, as typed values. */
  datatype Token =
    | ChooseType(kind: Kind, url: string)                       // "Video" / "Audio"
    | ChooseFormat(formatId: string, url: string)               // one video format
    | ChooseCodec(codec: Codec, url: string)                    // "MP3" / "M4A"
    | ChooseQuality(codec: Codec, quality: Quality, url: string) // "High" / "Medium" / "Low"

  function KindName(k: Kind): string {
    match k
    case Video => "video"
    case Audio => "audio"
  }

  function CodecName(c: Codec): string {
    match c
    case Mp3 => "mp3"
    case M4a => "m4a"
  }

  function QualityName(q: Quality): string {
    match q
    case High => "high"
    case Medium => "medium"
    case Low => "low"
  }

  /** f"youtube_{kind}_{url}" */
  function TypeData(kind: string, url: string): string {
    "youtube_" + kind + "_" + url
  }

  /** f"video_{format_id}_{url}" */
  function VideoData(formatId: string, url: string): string {
    "video_" + formatId + "_" + url
  }

  /** f"audio_{codec}_{url}" */
  function CodecData(codec: string, url: string): string {
    "audio_" + codec + "_" + url
  }

  /** f"{format_type}_{quality}_{url}" */
  function QualityData(formatType: string, quality: string, url: string): string {
    formatType + "_" + quality + "_" + url
  }

  /** The callback data the bot puts on the button for a step. */
  function Encode(t: Token): string {
    match t
    case ChooseType(k, u) => TypeData(KindName(k), u)
    case ChooseFormat(f, u) => VideoData(f, u)
    case ChooseCodec(c, u) => CodecData(CodecName(c), u)
    case ChooseQuality(c, q, u) => QualityData(CodecName(c), QualityName(q), u)
  }

  /** The same step for another URL. */
  function WithUrl(t: Token, url: string): Token {
    match t
    case ChooseType(k, _) => ChooseType(k, url)
    case ChooseFormat(f, _) => ChooseFormat(f, url)
    case ChooseCodec(c, _) => ChooseCodec(c, url)
    case ChooseQuality(c, q, _) => ChooseQuality(c, q, url)
  }

  /** The first field of a token. */
  function Tag(t: Token): string {
    match t
    case ChooseType(_, _) => "youtube"
    case ChooseFormat(_, _) => "video"
    case ChooseCodec(_, _) => "audio"
    case ChooseQuality(c, _, _) => CodecName(c)
  }

  /** The second field of a token. */
  function Choice(t: Token): string {
    match t
    case ChooseType(k, _) => KindName(k)
    case ChooseFormat(f, _) => f
    case ChooseCodec(c, _) => CodecName(c)
    case ChooseQuality(_, q, _) => QualityName(q)
  }

  /** A format identifier holding the separator cannot be recovered. */
  predicate WellFormed(t: Token) {
    t.ChooseFormat? ==> '_' !in t.formatId
  }

  /** `download_video`'s parse (main.py:133-134): the second piece is the
      format id, the third piece on, re-joined, is the URL. */
  function ParseVideo(data: string): (r: (string, string))
    requires '_' in data
    ensures '_' !in r.0
    ensures exists tag :: ('_' !in tag &&
      (data == tag + "_" + r.0 + "_" + r.1 || (r.1 == "" && data == tag + "_" + r.0)))
  {
    SplitAtSeparator(data, '_');
    var parts := Split(data, '_');
    FieldsRebuild(data);
    (parts[1], Join(Drop(parts, 2), '_'))
  }

  /** `download_audio`'s parse (main.py:155-158): format type, quality, URL. */
  function ParseAudio(data: string): (r: (string, string, string))
    requires '_' in data
    ensures '_' !in r.0 && '_' !in r.1
    ensures data == QualityData(r.0, r.1, r.2) || (r.2 == "" && data == r.0 + "_" + r.1)
  {
    SplitAtSeparator(data, '_');
    var parts := Split(data, '_');
    FieldsRebuild(data);
    (parts[0], parts[1], Join(Drop(parts, 2), '_'))
  }

  /** The first two pieces and the re-joined rest put the data back
      together; with only two pieces the rest is empty and so is its
      separator. */
  lemma FieldsRebuild(data: string)
    requires '_' in data
    ensures var p := Split(data, '_');
      |p| >= 2 &&
      (if |p| >= 3 then data == p[0] + "_" + p[1] + "_" + Join(Drop(p, 2), '_')
       else Join(Drop(p, 2), '_') == "" && data == p[0] + "_" + p[1])
  {
    SplitAtSeparator(data, '_');
    JoinSplit(data, '_');
    var p := Split(data, '_');
    var rest := Join(p[1..], '_');
    assert data == p[0] + "_" + rest;
    if |p| >= 3 {
      assert p[1..][1..] == p[2..] && Drop(p, 2) == p[2..];
      assert rest == p[1] + "_" + Join(p[2..], '_');
    } else {
      assert p[1..] == [p[1]] && Drop(p, 2) == [];
    }
  }

  /** Every token has the uniform shape `<tag>_<choice>_<url>`. */
  lemma EncodeShape(t: Token)
    ensures Encode(t) == Tag(t) + "_" + Choice(t) + "_" + t.url
    ensures '_' !in Tag(t)
    ensures WellFormed(t) ==> '_' !in Choice(t)
  {
  }

  /** The pieces of `a_b_u` when neither `a` nor `b` holds the separator. */
  lemma SplitTwoFields(a: string, b: string, u: string)
    requires '_' !in a && '_' !in b
    ensures Split(a + "_" + b + "_" + u, '_') == [a, b] + Split(u, '_')
  {
    assert a + "_" + b + "_" + u == a + ['_'] + (b + ['_'] + u);
    SplitAfterPiece(b, u, '_');
    SplitAfterPiece(a, b + ['_'] + u, '_');
  }

  /** A well-formed token splits into its tag, its choice, and the pieces of
      its URL. */
  lemma TokenPieces(t: Token)
    requires WellFormed(t)
    ensures Split(Encode(t), '_') == [Tag(t), Choice(t)] + Split(t.url, '_')
  {
    EncodeShape(t);
    SplitTwoFields(Tag(t), Choice(t), t.url);
  }

  /** A token is determined by its three fields. */
  lemma FieldsDetermineToken(t1: Token, t2: Token)
    requires Tag(t1) == Tag(t2) && Choice(t1) == Choice(t2) && t1.url == t2.url
    ensures t1 == t2
  {
    match t1
    case ChooseType(k, _) =>
      assert Tag(t1)[0] == 'y';
      assert k == Video <==> Choice(t1)[0] == 'v';
    case ChooseFormat(_, _) =>
      assert Tag(t1)[0] == 'v';
    case ChooseCodec(c, _) =>
      assert Tag(t1)[0] == 'a';
      assert c == Mp3 <==> Choice(t1)[1] == 'p';
    case ChooseQuality(c, q, _) =>
      assert c == Mp3 <==> Tag(t1)[1] == 'p';
      assert Tag(t2)[0] == 'm';
      assert q == High <==> Choice(t1)[0] == 'h';
      assert q == Medium <==> Choice(t1)[0] == 'm';
  }

  /** Distinct well-formed tokens give distinct callback data, so every
      button of the flow names exactly one step. */
  lemma EncodeInjective(t1: Token, t2: Token)
    requires WellFormed(t1) && WellFormed(t2)
    requires Encode(t1) == Encode(t2)
    ensures t1 == t2
  {
    TokenPieces(t1);
    TokenPieces(t2);
    var p1, p2 := Split(Encode(t1), '_'), Split(Encode(t2), '_');
    assert p1 == p2;
    assert Tag(t1) == p1[0] && Tag(t2) == p2[0];
    assert Choice(t1) == p1[1] && Choice(t2) == p2[1];
    assert Split(t1.url, '_') == p1[2..] && Split(t2.url, '_') == p2[2..];
    JoinSplit(t1.url, '_');
    JoinSplit(t2.url, '_');
    FieldsDetermineToken(t1, t2);
  }

  /** The URL as the download stages recover it, `'_'.join(parts[2:])`, is
      the token's URL exactly, underscores included. */
  lemma UrlRoundTrip(t: Token)
    requires WellFormed(t)
    ensures Join(Drop(Split(Encode(t), '_'), 2), '_') == t.url
  {
    TokenPieces(t);
    var parts := Split(Encode(t), '_');
    assert Drop(parts, 2) == Split(t.url, '_');
    JoinSplit(t.url, '_');
  }

  /** `download_video` recovers the format id and the URL from
      `video_{format_id}_{url}` whenever the format id has no `_`, even when
      the URL has one. */
  lemma ParseVideoRoundTrip(formatId: string, url: string)
    requires '_' !in formatId
    ensures '_' in VideoData(formatId, url)
    ensures ParseVideo(VideoData(formatId, url)) == (formatId, url)
  {
    var t := ChooseFormat(formatId, url);
    assert VideoData(formatId, url)[5] == '_';
    TokenPieces(t);
    UrlRoundTrip(t);
  }

  /** A format id that holds `_` is cut at its first `_` by
      `download_video`: the rest of it is taken as the front of the URL. */
  lemma ParseVideoCutsFormatId(idHead: string, idTail: string, url: string)
    requires '_' !in idHead
    ensures '_' in VideoData(idHead + "_" + idTail, url)
    ensures ParseVideo(VideoData(idHead + "_" + idTail, url)) == (idHead, idTail + "_" + url)
  {
    var data := VideoData(idHead + "_" + idTail, url);
    assert data[5] == '_';
    assert data == "video" + ['_'] + (idHead + ['_'] + (idTail + "_" + url));
    SplitAfterPiece(idHead, idTail + "_" + url, '_');
    SplitAfterPiece("video", idHead + ['_'] + (idTail + "_" + url), '_');
    var parts := Split(data, '_');
    assert Drop(parts, 2) == Split(idTail + "_" + url, '_');
    JoinSplit(idTail + "_" + url, '_');
  }

  /** `download_audio` recovers format type, quality and URL from
      `{format_type}_{quality}_{url}` whenever the first two hold no `_`. */
  lemma ParseAudioRoundTrip(formatType: string, quality: string, url: string)
    requires '_' !in formatType && '_' !in quality
    ensures '_' in QualityData(formatType, quality, url)
    ensures ParseAudio(QualityData(formatType, quality, url)) == (formatType, quality, url)
  {
    var data := QualityData(formatType, quality, url);
    assert data[|formatType|] == '_';
    SplitTwoFields(formatType, quality, url);
    var parts := Split(data, '_');
    assert Drop(parts, 2) == Split(url, '_');
    JoinSplit(url, '_');
  }

  /** The URL as the menu stages take it, `data.split('_')[-1]`, is only the
      last piece of the token's URL: the whole URL when it has no `_`, and
      otherwise what follows its last `_`. */
  lemma LastPieceOfToken(t: Token)
    requires WellFormed(t)
    ensures LastPiece(Encode(t), '_') == LastPiece(t.url, '_')
    ensures LastPiece(Encode(t), '_') == t.url <==> '_' !in t.url
  {
    TokenPieces(t);
    var p := Split(t.url, '_');
    var q := [Tag(t), Choice(t)] + p;
    assert Split(Encode(t), '_') == q;
    assert q[|q| - 1] == p[|p| - 1];
    assert LastPiece(Encode(t), '_') == LastPiece(t.url, '_');
    LastPieceIsSuffix(t.url, '_');
  }
}
