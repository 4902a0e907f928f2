/** The video-quality menu (main.py:62-84): keep the formats of yt-dlp's
    format list that carry both a video and an audio track, label each, and
    give it a `video_{format_id}_{url}` button. */
module Formats {
  import opened Values
  import opened Keyboard
  import Tokens

  /** One entry of yt-dlp's `info['formats']`, a dictionary. Each field is
      the entry for its key: None when the key is absent. */
  datatype Format = Format(
    formatId: Option<Value>,
    ext: Option<Value>,
    vcodec: Option<Value>,
    acodec: Option<Value>,
    formatNote: Option<Value>,
    height: Option<Value>)

  /** `f.get(key)`: the value under the key, or Python's None. */
  function Get(entry: Option<Value>): Value {
    entry.GetOr(Null)
  }

  /** The filter of main.py:70. A missing codec key reads as None, which is
      not the string 'none', so it passes. */
  predicate HasVideoAndAudio(f: Format) {
    Get(f.vcodec) != Str("none") && Get(f.acodec) != Str("none")
  }

  /** `f.get('format_note', f.get('height'))`: the height is used only when
      the format_note key is absent, not when it holds None. */
  function Resolution(f: Format): Value {
    f.formatNote.GetOr(Get(f.height))
  }

  /** The formats the menu offers, in their original order. */
  function Kept(formats: seq<Format>): seq<Format>
    decreases |formats|
  {
    if |formats| == 0 then []
    else
      var init, last := formats[..|formats| - 1], formats[|formats| - 1];
      Kept(init) + (if HasVideoAndAudio(last) then [last] else [])
  }

  /** The kept formats all have both tracks and come from the list, and
      every format of the list with both tracks is kept. */
  lemma {:induction false} KeptMembers(formats: seq<Format>)
    ensures |Kept(formats)| <= |formats|
    ensures forall i :: 0 <= i < |Kept(formats)| ==> HasVideoAndAudio(Kept(formats)[i]) && Kept(formats)[i] in formats
    ensures forall i :: 0 <= i < |formats| && HasVideoAndAudio(formats[i]) ==> formats[i] in Kept(formats)
    decreases |formats|
  {
    if |formats| > 0 {
      var init, last := formats[..|formats| - 1], formats[|formats| - 1];
      KeptMembers(init);
      assert forall i :: 0 <= i < |init| ==> init[i] == formats[i];
      assert formats == init + [last];
    }
  }

  /** The filter keeps order and multiplicity: filtering a concatenation is
      concatenating the filtered parts. */
  lemma {:induction false} KeptAppend(a: seq<Format>, b: seq<Format>)
    ensures Kept(a + b) == Kept(a) + Kept(b)
    decreases |b|
  {
    var c := a + b;
    if |b| == 0 {
      assert c == a;
    } else {
      var init, last := b[..|b| - 1], b[|b| - 1];
      assert c[..|c| - 1] == a + init && c[|c| - 1] == last;
      var tail := if HasVideoAndAudio(last) then [last] else [];
      assert Kept(c) == Kept(a + init) + tail;
      assert Kept(b) == Kept(init) + tail;
      KeptAppend(a, init);
    }
  }

  /** A single format is kept, once, exactly when it has both tracks. */
  lemma KeptSingle(f: Format)
    ensures Kept([f]) == if HasVideoAndAudio(f) then [f] else []
  {
    assert [f][..0] == [];
  }

  /** The button of one kept format (main.py:71-77): label
      "{res}p ({ext})" and data `video_{format_id}_{url}`. `f['ext']` and
      `f['format_id']` raise KeyError when the key is absent, `ext` first. */
  function FormatButton(f: Format, url: string): (r: Result<Button>)
    ensures r.Ok? <==> f.ext.Some? && f.formatId.Some?
    ensures f.ext.None? ==> r == Err(KeyError("ext"))
    ensures f.ext.Some? && f.formatId.None? ==> r == Err(KeyError("format_id"))
    ensures r.Ok? ==> r.value.data == Tokens.Encode(Tokens.ChooseFormat(Show(f.formatId.value), url))
  {
    match f.ext
    case None => Err(KeyError("ext"))
    case Some(ext) =>
      match f.formatId
      case None => Err(KeyError("format_id"))
      case Some(id) =>
        Ok(Button(Show(Resolution(f)) + "p (" + Show(ext) + ")", Tokens.VideoData(Show(id), url)))
  }

  /** The buttons the loop of main.py:68-77 builds, or the first KeyError it
      raises. */
  function VideoButtons(formats: seq<Format>, url: string): Result<seq<Button>>
    decreases |formats|
  {
    if |formats| == 0 then Ok([])
    else
      match VideoButtons(formats[..|formats| - 1], url)
      case Err(e) => Err(e)
      case Ok(buttons) =>
        var f := formats[|formats| - 1];
        if !HasVideoAndAudio(f) then Ok(buttons)
        else
          match FormatButton(f, url)
          case Err(e) => Err(e)
          case Ok(b) => Ok(buttons + [b])
  }

  /** Once a prefix of the list has raised, the whole loop raises the same. */
  lemma {:induction false} ErrorPersists(formats: seq<Format>, j: nat, url: string)
    requires j <= |formats|
    requires VideoButtons(formats[..j], url).Err?
    ensures VideoButtons(formats, url) == VideoButtons(formats[..j], url)
    decreases |formats| - j
  {
    if j == |formats| {
      assert formats[..j] == formats;
    } else {
      assert formats[..j + 1][..j] == formats[..j];
      ErrorPersists(formats, j + 1, url);
    }
  }

  /** main.py:68-77: the loop that appends one button per kept format. */
  method YoutubeVideoButtons(formats: seq<Format>, url: string) returns (r: Result<seq<Button>>)
    ensures r == VideoButtons(formats, url)
  {
    var buttons: seq<Button> := [];
    var i := 0;
    while i < |formats|
      invariant 0 <= i <= |formats|
      invariant VideoButtons(formats[..i], url) == Ok(buttons)
    {
      var f := formats[i];
      assert formats[..i + 1][..i] == formats[..i];
      if Get(f.vcodec) != Str("none") && Get(f.acodec) != Str("none") {
        var res := f.formatNote.GetOr(Get(f.height));
        if f.ext.None? {
          ErrorPersists(formats, i + 1, url);
          return Err(KeyError("ext"));
        }
        if f.formatId.None? {
          ErrorPersists(formats, i + 1, url);
          return Err(KeyError("format_id"));
        }
        var text := Show(res) + "p (" + Show(f.ext.value) + ")";
        buttons := buttons + [Button(text, Tokens.VideoData(Show(f.formatId.value), url))];
      }
      i := i + 1;
    }
    assert formats[..i] == formats;
    r := Ok(buttons);
  }

  /** Which entry of `Kept` raises first, if any. */
  predicate FirstFailure(kept: seq<Format>, url: string, i: int) {
    && 0 <= i < |kept|
    && FormatButton(kept[i], url).Err?
    && forall j :: 0 <= j < i ==> FormatButton(kept[j], url).Ok?
  }

  /** `r` has one button per entry of `kept`, in order, or the KeyError of
      the first entry that has no button. */
  ghost predicate PerKept(kept: seq<Format>, url: string, r: Result<seq<Button>>) {
    && (r.Ok? <==> forall i :: 0 <= i < |kept| ==> FormatButton(kept[i], url).Ok?)
    && (r.Ok? ==> |r.value| == |kept|
                  && forall i :: 0 <= i < |kept| ==> FormatButton(kept[i], url) == Ok(r.value[i]))
    && (r.Err? ==> exists i :: FirstFailure(kept, url, i) && FormatButton(kept[i], url) == Err(r.error))
  }

  /** One more kept format: the loop's result after it. */
  function Extend(r: Result<seq<Button>>, f: Format, url: string): Result<seq<Button>> {
    match r
    case Err(e) => Err(e)
    case Ok(bs) =>
      match FormatButton(f, url)
      case Err(e) => Err(e)
      case Ok(b) => Ok(bs + [b])
  }

  /** Appending a kept format and extending the result keeps `PerKept`. */
  lemma PerKeptSnoc(k0: seq<Format>, f: Format, url: string, r0: Result<seq<Button>>)
    requires PerKept(k0, url, r0)
    ensures PerKept(k0 + [f], url, Extend(r0, f, url))
  {
    var kept := k0 + [f];
    assert forall i :: 0 <= i < |k0| ==> kept[i] == k0[i];
    assert kept[|k0|] == f;
    match r0
    case Err(e) =>
      var i :| FirstFailure(k0, url, i) && FormatButton(k0[i], url) == Err(e);
      assert FirstFailure(kept, url, i) && !FormatButton(kept[i], url).Ok?;
    case Ok(bs) =>
      match FormatButton(f, url)
      case Err(e) =>
        assert FirstFailure(kept, url, |k0|);
        assert !FormatButton(kept[|k0|], url).Ok?;
      case Ok(b) =>
        assert forall i :: 0 <= i < |k0| ==> (bs + [b])[i] == bs[i];
  }

  /** The menu has exactly one button per kept format, in order, unless a
      kept format lacks `ext` or `format_id`; then the first such format
      raises its KeyError and no menu is built. */
  lemma {:induction false} VideoButtonsPerKeptFormat(formats: seq<Format>, url: string)
    ensures var r, kept := VideoButtons(formats, url), Kept(formats);
      && (r.Ok? <==> forall i :: 0 <= i < |kept| ==> FormatButton(kept[i], url).Ok?)
      && (r.Ok? ==> |r.value| == |kept|
                    && forall i :: 0 <= i < |kept| ==> FormatButton(kept[i], url) == Ok(r.value[i]))
      && (r.Err? ==> exists i :: FirstFailure(kept, url, i) && FormatButton(kept[i], url) == Err(r.error))
    decreases |formats|
  {
    if |formats| > 0 {
      var init, f := formats[..|formats| - 1], formats[|formats| - 1];
      VideoButtonsPerKeptFormat(init, url);
      assert PerKept(Kept(init), url, VideoButtons(init, url));
      if HasVideoAndAudio(f) {
        assert Kept(formats) == Kept(init) + [f];
        assert VideoButtons(formats, url) == Extend(VideoButtons(init, url), f, url);
        PerKeptSnoc(Kept(init), f, url, VideoButtons(init, url));
      } else {
        assert Kept(formats) == Kept(init);
        assert VideoButtons(formats, url) == VideoButtons(init, url);
      }
      assert PerKept(Kept(formats), url, VideoButtons(formats, url));
    }
  }

  /** Every button of the video menu carries a video token for
      the menu's URL, built from its format id. */
  lemma VideoButtonsAreFormatTokens(formats: seq<Format>, url: string)
    requires VideoButtons(formats, url).Ok?
    ensures forall b :: b in VideoButtons(formats, url).value ==>
      exists f :: (f in Kept(formats) && f.formatId.Some? &&
        b.data == Tokens.Encode(Tokens.ChooseFormat(Show(f.formatId.value), url)))
  {
    VideoButtonsPerKeptFormat(formats, url);
  }
}
