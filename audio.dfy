/** The audio download settings of `download_audio` (main.py:160-178): the
    yt-dlp format selector looked up in `format_map`, and the bitrate handed
    to the FFmpeg audio extractor. */
module AudioTable {
  import opened Values
  import Strings

  /** `format_map`: for both formats `medium` and `low` name the same selector. */
  const FORMAT_MAP: map<string, map<string, string>> := map[
    "mp3" := map[
      "high" := "bestaudio/best",
      "medium" := "worstaudio/worst",
      "low" := "worstaudio/worst"],
    "m4a" := map[
      "high" := "bestaudio[ext=m4a]",
      "medium" := "worstaudio[ext=m4a]",
      "low" := "worstaudio[ext=m4a]"]]

  /** `format_map[format_type][quality]`: the first missing key raises KeyError. */
  function Selector(formatType: string, quality: string): (r: Result<string>)
    ensures r.Ok? <==> formatType in {"mp3", "m4a"} && quality in {"high", "medium", "low"}
    ensures formatType !in {"mp3", "m4a"} ==> r == Err(KeyError(formatType))
    ensures formatType in {"mp3", "m4a"} && quality !in {"high", "medium", "low"} ==> r == Err(KeyError(quality))
  {
    if formatType !in FORMAT_MAP then Err(KeyError(formatType))
    else if quality !in FORMAT_MAP[formatType] then Err(KeyError(quality))
    else Ok(FORMAT_MAP[formatType][quality])
  }

  /** `'320' if quality == 'high' else '128' if quality == 'medium' else '64'` */
  function PreferredQuality(quality: string): (r: string)
    ensures |r| > 0 && forall i :: 0 <= i < |r| ==> '0' <= r[i] <= '9'
  {
    if quality == "high" then "320" else if quality == "medium" then "128" else "64"
  }

  /** `medium` and `low` share one selector and `high` differs from both, for
      either format. */
  lemma MediumAliasesLow(formatType: string)
    requires formatType in {"mp3", "m4a"}
    ensures Selector(formatType, "medium") == Selector(formatType, "low")
    ensures Selector(formatType, "high") != Selector(formatType, "medium")
  {
  }

  /** The three bitrates are strictly decreasing: 320 > 128 > 64. */
  lemma BitrateOrder()
    ensures Strings.DecimalValue(PreferredQuality("high")) > Strings.DecimalValue(PreferredQuality("medium"))
    ensures Strings.DecimalValue(PreferredQuality("medium")) > Strings.DecimalValue(PreferredQuality("low")) > 0
  {
    assert "3"[..0] == "" && "32"[..1] == "3" && "320"[..2] == "32";
    assert Strings.DecimalValue("3") == 3 && Strings.DecimalValue("32") == 32;
    assert "1"[..0] == "" && "12"[..1] == "1" && "128"[..2] == "12";
    assert Strings.DecimalValue("1") == 1 && Strings.DecimalValue("12") == 12;
    assert "6"[..0] == "" && "64"[..1] == "6";
    assert Strings.DecimalValue("6") == 6;
  }
}
