/** Values the bot handles: optional dictionary entries, the results of
    operations that may raise, and the small set of Python values that
    appear in a yt-dlp format dictionary together with their `str()`. */
module Values {
  import Strings

  datatype Option<+T> = None | Some(value: T) {
    /** `d.get(key, default)` when this option is the lookup of `key` */
    function GetOr(default: T): T {
      match this
      case Some(v) => v
      case None => default
    }
  }

  /** The exceptions the modelled code can raise. */
  datatype Error =
    | KeyError(key: string)          // a dictionary subscript on a missing key
    | ExtractorError(message: string) // yt-dlp's `extract_info` failed

  datatype Result<+T> = Ok(value: T) | Err(error: Error)

  /** A Python value as it occurs in a format dictionary. */
  datatype Value = Null | Str(s: string) | Int(i: int)

  /** Python's `str(v)`, which is also what an f-string placeholder renders. */
  function Show(v: Value): (r: string)
    ensures v.Int? ==> '_' !in r
  {
    match v
    case Null => "None"
    case Str(s) => s
    case Int(i) => Strings.IntToString(i)
  }
}
