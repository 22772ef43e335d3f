/** Types shared by every part of the model. */
module Base {

  /** A value that may be absent: JavaScript's `null`/`undefined` result. */
  datatype Option<+T> = None | Some(value: T) {
    function GetOr(default: T): T {
      match this
      case Some(v) => v
      case None => default
    }
  }

  /** The two user-interface languages, `'en' | 'te'`. */
  datatype Lang = En | Te

  /** The language code as the program spells it. */
  function Code(l: Lang): (c: string)
    ensures |c| == 2
    ensures c == "te" <==> l == Te
  {
    match l
    case En => "en"
    case Te => "te"
  }
}
