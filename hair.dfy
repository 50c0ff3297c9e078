// The character hair styles and the name each one's sprite files carry.
module Hair {
  import opened Wrappers

  datatype HairStyle = Base | Bowl | Curly | Long | Mop | Short | Spikey

  /** to_str: the file-name stem of a style. No stem is empty or holds an
      underscore, and each names its style alone, so the style can be read back
      from it. */
  function ToStr(h: HairStyle): (s: string)
    ensures |s| > 0 && '_' !in s
    ensures FromStr(s) == Some(h)
  {
    match h
    case Base => "base"
    case Bowl => "bowlhair"
    case Curly => "curlyhair"
    case Long => "longhair"
    case Mop => "mophair"
    case Short => "shorthair"
    case Spikey => "spikeyhair"
  }

  /** The style a file-name stem names, if any (the inverse of ToStr). */
  function FromStr(s: string): Option<HairStyle>
  {
    if s == "base" then Some(Base)
    else if s == "bowlhair" then Some(Bowl)
    else if s == "curlyhair" then Some(Curly)
    else if s == "longhair" then Some(Long)
    else if s == "mophair" then Some(Mop)
    else if s == "shorthair" then Some(Short)
    else if s == "spikeyhair" then Some(Spikey)
    else None
  }

  /** Distinct styles have distinct stems. */
  lemma ToStrInjective(a: HairStyle, b: HairStyle)
    ensures ToStr(a) == ToStr(b) <==> a == b
  {
    if ToStr(a) == ToStr(b) {
      assert Some(a) == FromStr(ToStr(a)) == FromStr(ToStr(b)) == Some(b);
    }
  }
}
