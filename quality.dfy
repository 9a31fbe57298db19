/**
 * The values a plugin reads out of vendor answers and the quality table MusicFree
 * expects on every track: a dictionary from canonical tags to descriptors.
 */
module Quality {
  import opened JsString
  import opened Wrappers
  import opened JsObject

  /**
   * A JavaScript value, as far as the plugins inspect it: numbers are integers, and an
   * object or array that is only tested for truthiness is `Obj`. `Formatted(raw)` is the
   * human-readable text `sizeFormate` renders for `raw`, which is never empty.
   */
  datatype Val = Undefined | Null | Bool(b: bool) | Num(n: int) | Str(s: string) | Obj | Formatted(raw: Val)

  /** JavaScript truthiness. */
  predicate Truthy(v: Val) {
    match v
    case Undefined => false
    case Null => false
    case Bool(b) => b
    case Num(n) => n != 0
    case Str(s) => s != []
    case Obj => true
    case Formatted(_) => true
  }

  /** `a || b` */
  function Or(a: Val, b: Val): (r: Val)
    ensures Truthy(a) ==> r == a
    ensures !Truthy(a) ==> r == b
  {
    if Truthy(a) then a else b
  }

  /** `a ?? b`: only `null` and `undefined` fall through. */
  function Coalesce(a: Val, b: Val): (r: Val)
    ensures a != Undefined && a != Null ==> r == a
    ensures a == Undefined || a == Null ==> r == b
  {
    if a == Undefined || a == Null then b else a
  }

  /**
   * `v >= t` for an integer threshold: a number compares directly, a string of digits is
   * converted first, and anything else converts to NaN and compares false.
   */
  predicate AtLeast(v: Val, t: int) {
    match v
    case Num(n) => n >= t
    case Str(s) => s != [] && AllDigits(s) && DigitsValue(s) >= t
    case _ => false
  }

  /** A JSON primitive: what the id fields of a vendor record hold. */
  predicate Primitive(v: Val) {
    !v.Obj? && !v.Formatted?
  }

  type Prim = v: Val | Primitive(v) witness Undefined

  /** `String(v)`, the text a primitive takes in a template string or as a property key. */
  function Text(v: Prim): (r: string)
    ensures v.Str? ==> r == v.s
    ensures v.Num? && v.n >= 0 ==> r == NatToString(v.n)
  {
    match v
    case Undefined => "undefined"
    case Null => "null"
    case Bool(b) => if b then "true" else "false"
    case Num(n) => if n < 0 then "-" + NatToString(-n) else NatToString(n)
    case Str(s) => s
  }

  const T128: string := "128k"
  const T320: string := "320k"
  const TFlac: string := "flac"
  const THires: string := "hires"
  const TMaster: string := "master"
  const TAtmos: string := "atmos"
  const TAtmosPlus: string := "atmos_plus"

  /** One entry of a track's `qualities`: `{size, bitrate, hash, format}`, absent fields `Undefined`. */
  datatype Descriptor = Descriptor(size: Val, bitrate: Val, hash: Val, format: Val)

  /** The object literal `{}` used as a placeholder descriptor. */
  const Empty: Descriptor := Descriptor(Undefined, Undefined, Undefined, Undefined)

  /** `{size, bitrate}` */
  function Sized(size: Val, bitrate: Val): Descriptor {
    Descriptor(size, bitrate, Undefined, Undefined)
  }

  /** `{bitrate}` */
  function RateOnly(bitrate: int): Descriptor {
    Descriptor(Undefined, Num(bitrate), Undefined, Undefined)
  }

  type Qualities = Dict<Descriptor>

  /** The placeholder table `{128k: {}, 320k: {}, flac: {}}` several plugins fall back to. */
  const Basic3: Qualities := [(T128, Empty), (T320, Empty), (TFlac, Empty)]

  /** What one vendor record contributes to a table: the tag it fills and its descriptor, or nothing. */
  type Entry = Option<(string, Descriptor)>

  /** `if (flag) qualities[tag] = d` on a table that does not hold `tag` yet, as a one-entry piece. */
  function Opt(flag: bool, tag: string, d: Descriptor): Qualities {
    if flag then [(tag, d)] else []
  }

  /** The key `tag` when `flag` holds. */
  function OptKey(flag: bool, tag: string): seq<string> {
    if flag then [tag] else []
  }

  /** The keys of three one-entry pieces in a row. */
  lemma {:induction false} KeysOpt3(a: bool, ta: string, da: Descriptor, b: bool, tb: string, db: Descriptor, c: bool, tc: string, dc: Descriptor)
    ensures Keys(Opt(a, ta, da) + Opt(b, tb, db) + Opt(c, tc, dc)) == OptKey(a, ta) + OptKey(b, tb) + OptKey(c, tc)
  {
    KeysConcat(Opt(a, ta, da), Opt(b, tb, db));
    KeysConcat(Opt(a, ta, da) + Opt(b, tb, db), Opt(c, tc, dc));
  }
}
