/**
 * Claim maps as the JWT library hands them over: string keys and values
 * of a dynamic Go type, told apart by a tag.  `getString` and `getTime`
 * read one claim with a type switch.
 */
module Claims {
  import opened Wrappers
  import opened Decimal
  import opened Timestamps

  /**
   * The dynamic types a claim may hold.  `Float64` carries the value
   * already truncated toward zero, as `int64(v)` does; `Other` stands for
   * every type the readers do not recognise.
   */
  datatype ClaimValue =
    | TimeValue(t: Time)
    | Float64(whole: int)
    | Int64(i: int)
    | Number(text: string)
    | Str(s: string)
    | Other(typeName: string)

  type ClaimMap = map<string, ClaimValue>

  /** `getString`: the claim if it is a string, "" otherwise. */
  function GetString(data: ClaimMap, key: string): (s: string)
    ensures s != "" ==> key in data && data[key] == Str(s)
  {
    if key !in data then ""
    else match data[key]
      case Str(s) => s
      case _ => ""
  }

  /**
   * `getTime`: the claim read as an instant.  Numbers are Unix seconds; a
   * `json.Number` uses `Int64()` and ignores its error; a string must
   * parse as a 32-bit decimal.  None plays the role of Go's nil.
   */
  function GetTime(data: ClaimMap, key: string): (r: Option<Time>)
    ensures key !in data ==> r.None?
    ensures r.Some? ==> key in data && (data[key].TimeValue? || r.value.nsec == 0)
    ensures r.Some? && data[key].Str? ==> -Cutoff(W32) <= Unix(r.value) < Cutoff(W32)
    ensures r.Some? && data[key].Number? ==> -Cutoff(W64) <= Unix(r.value) < Cutoff(W64)
    ensures key in data && data[key].TimeValue? ==> r == Some(data[key].t)
    ensures key in data && data[key].Float64? ==> r == Some(FromUnix(data[key].whole))
    ensures key in data && data[key].Int64? ==> r == Some(FromUnix(data[key].i))
    ensures key in data && data[key].Number? ==> r == Some(FromUnix(ParseInt(data[key].text, W64).value))
    ensures key in data && data[key].Str? && ParseInt(data[key].s, W32).err == NoError ==>
      r == Some(FromUnix(ParseInt(data[key].s, W32).value))
  {
    if key !in data then None
    else match data[key]
      case TimeValue(t) => Some(t)
      case Float64(w) => Some(FromUnix(w))
      case Int64(i) => Some(FromUnix(i))
      case Number(text) => Some(FromUnix(ParseInt(text, W64).value))
      case Str(s) =>
        var p := ParseInt(s, W32);
        if p.err == NoError then Some(FromUnix(p.value)) else None
      case Other(_) => None
  }

  // ---------------------------------------------------------------------
  // Properties

  /**
   * `getString` yields a non-empty text only for a string claim holding
   * it; an absent key or a value of any other type reads as "".
   */
  lemma GetStringSpec(data: ClaimMap, key: string)
    ensures GetString(data, key) != "" ==> key in data && data[key] == Str(GetString(data, key))
    ensures key !in data ==> GetString(data, key) == ""
    ensures key in data && !data[key].Str? ==> GetString(data, key) == ""
    ensures key in data && data[key].Str? ==> GetString(data, key) == data[key].s
  {
  }

  /**
   * `getTime` is nil exactly for an absent key, a value of an unsupported
   * type, or a string that is not a 32-bit decimal.
   */
  lemma GetTimeNil(data: ClaimMap, key: string)
    ensures GetTime(data, key).None? <==>
      key !in data || data[key].Other? || (data[key].Str? && ParseInt(data[key].s, W32).err != NoError)
  {
  }

  /**
   * A `json.Number` claim always yields an instant: a malformed number is
   * epoch 0, one outside the 64-bit range is clamped to the nearest bound.
   */
  lemma NumberNeverNil(data: ClaimMap, key: string)
    requires key in data && data[key].Number?
    ensures GetTime(data, key).Some?
    ensures ParseInt(data[key].text, W64).err == ErrSyntax ==> GetTime(data, key) == Some(FromUnix(0))
    ensures ParseInt(data[key].text, W64).err == ErrRange ==>
      GetTime(data, key) == Some(FromUnix(Cutoff(W64) - 1)) || GetTime(data, key) == Some(FromUnix(-Cutoff(W64)))
  {
  }

  /** A string claim written by `FormatInt` reads back as those seconds when they fit in 32 bits. */
  lemma StringSecondsRoundTrip(data: ClaimMap, key: string, sec: int)
    requires key in data && data[key] == Str(FormatInt(sec))
    ensures GetTime(data, key) == if -Cutoff(W32) <= sec < Cutoff(W32) then Some(FromUnix(sec)) else None
  {
    ParseFormatInt(sec, W32);
  }
}
