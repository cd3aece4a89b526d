/**
 * `Timestamp`, a `time.Time` that travels in JSON as whole Unix seconds.
 * An instant is a number of seconds since the Unix epoch plus a
 * nanosecond remainder; the location of a Go time is not modelled.
 */
module Timestamps {
  import opened Wrappers
  import opened Decimal

  const NanosPerSecond: int := 1_000_000_000

  type Nanos = n: int | 0 <= n < 1_000_000_000

  datatype Time = Time(sec: int, nsec: Nanos)

  /** The instant in nanoseconds since the epoch. */
  function UnixNano(t: Time): int {
    t.sec * NanosPerSecond + t.nsec
  }

  /** `time.Time{}`: midnight UTC, January 1 of year 1. */
  const ZeroTime: Time := Time(-62_135_596_800, 0)

  /** `Timestamp.Unix()`: the whole seconds of the instant, rounded down. */
  function Unix(t: Time): (s: int)
    ensures s * NanosPerSecond <= UnixNano(t) < s * NanosPerSecond + NanosPerSecond
  {
    t.sec
  }

  /** `time.Unix(sec, 0)`. */
  function FromUnix(sec: int): (t: Time)
    ensures UnixNano(t) == sec * NanosPerSecond
  {
    Time(sec, 0)
  }

  /** `t.Add(d)` for a duration of `d` nanoseconds. */
  function Add(t: Time, d: int): (r: Time)
    ensures UnixNano(r) == UnixNano(t) + d
  {
    var n := UnixNano(t) + d;
    Time(n / NanosPerSecond, n % NanosPerSecond)
  }

  /** `t.Truncate(time.Second)`. */
  function TruncateSecond(t: Time): (r: Time)
    ensures r.nsec == 0 && Unix(r) == Unix(t)
    ensures UnixNano(r) <= UnixNano(t) < UnixNano(r) + NanosPerSecond
  {
    Time(t.sec, 0)
  }

  /** `Timestamp.MarshalJSON`: the decimal Unix seconds; it never fails. */
  function MarshalJSON(t: Time): (b: string)
    ensures b != [] && (b[0] == '-' <==> Unix(t) < 0)
  {
    FormatInt(Unix(t))
  }

  /** What `Timestamp.UnmarshalJSON` stores: seconds parsed as a 32-bit integer. */
  function DecodeTimestamp(b: string): (r: Option<Time>)
    ensures r.Some? ==> r.value.nsec == 0 && -Cutoff(W32) <= Unix(r.value) < Cutoff(W32)
    ensures r.Some? <==> ParseInt(b, W32).err == NoError
  {
    var p := ParseInt(b, W32);
    if p.err == NoError then Some(FromUnix(p.value)) else None
  }

  /** A `*Timestamp` receiver. */
  class TimestampVar {
    var value: Time

    constructor (t: Time)
      ensures value == t
    {
      value := t;
    }

    /**
     * `UnmarshalJSON`: on a parse error the error is returned and the
     * receiver is left as it was.
     */
    method UnmarshalJSON(b: string) returns (err: NumError)
      modifies this
      ensures err == ParseInt(b, W32).err
      ensures err == NoError ==> value == FromUnix(ParseInt(b, W32).value)
      ensures err != NoError ==> value == old(value)
    {
      var p := ParseInt(b, W32);
      err := p.err;
      if err == NoError {
        value := FromUnix(p.value);
      }
    }
  }

  // ---------------------------------------------------------------------
  // Properties

  /**
   * Marshalling then unmarshalling gives back the instant truncated to the
   * second exactly when its seconds fit in 32 bits; otherwise the decode
   * fails.
   */
  lemma MarshalRoundTrip(t: Time)
    ensures DecodeTimestamp(MarshalJSON(t)) ==
      if -Cutoff(W32) <= Unix(t) < Cutoff(W32) then Some(TruncateSecond(t)) else None
  {
    ParseFormatInt(Unix(t), W32);
  }

  /** A later instant is reached by adding a non-negative duration. */
  lemma AddNotEarlier(t: Time, d: int)
    requires d >= 0
    ensures UnixNano(t) <= UnixNano(Add(t, d))
    ensures Unix(t) <= Unix(Add(t, d))
  {
  }
}
