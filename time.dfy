/** Integer widths and instants as the Rust source sees them. */
module Time {

  const I32Min: int := -0x8000_0000
  const I32Max: int := 0x7fff_ffff
  const I64Min: int := -0x8000_0000_0000_0000
  const I64Max: int := 0x7fff_ffff_ffff_ffff

  predicate InI32(x: int) { I32Min <= x <= I32Max }
  predicate InI64(x: int) { I64Min <= x <= I64Max }

  /** Two's-complement wrap-around of an `i32` computation (a release build). */
  function WrapI32(x: int): (r: int)
    ensures InI32(r)
    ensures (r - x) % 0x1_0000_0000 == 0
    ensures InI32(x) ==> r == x
  {
    (x - I32Min) % 0x1_0000_0000 + I32Min
  }

  /** Rust's `as usize` on a 64-bit target: the value modulo 2^64. */
  function AsUsize(x: int): (r: nat)
    ensures r < 0x1_0000_0000_0000_0000
    ensures 0 <= x < 0x1_0000_0000_0000_0000 ==> r == x
  {
    x % 0x1_0000_0000_0000_0000
  }

  /** Seconds since the epoch that chrono 0.4 can turn into a date: the
      proleptic Gregorian years -262144 to 262143. */
  const ChronoMinSecs: int := -8334632937600
  const ChronoMaxSecs: int := 8210298412799

  predicate InChronoRange(secs: int) { ChronoMinSecs <= secs <= ChronoMaxSecs }

  /** A `DateTime<Utc>` or `NaiveDateTime`: whole seconds since 1970-01-01T00:00:00
      (rounded down) and the nanoseconds past that second. */
  datatype Instant = Instant(secs: int, nanos: nat)

  const Epoch: Instant := Instant(0, 0)

  const WeekSeconds: int := 7 * 24 * 60 * 60

  function AddSeconds(t: Instant, s: int): Instant {
    t.(secs := t.secs + s)
  }

  /** Rust's integer `/` for a positive divisor: the quotient rounded toward zero. */
  function TruncDiv(a: int, b: int): (q: int)
    requires b > 0
    ensures a >= 0 ==> q * b <= a < q * b + b
    ensures a < 0 ==> q * b - b < a <= q * b
  {
    if a >= 0 then a / b else -((-a) / b)
  }

  /** A UTC date and time of day as chrono reports it, to the minute;
      calendar arithmetic is not modelled. */
  datatype DateTime = DateTime(year: int, month: nat, day: nat, hour: nat, minute: nat)

  predicate ValidDateTime(d: DateTime) {
    1 <= d.month <= 12 && 1 <= d.day <= 31 && d.hour < 24 && d.minute < 60
  }

  /** One reading of the clock by a handler: the instant and its UTC calendar
      form, which the caller supplies consistently. */
  datatype Clock = Clock(instant: Instant, utc: DateTime)
}
