/** Product barcodes: the path-parameter validator and the daily counter that
    hands out new barcodes. */
module Barcode {
  import opened Wrappers
  import opened Text
  import opened Time

  /** A barcode path parameter that passed validation. */
  datatype ProductBarcode = ProductBarcode(inner: string)

  /** `ProductBarcode::from_param`: accepted when every character is a digit
      (the empty parameter included); a rejection hands the parameter back. */
  function FromParam(param: string): (r: Result<ProductBarcode, string>)
    ensures r.Ok? <==> AllDigits(param)
    ensures r.Ok? ==> r.value.inner == param
    ensures r.Err? ==> r.error == param
  {
    if AllDigits(param) then Ok(ProductBarcode(param)) else Err(param)
  }

  /** `%y%m%d`: the year within its century, the month and the day, two digits each. */
  function DatePrefix(now: DateTime): (r: string)
    ensures AllDigits(r)
    ensures ValidDateTime(now) ==>
      && |r| == 6
      && DecimalValue(r[..2]) == now.year % 100
      && DecimalValue(r[2..4]) == now.month
      && DecimalValue(r[4..]) == now.day
  {
    var yy := ZeroPadded(now.year % 100, 2);
    var mm := ZeroPadded(now.month, 2);
    var dd := ZeroPadded(now.day, 2);
    ZeroPaddedSpec(now.year % 100, 2);
    ZeroPaddedSpec(now.month, 2);
    ZeroPaddedSpec(now.day, 2);
    assert Pow10(2) == 100 by { assert Pow10(1) == 10; }
    var r := yy + mm + dd;
    if ValidDateTime(now) then
      assert r[..2] == yy && r[2..4] == mm && r[4..] == dd;
      r
    else r
  }

  /** `format!("{}{:08}", now.format("%y%m%d"), index)`. */
  function FormatBarcode(now: DateTime, index: nat): (r: string)
    ensures AllDigits(r)
    ensures |r| >= |DatePrefix(now)| + 8
    ensures r[..|DatePrefix(now)|] == DatePrefix(now)
    ensures AllDigits(r[|DatePrefix(now)|..]) && DecimalValue(r[|DatePrefix(now)|..]) == index
    ensures ValidDateTime(now) && index < Pow10(8) ==> |r| == 14
  {
    var p := DatePrefix(now);
    var s := ZeroPadded(index, 8);
    ZeroPaddedSpec(index, 8);
    var r := p + s;
    assert r[..|p|] == p && r[|p|..] == s;
    r
  }

  /** On one date, distinct indices give distinct barcodes. */
  lemma FormatBarcodeInjective(now: DateTime, i: nat, j: nat)
    requires FormatBarcode(now, i) == FormatBarcode(now, j)
    ensures i == j
  {
  }

  // ---- the generator ----

  /** What the generator remembers: when it last reset, and the next index. */
  datatype GeneratorState = GeneratorState(lastDatetime: DateTime, nextIndex: nat)

  function Fresh(now: DateTime): (s: GeneratorState)
    ensures s.nextIndex == 0 && s.lastDatetime == now
  {
    GeneratorState(now, 0)
  }

  /** What one `get` does to the state, and the index it uses: a new
      day-of-month starts over from index 0 and records `now`; the same
      day-of-month keeps the recorded time and continues. */
  function Advance(s: GeneratorState, now: DateTime): (r: (GeneratorState, nat))
    ensures r.0.nextIndex == r.1 + 1
    ensures now.day != s.lastDatetime.day ==> r.1 == 0 && r.0.lastDatetime == now
    ensures now.day == s.lastDatetime.day ==> r.1 == s.nextIndex && r.0.lastDatetime == s.lastDatetime
  {
    var base := if now.day != s.lastDatetime.day then Fresh(now) else s;
    (base.(nextIndex := base.nextIndex + 1), base.nextIndex)
  }

  /** Two `get`s on the same day-of-month use consecutive indices; when the
      two readings fall on the same date the barcodes share their prefix and
      the second's counter is one more than the first's. */
  lemma SameDayConsecutive(s: GeneratorState, now1: DateTime, now2: DateTime)
    requires now1.day == now2.day
    ensures var (s1, i1) := Advance(s, now1);
      var (_, i2) := Advance(s1, now2);
      && i2 == i1 + 1
      && (now1.year == now2.year && now1.month == now2.month ==>
            var b1 := FormatBarcode(now1, i1);
            var b2 := FormatBarcode(now2, i2);
            var k := |DatePrefix(now1)|;
            && b1[..k] == b2[..k]
            && DecimalValue(b2[k..]) == DecimalValue(b1[k..]) + 1)
  {
    var (s1, i1) := Advance(s, now1);
    assert s1.lastDatetime.day == now1.day;
  }

  /** Only the day-of-month is compared: the same day number in a later month
      does not start the counter over. */
  lemma SameDayNumberNoReset(s: GeneratorState, now: DateTime)
    requires now.day == s.lastDatetime.day && now.month != s.lastDatetime.month
    ensures Advance(s, now).1 == s.nextIndex
  {
  }

  /** What the persisted state file yielded at start-up. */
  datatype SavedState = NoFile | Unparsable | Parsed(state: GeneratorState)

  /** `load`'s fallback: a missing or unreadable file gives a fresh generator. */
  function Restore(saved: SavedState, now: DateTime): (r: GeneratorState)
    ensures saved.Parsed? ==> r == saved.state
    ensures !saved.Parsed? ==> r.nextIndex == 0 && r.lastDatetime == now
  {
    if saved.Parsed? then saved.state else Fresh(now)
  }

  /** `ProductBarcodeGeneratorState`: the shared counter. Its lock is not
      modelled; each `Get` is one sequential step. */
  class BarcodeGenerator {
    var lastDatetime: DateTime
    var nextIndex: nat

    function State(): GeneratorState
      reads this
    {
      GeneratorState(lastDatetime, nextIndex)
    }

    /** `new`: index 0, reset time `now`. */
    constructor (now: DateTime)
      ensures State() == Fresh(now)
    {
      lastDatetime := now;
      nextIndex := 0;
    }

    /** `load`. */
    constructor Load(saved: SavedState, now: DateTime)
      ensures State() == Restore(saved, now)
    {
      var s := Restore(saved, now);
      lastDatetime := s.lastDatetime;
      nextIndex := s.nextIndex;
    }

    /** `get`: the barcode for the index `Advance` hands out. */
    method Get(now: DateTime) returns (barcode: string)
      modifies this
      ensures State() == Advance(old(State()), now).0
      ensures barcode == FormatBarcode(now, Advance(old(State()), now).1)
    {
      if now.day != lastDatetime.day {
        lastDatetime := now;
        nextIndex := 0;
      }
      var index := nextIndex;
      nextIndex := nextIndex + 1;
      barcode := FormatBarcode(now, index);
    }
  }

  /** Two calls on one generator, on the same date, give different barcodes
      whose counters are consecutive. */
  method GetTwiceSameDate(g: BarcodeGenerator, now: DateTime) returns (b1: string, b2: string)
    modifies g
    ensures exists i: nat :: b1 == FormatBarcode(now, i) && b2 == FormatBarcode(now, i + 1)
    ensures b1 != b2
  {
    b1 := g.Get(now);
    ghost var i := Advance(old(g.State()), now).1;
    b2 := g.Get(now);
    SameDayConsecutive(old(g.State()), now, now);
    assert b2 == FormatBarcode(now, i + 1);
  }
}
