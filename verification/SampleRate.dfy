/** The capture rate lookup: an early-exit search for the nearest supported rate. */
module SampleRate {
  const WORD := 0x1_0000_0000

  /** abs() of a difference of two uint32_t: the subtraction wraps and is then read as a signed int.
      For a difference of 2^31, where abs() has no value, this gives 2^31. */
  function Delta(a: nat, b: nat): nat
    requires a < WORD && b < WORD
  {
    var d := if a >= b then a - b else a - b + WORD;
    if d < WORD / 2 then d else WORD - d
  }

  function Distance(a: nat, b: nat): nat {
    if a < b then b - a else a - b
  }

  /** Rates a table may hold: at least one, strictly ascending, below 2^31. */
  ghost predicate Table(rates: seq<nat>) {
    && rates != []
    && (forall i | 0 <= i < |rates| :: rates[i] < WORD / 2)
    && forall i, j | 0 <= i < j < |rates| :: rates[i] < rates[j]
  }

  const RATES: seq<nat> := [8000, 11025, 16000, 22050, 24000, 32000, 44100]
  const RATIOS: seq<nat> := [4, 4, 2, 2, 2, 1, 1]

  lemma RatesAreATable()
    ensures Table(RATES) && |RATIOS| == |RATES|
  {
  }

  /** r is a nearest entry, the larger of two at the same distance. */
  ghost predicate Nearest(rates: seq<nat>, rate: nat, r: nat) {
    && r in rates
    && forall i | 0 <= i < |rates| ::
      && Distance(rate, r) <= Distance(rate, rates[i])
      && (Distance(rate, r) == Distance(rate, rates[i]) ==> rates[i] <= r)
  }

  /** Requests for which the wrapped difference still leads past the first entry. */
  predicate InReach(rates: seq<nat>, rate: nat) {
    |rates| < 2 || 2 * rate <= WORD + rates[0] + rates[1]
  }

  /** Up to where the difference wraps, the deltas are distances. */
  lemma DeltaInReach(rates: seq<nat>, rate: nat, i: nat)
    requires Table(rates) && rate < WORD && 0 < i < |rates| && InReach(rates, rate)
    ensures Delta(rate, rates[i]) == Distance(rate, rates[i])
    ensures i > 1 ==> Delta(rate, rates[i - 1]) == Distance(rate, rates[i - 1])
    ensures Delta(rate, rates[0]) >= Distance(rate, rates[1]) || Delta(rate, rates[0]) == Distance(rate, rates[0])
  {
    assert rates[0] < rates[1] <= rates[i];
    assert i > 1 ==> rates[1] <= rates[i - 1];
  }

  /** Further up, the second entry looks further away than the first. */
  lemma DeltaOutOfReach(rates: seq<nat>, rate: nat)
    requires Table(rates) && rate < WORD && !InReach(rates, rate)
    ensures Delta(rate, rates[1]) > Delta(rate, rates[0])
  {
    assert rates[0] < rates[1];
  }

  /** getInputSampleRate over any table and any uint32_t request: the result is nearest exactly when
      the request is in reach, which every request below 2^31 is, and it is the request itself
      exactly when the request is supported. */
  method GetInputSampleRate(rates: seq<nat>, rate: nat) returns (r: nat)
    requires Table(rates) && rate < WORD
    ensures r in rates
    ensures Nearest(rates, rate, r) <==> InReach(rates, rate)
    ensures rate < WORD / 2 ==> InReach(rates, rate)
    ensures r == rate <==> rate in rates
  {
    var i := 0;
    var prevDelta := WORD - 1;
    while i < |rates|
      invariant 0 <= i <= |rates|
      invariant prevDelta == if i == 0 then WORD - 1 else Delta(rate, rates[i - 1])
      invariant InReach(rates, rate) ==> forall k | 0 <= k < i :: Distance(rate, rates[i - 1]) <= Distance(rate, rates[k])
      invariant !InReach(rates, rate) ==> i <= 1
    {
      if i > 0 && InReach(rates, rate) {
        DeltaInReach(rates, rate, i);
      } else if i > 0 {
        DeltaOutOfReach(rates, rate);
      }
      var delta := Delta(rate, rates[i]);
      if delta > prevDelta {
        break;
      }
      prevDelta := delta;
      i := i + 1;
    }
    r := rates[i - 1];
    if InReach(rates, rate) && rate in rates {
      var k :| 0 <= k < |rates| && rates[k] == rate;
      assert Distance(rate, rates[k]) == 0;
    }
    if !InReach(rates, rate) {
      assert Distance(rate, rates[1]) < Distance(rate, r);
    }
  }

  /** There are such requests: 4000000000 is nearest to the last rate, but the second looks further away than
      the first, at which the search then stops. */
  lemma FarRequestsMissNearest()
    ensures !InReach(RATES, 4000000000) && Nearest(RATES, 4000000000, 44100)
    ensures Delta(4000000000, RATES[1]) > Delta(4000000000, RATES[0])
  {
    RatesAreATable();
    DeltaOutOfReach(RATES, 4000000000);
    assert RATES[6] == 44100;
  }

  const PERIOD := 1024

  /** getBufferSize: bytes for one read; `found` is false at the exit that should never be taken. */
  method GetBufferSize(rates: seq<nat>, ratios: seq<nat>, rate: nat, channels: nat) returns (size: nat, found: bool)
    requires |ratios| == |rates| && forall i | 0 <= i < |ratios| :: ratios[i] > 0
    ensures found <==> rate in rates
    ensures found ==> exists i | 0 <= i < |rates| ::
                        rates[i] == rate && rate !in rates[..i] && size == PERIOD * channels * 2 / ratios[i]
    ensures !found ==> size == 0
  {
    for i := 0 to |rates|
      invariant rate !in rates[..i]
    {
      if rates[i] == rate {
        return PERIOD * channels * 2 / ratios[i], true;
      }
    }
    return 0, false;
  }

  /** Bytes for one channel and one period, by rate: a quarter of a period of 1024 samples below 16 kHz, half of it
      below 32 kHz. */
  function BytesFor(rate: nat): nat {
    if rate < 16000 then 512 else if rate < 32000 then 1024 else 2048
  }

  lemma SizesFit(i: nat, channels: nat)
    requires i < |RATES| && 1 <= channels <= 2
    ensures |RATIOS| == |RATES| && PERIOD * channels * 2 / RATIOS[i] == channels * BytesFor(RATES[i])
  {
    assert i == 0 || i == 1 || i == 2 || i == 3 || i == 4 || i == 5 || i == 6;
  }

  /** getInputBufferSize: zero exactly for what it rejects, so the failure exit of getBufferSize is
      never taken from here; otherwise the bytes of one period at that rate. */
  method GetInputBufferSize(rate: nat, pcm16: bool, channels: int) returns (size: nat, lookedUp: bool, found: bool)
    requires rate < WORD
    ensures lookedUp <==> pcm16 && 1 <= channels <= 2 && rate in RATES
    ensures lookedUp ==> found && size == channels * BytesFor(rate)
    ensures !lookedUp ==> size == 0
  {
    if !pcm16 || channels < 1 || channels > 2 {
      return 0, false, false;
    }
    RatesAreATable();
    var r := GetInputSampleRate(RATES, rate);
    if rate != r {
      return 0, false, false;
    }
    size, found := GetBufferSize(RATES, RATIOS, rate, channels);
    var i :| 0 <= i < |RATES| && RATES[i] == rate && size == PERIOD * channels * 2 / RATIOS[i];
    SizesFit(i, channels);
    lookedUp := true;
  }
}
