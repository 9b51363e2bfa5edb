/**
 * Selection of the FFT bins that carry mains (AC) hum.
 *
 * A real FFT of `chunkSize` samples taken at `sampleRate` Hz has
 * `chunkSize / 2 + 1` bins, and bin `k` is centred on `k * sampleRate / chunkSize` Hz.
 * A bin belongs to the AC band when that frequency lies in [30, 300] Hz. Multiplying
 * through by `chunkSize` states the test exactly over the integers.
 */
module AcBand {
  /** Lower and upper edge of the AC band, in Hz. */
  const AcLowHz: nat := 30
  const AcHighHz: nat := 300

  predicate InBand(k: nat, sampleRate: nat, chunkSize: nat, lowHz: nat, highHz: nat) {
    lowHz * chunkSize <= k * sampleRate <= highHz * chunkSize
  }

  predicate StrictlyIncreasing(s: seq<nat>) {
    forall i, j :: 0 <= i < j < |s| ==> s[i] < s[j]
  }

  /** The in-band bins among `from..last`, in ascending order. */
  function BandFrom(from: nat, last: nat, sampleRate: nat, chunkSize: nat, lowHz: nat, highHz: nat): (r: seq<nat>)
    ensures StrictlyIncreasing(r)
    ensures forall i :: 0 <= i < |r| ==> from <= r[i]
    ensures forall k: nat :: k in r <==> from <= k <= last && InBand(k, sampleRate, chunkSize, lowHz, highHz)
    decreases last + 1 - from
  {
    if from > last then []
    else if InBand(from, sampleRate, chunkSize, lowHz, highHz) then
      [from] + BandFrom(from + 1, last, sampleRate, chunkSize, lowHz, highHz)
    else
      BandFrom(from + 1, last, sampleRate, chunkSize, lowHz, highHz)
  }

  /**
   * The AC bins: every bin index of the real FFT whose centre frequency lies in
   * [AcLowHz, AcHighHz], ascending and without repetition. A zero sample rate or
   * chunk size makes the frequency computation divide by zero.
   */
  function AcBins(sampleRate: nat, chunkSize: nat): (r: seq<nat>)
    requires sampleRate > 0 && chunkSize > 0
    ensures StrictlyIncreasing(r)
    ensures forall k: nat :: k in r <==> k <= chunkSize / 2 && InBand(k, sampleRate, chunkSize, AcLowHz, AcHighHz)
  {
    BandFrom(0, chunkSize / 2, sampleRate, chunkSize, AcLowHz, AcHighHz)
  }

  lemma HeadIsElement(t: seq<nat>)
    ensures t != [] ==> t[0] in t
  {
  }

  /** Two ascending sequences with the same elements are the same sequence. */
  lemma {:induction false} AscendingUnique(s: seq<nat>, t: seq<nat>)
    requires StrictlyIncreasing(s) && StrictlyIncreasing(t)
    requires forall k: nat :: k in s <==> k in t
    ensures s == t
  {
    if s != [] {
      assert s[0] in t;
      assert t != [];
      assert t[0] in s;
      var i :| 0 <= i < |s| && s[i] == t[0];
      var j :| 0 <= j < |t| && t[j] == s[0];
      assert s[0] == t[0] by {
        assert s[0] <= s[i];
        assert t[0] <= t[j];
      }
      forall k: nat
        ensures k in s[1..] <==> k in t[1..]
      {
        if k in s[1..] {
          var a :| 1 <= a < |s| && s[a] == k;
          assert k in t;
          var b :| 0 <= b < |t| && t[b] == k;
          assert b != 0;
          assert t[1..][b - 1] == k;
        }
        if k in t[1..] {
          var b :| 1 <= b < |t| && t[b] == k;
          assert k in s;
          var a :| 0 <= a < |s| && s[a] == k;
          assert a != 0;
          assert s[1..][a - 1] == k;
        }
      }
      AscendingUnique(s[1..], t[1..]);
      assert s == [s[0]] + s[1..];
      assert t == [t[0]] + t[1..];
    } else if t != [] {
      HeadIsElement(t);
      assert false;
    }
  }

  lemma DefaultBand(k: nat)
    ensures InBand(k, 44100, 1024, AcLowHz, AcHighHz) <==> 1 <= k <= 6
  {
  }

  /** At the default 44100 Hz and 1024-sample chunks the AC band is bins 1 to 6 (43 Hz to 258 Hz). */
  lemma DefaultAcBins(sampleRate: nat, chunkSize: nat)
    requires sampleRate == 44100 && chunkSize == 1024
    ensures AcBins(sampleRate, chunkSize) == [1, 2, 3, 4, 5, 6]
  {
    var r := AcBins(sampleRate, chunkSize);
    forall k: nat
      ensures k in r <==> 1 <= k <= 6
    {
      DefaultBand(k);
    }
    OneToSix(r);
  }

  lemma OneToSix(r: seq<nat>)
    requires StrictlyIncreasing(r)
    requires forall k: nat :: k in r <==> 1 <= k <= 6
    ensures r == [1, 2, 3, 4, 5, 6]
  {
    var expected: seq<nat> := [1, 2, 3, 4, 5, 6];
    assert StrictlyIncreasing(expected);
    AscendingUnique(r, expected);
  }
}
