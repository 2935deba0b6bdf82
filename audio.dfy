/**
 The microphone level shown while recording: the analyser's byte frequency
 bins are summed, averaged over the bin count and scaled by 255.
 */
module Audio {

  /** One element of a `Uint8Array`. */
  newtype Byte = x: int | 0 <= x < 256

  const FFT_SIZE: nat := 256

  /** The analyser delivers half as many frequency bins as its FFT size. */
  const FREQUENCY_BIN_COUNT: nat := FFT_SIZE / 2

  /** The sum of the bins, accumulated as an unbounded Number (no 8-bit wrap-around). */
  function Sum(bins: seq<Byte>): (total: int)
    ensures 0 <= total <= 255 * |bins|
    ensures total == 0 <==> forall i :: 0 <= i < |bins| ==> bins[i] == 0
    ensures total == 255 * |bins| <==> forall i :: 0 <= i < |bins| ==> bins[i] == 255
  {
    if bins == [] then 0 else
      var rest := Sum(bins[1..]);
      assert forall i :: 1 <= i < |bins| ==> bins[i] == bins[1..][i - 1];
      bins[0] as int + rest
  }

  /** `average / 255` where `average` is the mean bin value, over the analyser's fixed bin count. */
  function Level(bins: seq<Byte>): (level: real)
    requires |bins| == FREQUENCY_BIN_COUNT
    ensures 0.0 <= level <= 1.0
    ensures level == 0.0 <==> forall i :: 0 <= i < |bins| ==> bins[i] == 0
    ensures level == 1.0 <==> forall i :: 0 <= i < |bins| ==> bins[i] == 255
  {
    var total := Sum(bins);
    assert FREQUENCY_BIN_COUNT == 128;
    var average := total as real / FREQUENCY_BIN_COUNT as real;
    assert average * 128.0 == total as real;
    var level := average / 255.0;
    assert level * 255.0 == average;
    level
  }
}
