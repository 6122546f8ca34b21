/**
 * The mixing step of one listener's tick: the collected frames, each with the
 * stereo weighting chosen for its speaker, are summed sample by sample into
 * one fixed-size output frame, with saturation to the 16-bit range.
 */
module Mixing {
  import opened Pcm

  /**
   * A PCM frame as received from one speaker. `id` stands for the identity of
   * the Java array object, which the dedup check compares by reference.
   */
  datatype Frame = Frame(id: nat, data: seq<Byte>)

  /**
   * The weighting `(int) (sample * multiplier[k])` of one speaker's samples,
   * for k = 0 (left channel) and k = 1 (right channel). The multipliers are
   * floating point in the source; here each channel is an integer function.
   */
  datatype StereoGain = StereoGain(left: int -> int, right: int -> int)

  /** One collected frame with its weighting (an `AudioAndMultiplier`). */
  datatype Contributor = Contributor(frame: Frame, gain: StereoGain)

  /** The weighting that leaves a sample as it is. */
  const Unity: StereoGain := StereoGain(x => x, x => x)

  /** A contributor is still read at offset `i` while `i < audio.length - 1`. */
  predicate LiveAt(c: Contributor, i: int) {
    i < |c.frame.data| - 1
  }

  /** The weighted sample of one contributor at even offset `i`. */
  function Weighted(c: Contributor, i: nat): int
    requires LiveAt(c, i)
  {
    var s := Sample(c.frame.data[i], c.frame.data[i + 1]);
    if i % 4 == 0 then c.gain.left(s) else c.gain.right(s)
  }

  /** The sum, at offset `i`, of the weighted samples of the contributors live there. */
  function SumAt(cs: seq<Contributor>, i: nat): int {
    if cs == [] then 0
    else
      var last := cs[|cs| - 1];
      SumAt(cs[..|cs| - 1], i) + (if LiveAt(last, i) then Weighted(last, i) else 0)
  }

  /** The contributors, in order, that are still live at offset `i`. */
  function Survivors(cs: seq<Contributor>, i: int): seq<Contributor> {
    if cs == [] then []
    else
      var last := cs[|cs| - 1];
      Survivors(cs[..|cs| - 1], i) + (if LiveAt(last, i) then [last] else [])
  }

  /** The longest collected frame: the stream `max` over the lengths. */
  function MaxLength(cs: seq<Contributor>): (m: nat)
    requires cs != []
    ensures forall k | 0 <= k < |cs| :: |cs[k].frame.data| <= m
    ensures exists k | 0 <= k < |cs| :: |cs[k].frame.data| == m
  {
    if |cs| == 1 then |cs[0].frame.data|
    else
      var m := MaxLength(cs[..|cs| - 1]);
      var l := |cs[|cs| - 1].frame.data|;
      if l > m then l else m
  }

  /**
   * Byte `k` of the mixed frame: bytes `i` and `i + 1`, for even `i` below
   * the longest frame, are the big-endian saturated sum at `i`; the rest of
   * the 3840 bytes keep their initial zero.
   */
  function MixedByte(cs: seq<Contributor>, k: nat): Byte
    requires cs != []
  {
    var i := k - k % 2;
    if i < MaxLength(cs) then
      var v := Saturate(SumAt(cs, i));
      if k % 2 == 0 then HighByte(v) else LowByte(v)
    else 0
  }

  /** The frame that mixing the collected contributors produces. */
  function Mixed(cs: seq<Contributor>): (frame: seq<Byte>)
    requires cs != []
    ensures |frame| == FrameSize
  {
    seq(FrameSize, k requires 0 <= k < FrameSize => MixedByte(cs, k))
  }

  /**
   * The nested loop of the tick (AudioForwarder.java, lines 486-522): for each
   * even offset, sum the weighted samples of the contributors whose data
   * still reaches that offset, dropping the others from the working list,
   * then write the saturated sum back big-endian.
   */
  method MixFrames(combining: seq<Contributor>) returns (combined: seq<Byte>)
    requires combining != []
    requires forall k | 0 <= k < |combining| :: |combining[k].frame.data| <= FrameSize
    ensures combined == Mixed(combining)
  {
    var combinedData := new Byte[FrameSize](_ => 0);
    var maxLength := MaxLength(combining);
    assert maxLength <= FrameSize;
    var live := combining;
    var i := 0;
    ghost var pairs := 0;
    while i < maxLength
      invariant i == 2 * pairs && 0 <= i <= maxLength + 1
      invariant forall m: nat | m >= i :: SumAt(live, m) == SumAt(combining, m)
      invariant forall k | 0 <= k < i :: combinedData[k] == MixedByte(combining, k)
      invariant forall k | i <= k < FrameSize :: combinedData[k] == 0
    {
      live := MixAt(combinedData, combining, live, i);
      i, pairs := i + 2, pairs + 1;
    }
    forall k | i <= k < FrameSize
      ensures MixedByte(combining, k) == 0
    {
      MixedByteBeyond(combining, k, i);
    }
    combined := combinedData[..];
  }

  /**
   * One pass of the outer loop: sum the live contributors at even offset
   * `i`, write the saturated sum big-endian at `i` and `i + 1`, and keep
   * only the contributors that reach past `i`.
   */
  method MixAt(combinedData: array<Byte>, combining: seq<Contributor>, live: seq<Contributor>, i: nat)
    returns (kept: seq<Contributor>)
    requires combinedData.Length == FrameSize && combining != []
    requires i % 2 == 0 && i < MaxLength(combining) <= FrameSize
    requires forall m: nat | m >= i :: SumAt(live, m) == SumAt(combining, m)
    modifies combinedData
    ensures forall m: nat | m >= i + 2 :: SumAt(kept, m) == SumAt(combining, m)
    ensures combinedData[i] == MixedByte(combining, i) && combinedData[i + 1] == MixedByte(combining, i + 1)
    ensures forall k | 0 <= k < FrameSize && k != i && k != i + 1 :: combinedData[k] == old(combinedData[k])
  {
    var sample;
    sample, kept := SumLive(live, i);
    forall m: nat | m >= i + 2
      ensures SumAt(kept, m) == SumAt(live, m)
    {
      SurvivorsOfSurvivors(live, i, m);
    }
    var toAdd := Saturate(sample);
    MixedPair(combining, i);
    combinedData[i] := HighByte(toAdd);
    combinedData[i + 1] := LowByte(toAdd);
  }

  /**
   * The inner loop at one offset: sum the weighted samples of the live
   * contributors and keep only those (the `iterator.remove()` of the others).
   */
  method SumLive(live: seq<Contributor>, i: nat) returns (sample: int, kept: seq<Contributor>)
    ensures sample == SumAt(live, i)
    ensures kept == Survivors(live, i)
  {
    sample, kept := 0, [];
    var j := 0;
    while j < |live|
      invariant 0 <= j <= |live|
      invariant sample == SumAt(live[..j], i)
      invariant kept == Survivors(live[..j], i)
    {
      var audio := live[j].frame.data;
      assert live[..j + 1][..j] == live[..j] && live[..j + 1][j] == live[j];
      if i < |audio| - 1 {
        var currentShort := Sample(audio[i], audio[i + 1]);
        // the left weighting at offsets 0 mod 4, the right one at 2 mod 4
        var weighted := if i % 4 == 0 then live[j].gain.left(currentShort)
                        else live[j].gain.right(currentShort);
        assert weighted == Weighted(live[j], i);
        sample := sample + weighted;
        kept := kept + [live[j]];
      }
      SumAtSnoc(live[..j], live[j], i);
      assert live[..j] + [live[j]] == live[..j + 1];
      j := j + 1;
    }
    assert live[..j] == live;
  }

  lemma MixedPair(cs: seq<Contributor>, i: nat)
    requires cs != [] && i % 2 == 0 && i < MaxLength(cs)
    ensures MixedByte(cs, i) == HighByte(Saturate(SumAt(cs, i)))
    ensures MixedByte(cs, i + 1) == LowByte(Saturate(SumAt(cs, i)))
  {
    PairOffsets(i);
  }

  lemma MixedByteBeyond(cs: seq<Contributor>, k: nat, i: nat)
    requires cs != [] && i % 2 == 0 && MaxLength(cs) <= i <= k
    ensures MixedByte(cs, k) == 0
  {
    assert k - k % 2 >= i;
  }

  /**
   * Dropping the contributors exhausted at an earlier offset changes neither
   * who is live later nor the sum there.
   */
  lemma {:induction false} SurvivorsOfSurvivors(cs: seq<Contributor>, j: int, i: nat)
    requires j <= i
    ensures Survivors(Survivors(cs, j), i) == Survivors(cs, i)
    ensures SumAt(Survivors(cs, j), i) == SumAt(cs, i)
  {
    if cs != [] {
      var p, last := cs[..|cs| - 1], cs[|cs| - 1];
      SurvivorsOfSurvivors(p, j, i);
      var s := Survivors(cs, j);
      if LiveAt(last, j) {
        assert s == Survivors(p, j) + [last];
        assert s[..|s| - 1] == Survivors(p, j);
      } else {
        assert s == Survivors(p, j);
      }
    }
  }

  /** No contributor is live at or after the last pair of the longest frame. */
  lemma {:induction false} SumAtBeyond(cs: seq<Contributor>, i: nat)
    requires cs != [] && i >= MaxLength(cs) - 1
    ensures SumAt(cs, i) == 0
  {
    SumAtNoneLive(cs, i);
  }

  lemma {:induction false} SumAtNoneLive(cs: seq<Contributor>, i: nat)
    requires forall k | 0 <= k < |cs| :: !LiveAt(cs[k], i)
    ensures SumAt(cs, i) == 0
  {
    if cs != [] {
      SumAtNoneLive(cs[..|cs| - 1], i);
    }
  }

  /**
   * Every even offset of the mixed frame holds the saturated sum of the
   * contributors live there, big-endian; offsets past every frame hold 0.
   */
  lemma MixedSampleAt(cs: seq<Contributor>, i: nat)
    requires cs != [] && i % 2 == 0 && i + 1 < FrameSize
    ensures Sample(Mixed(cs)[i], Mixed(cs)[i + 1]) == Saturate(SumAt(cs, i))
  {
    var out := Mixed(cs);
    var v := Saturate(SumAt(cs, i));
    PairOffsets(i);
    assert out[i] == MixedByte(cs, i) && out[i + 1] == MixedByte(cs, i + 1);
    if i < MaxLength(cs) {
      assert out[i] == HighByte(v) && out[i + 1] == LowByte(v);
      SampleOfEncoding(v);
    } else {
      assert out[i] == 0 && out[i + 1] == 0;
      SumAtBeyond(cs, i);
    }
  }

  lemma PairOffsets(i: nat)
    requires i % 2 == 0
    ensures i - i % 2 == i && (i + 1) % 2 == 1 && (i + 1) - (i + 1) % 2 == i
  {
  }

  /** Bytes at offsets at or past the longest frame stay zero. */
  lemma MixedSilentBeyond(cs: seq<Contributor>, k: nat)
    requires cs != [] && MaxLength(cs) <= k < FrameSize
    ensures Mixed(cs)[k] == 0
  {
    var i := k - k % 2;
    if i < MaxLength(cs) {
      SumAtBeyond(cs, i);
      assert Saturate(SumAt(cs, i)) == 0;
      assert LowByte(0) == 0 && HighByte(0) == 0 by {
        assert 0 / 256 == 0;
      }
    }
  }

  /**
   * One contributor with unit weighting comes out unchanged: every byte pair
   * it fully holds is decoded, saturated and encoded back to itself.
   */
  lemma MixedSingleUnity(f: Frame, i: nat)
    requires i % 2 == 0 && i + 1 < |f.data| <= FrameSize
    ensures Mixed([Contributor(f, Unity)])[i] == f.data[i]
    ensures Mixed([Contributor(f, Unity)])[i + 1] == f.data[i + 1]
  {
    var cs := [Contributor(f, Unity)];
    assert cs[..0] == [];
    var s := Sample(f.data[i], f.data[i + 1]);
    assert SumAt(cs, i) == s;
    assert (i + 1) - (i + 1) % 2 == i;
    EncodingOfSample(f.data[i], f.data[i + 1]);
  }

  /**
   * The left weighting applies exactly at offsets `i % 4 == 0`: with the left
   * channel muted, those samples are silent and the right ones unchanged.
   */
  lemma MixedMutedLeft(f: Frame, i: nat)
    requires i % 2 == 0 && i + 1 < |f.data| <= FrameSize
    ensures var out := Mixed([Contributor(f, StereoGain(x => 0, x => x))]);
      if i % 4 == 0 then out[i] == 0 && out[i + 1] == 0
      else out[i] == f.data[i] && out[i + 1] == f.data[i + 1]
  {
    var cs := [Contributor(f, StereoGain(x => 0, x => x))];
    assert cs[..0] == [];
    var s := Sample(f.data[i], f.data[i + 1]);
    MixedPair(cs, i);
    if i % 4 == 0 {
      assert SumAt(cs, i) == 0;
      assert LowByte(0) == 0 && HighByte(0) == 0 by {
        assert 0 / 256 == 0;
      }
    } else {
      assert SumAt(cs, i) == s;
      EncodingOfSample(f.data[i], f.data[i + 1]);
    }
  }

  /**
   * Mixing in a silent frame (all bytes zero, weighted to zero) changes
   * nothing, whatever its length.
   */
  lemma MixedWithSilence(cs: seq<Contributor>, quiet: Contributor)
    requires cs != []
    requires forall k | 0 <= k < |quiet.frame.data| :: quiet.frame.data[k] == 0
    requires quiet.gain.left(0) == 0 && quiet.gain.right(0) == 0
    ensures Mixed(cs + [quiet]) == Mixed(cs)
  {
    var all := cs + [quiet];
    forall i: nat
      ensures SumAt(all, i) == SumAt(cs, i)
    {
      SilenceAddsNothing(cs, quiet, i);
    }
    MaxLengthSnoc(cs, quiet);
    forall i: nat | i >= MaxLength(cs)
      ensures SumAt(cs, i) == 0
    {
      SumAtBeyond(cs, i);
    }
    MixedAgree(all, cs);
  }

  /**
   * Two lists of contributors with the same sums everywhere, where the list
   * with the shorter longest frame sums to zero past it, mix to the same frame.
   */
  lemma MixedAgree(a: seq<Contributor>, b: seq<Contributor>)
    requires a != [] && b != []
    requires forall i: nat :: SumAt(a, i) == SumAt(b, i)
    requires MaxLength(b) <= MaxLength(a)
    requires forall i: nat | i >= MaxLength(b) :: SumAt(b, i) == 0
    ensures Mixed(a) == Mixed(b)
  {
    forall k | 0 <= k < FrameSize
      ensures Mixed(a)[k] == Mixed(b)[k]
    {
      MixedByteAgree(a, b, k);
    }
  }

  /**
   * Two lists of contributors with the same sum at a pair, where the
   * shorter longest frame only matters through a zero sum, give the same byte.
   */
  lemma MixedByteAgree(a: seq<Contributor>, b: seq<Contributor>, k: nat)
    requires a != [] && b != []
    requires SumAt(a, k - k % 2) == SumAt(b, k - k % 2)
    requires MaxLength(b) <= MaxLength(a)
    requires k - k % 2 >= MaxLength(b) ==> SumAt(b, k - k % 2) == 0
    ensures MixedByte(a, k) == MixedByte(b, k)
  {
    if k - k % 2 >= MaxLength(b) {
      MixedByteZero(a, k);
      MixedByteZero(b, k);
    }
  }

  /** Where the sum saturates to zero, both bytes of the pair are zero. */
  lemma MixedByteZero(cs: seq<Contributor>, k: nat)
    requires cs != [] && Saturate(SumAt(cs, k - k % 2)) == 0
    ensures MixedByte(cs, k) == 0
  {
    assert HighByte(0) == 0 && LowByte(0) == 0;
  }

  /** A silent contributor adds nothing to the sum at any offset. */
  lemma SilenceAddsNothing(cs: seq<Contributor>, quiet: Contributor, i: nat)
    requires forall k | 0 <= k < |quiet.frame.data| :: quiet.frame.data[k] == 0
    requires quiet.gain.left(0) == 0 && quiet.gain.right(0) == 0
    ensures SumAt(cs + [quiet], i) == SumAt(cs, i)
  {
    SilentWeight(quiet, i);
    SumAtSnoc(cs, quiet, i);
  }

  /** The longest frame after appending one contributor. */
  lemma MaxLengthSnoc(cs: seq<Contributor>, c: Contributor)
    requires cs != []
    ensures MaxLength(cs + [c]) == if |c.frame.data| > MaxLength(cs) then |c.frame.data| else MaxLength(cs)
  {
    var all := cs + [c];
    assert all[..|all| - 1] == cs;
  }

  lemma SilentWeight(quiet: Contributor, i: nat)
    requires forall k | 0 <= k < |quiet.frame.data| :: quiet.frame.data[k] == 0
    requires quiet.gain.left(0) == 0 && quiet.gain.right(0) == 0
    ensures LiveAt(quiet, i) ==> Weighted(quiet, i) == 0
  {
    if LiveAt(quiet, i) {
      assert quiet.frame.data[i] == 0 && quiet.frame.data[i + 1] == 0;
      assert Sample(0, 0) == 0;
    }
  }

  lemma SumAtSnoc(cs: seq<Contributor>, c: Contributor, i: nat)
    ensures SumAt(cs + [c], i) == SumAt(cs, i) + (if LiveAt(c, i) then Weighted(c, i) else 0)
  {
    var all := cs + [c];
    assert all[..|all| - 1] == cs;
  }

  /** With two contributors, each sample is the saturated sum of their weighted samples. */
  lemma MixedTwo(c1: Contributor, c2: Contributor, i: nat)
    requires i % 2 == 0 && i + 1 < FrameSize
    ensures Sample(Mixed([c1, c2])[i], Mixed([c1, c2])[i + 1]) ==
      Saturate((if LiveAt(c1, i) then Weighted(c1, i) else 0) + (if LiveAt(c2, i) then Weighted(c2, i) else 0))
  {
    var cs := [c1, c2];
    assert cs[..1] == [c1] && cs[..1][..0] == [];
    assert SumAt([c1], i) == (if LiveAt(c1, i) then Weighted(c1, i) else 0);
    assert SumAt(cs, i) == SumAt([c1], i) + (if LiveAt(c2, i) then Weighted(c2, i) else 0);
    MixedSampleAt(cs, i);
  }

  /**
   * A hand-computed vector: two copies of the sample 0x4000 (16384) sum to
   * 32768, which saturates to 0x7FFF instead of wrapping to -32768.
   */
  lemma SaturationVector()
    ensures var c := Contributor(Frame(0, [0x40, 0x00]), Unity);
      Mixed([c, c])[0] == 0x7F && Mixed([c, c])[1] == 0xFF && Mixed([c, c])[2] == 0
  {
    var c := Contributor(Frame(0, [0x40, 0x00]), Unity);
    var cs := [c, c];
    assert cs[..1] == [c] && cs[..1][..0] == [];
    assert Sample(0x40, 0x00) == 16384;
    assert LiveAt(c, 0) && Weighted(c, 0) == 16384;
    assert SumAt([c], 0) == 16384;
    assert SumAt(cs, 0) == 32768;
    assert MaxLength(cs) == 2;
    assert 32767 / 256 == 127 && 127 % 256 == 127 && 32767 % 256 == 255;
  }
}
