/** `UpMixAudioRemixer`: mono to stereo, each input short written twice. */
module UpMixRemixer {
  import opened Common
  import opened Buffers

  /** `getRemixedSize`: two output shorts per input short, in 32-bit `int` arithmetic. */
  function GetRemixedSize(inputSize: int): (r: int)
    ensures -0x4000_0000 <= inputSize < 0x4000_0000 ==> r == 2 * inputSize
  {
    Wrap32(inputSize * 2)
  }

  /**
   * `remix`: copies min(input.remaining, output.remaining / 2) shorts, each
   * into two consecutive output positions; nothing else in `output` changes.
   */
  method Remix(input: Buffer, output: Buffer)
    requires input.Valid() && output.Valid() && input != output && input.data != output.data
    modifies input, output, output.data
    ensures input.Valid() && output.Valid() && unchanged(input.data)
    ensures var k := Min(old(input.Remaining()), old(output.Remaining()) / 2);
      input.position == old(input.position) + k && output.position == old(output.position) + 2 * k
    ensures input.limit == old(input.limit) && output.limit == old(output.limit)
    ensures forall j :: old(output.position) <= j < output.position ==>
      output.data[j] == input.data[old(input.position) + (j - old(output.position)) / 2]
    ensures forall j :: 0 <= j < output.data.Length && !(old(output.position) <= j < output.position) ==>
      output.data[j] == old(output.data[j])
  {
    var inRemaining := input.limit - input.position;
    var outSpace := (output.limit - output.position) / 2;
    var samplesToBeProcessed := Min(inRemaining, outSpace);
    ghost var in0, out0 := input.position, output.position;
    var i := 0;
    while i < samplesToBeProcessed
      invariant 0 <= i <= samplesToBeProcessed
      invariant input.Valid() && output.Valid() && unchanged(input.data)
      invariant input.position == in0 + i && output.position == out0 + 2 * i
      invariant input.limit == old(input.limit) && output.limit == old(output.limit)
      invariant forall j :: out0 <= j < out0 + 2 * i ==> output.data[j] == input.data[in0 + (j - out0) / 2]
      invariant forall j :: 0 <= j < output.data.Length && !(out0 <= j < out0 + 2 * i) ==>
        output.data[j] == old(output.data[j])
    {
      var inSample := input.Get();
      output.Put(inSample);
      output.Put(inSample);
      i := i + 1;
    }
  }

  /** Up-mixing then keeping every other output short gives back the input, in order. */
  lemma {:induction false} EverySampleTwice(input: seq<int>, output: seq<int>, k: nat)
    requires k <= |input| && 2 * k <= |output|
    requires forall j :: 0 <= j < 2 * k ==> output[j] == input[j / 2]
    ensures forall i :: 0 <= i < k ==> output[2 * i] == input[i] && output[2 * i + 1] == input[i]
  {
    forall i | 0 <= i < k
      ensures output[2 * i] == input[i] && output[2 * i + 1] == input[i]
    {
      assert (2 * i) / 2 == i && (2 * i + 1) / 2 == i;
    }
  }
}
