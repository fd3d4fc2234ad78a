/**
 * `CutAudioStretcher`: used when the output is shorter than the input; it
 * keeps the first samples and drops the rest, so the pitch is unchanged.
 */
module CutStretcher {
  import opened Common
  import opened Buffers

  /**
   * `stretch`: fails when the input holds fewer shorts than the output has
   * room for. Otherwise the output is filled with the first
   * `output.remaining` input shorts, in order, and the input is left fully
   * read with its limit as before. `channels` is not used by the source.
   */
  method Stretch(input: Buffer, output: Buffer, channels: int) returns (r: Result<()>)
    requires input.Valid() && output.Valid() && input != output && input.data != output.data
    modifies input, output, output.data
    ensures r.Failure? <==> old(input.Remaining()) < old(output.Remaining())
    ensures r.Failure? ==> unchanged(input) && unchanged(output) && unchanged(output.data)
    ensures r.Success? ==>
      && input.Valid() && output.Valid()
      && output.data[..] == old(output.data[..output.position])
                            + old(input.Content())[..old(output.Remaining())]
                            + old(output.data[output.limit..])
      && output.position == output.limit == old(output.limit)
      && input.position == input.limit == old(input.limit)
    ensures unchanged(input.data)
  {
    if input.limit - input.position < output.limit - output.position {
      return Failure("Illegal use of CutAudioStretcher");
    }
    var exceeding := (input.limit - input.position) - (output.limit - output.position);
    ghost var kept := input.Content()[..output.limit - output.position];
    input.SetLimit(input.limit - exceeding);
    assert input.Content() == kept;
    output.PutAll(input);
    input.SetLimit(input.limit + exceeding);
    input.SetPosition(input.limit);
    r := Success(());
  }
}
