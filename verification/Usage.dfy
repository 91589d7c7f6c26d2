/** Token counts, any of which may be missing, and the total that is displayed for them. */
module Usage {
  import opened Common

  datatype TokenCounts = TokenCounts(
    input: Option<u64>,
    cachedInput: Option<u64>,
    cacheWriteInput: Option<u64>,
    output: Option<u64>,
    reasoningOutput: Option<u64>,
    total: Option<u64>)

  /** Input and output win over a total that may have counted cached tokens twice. */
  function DisplayTotal(counts: TokenCounts): Option<u64> {
    if counts.input.Some? && counts.output.Some? then Some(Saturate(counts.input.value + counts.output.value))
      else counts.total
  }

  function Or0(value: Option<u64>): u64 { if value.Some? then value.value else 0 }

  /** A turn of which only input and output are known. */
  function Turn(input: u64, output: u64): TokenCounts { TokenCounts(Some(input), None, None, Some(output), None, None) }
}
