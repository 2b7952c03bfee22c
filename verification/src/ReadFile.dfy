/** The bounded read of a text file: a sample one byte longer than the limit decides text or binary, and the cut. */
module ReadFile {
  import opened Bytes
  import opened Utf8

  const MAX_READ_BYTES: nat := 16 * 1024 * 1024

  datatype ReadResult = ReadText(text: Bytes, truncated: bool, originalBytes: nat, retainedBytes: nat) | BinaryFile

  function Limit(maxBytes: nat): (n: nat)
    ensures n <= maxBytes && n <= 16 * 1024 * 1024 && (n == maxBytes || n == 16 * 1024 * 1024)
  {
    if maxBytes <= MAX_READ_BYTES then maxBytes else MAX_READ_BYTES
  }

  /** What is read of the file: all of it or, if that is more, one byte more than the limit. */
  function Sample(file: Bytes, maxBytes: nat): (r: Bytes)
    ensures r <= file && |r| <= Limit(maxBytes) + 1 && (|r| < Limit(maxBytes) + 1 ==> r == file)
  {
    if |file| <= Limit(maxBytes) + 1 then file else file[..Limit(maxBytes) + 1]
  }

  /** The file does not change between the length query and the read. */
  method ReadBounded(file: Bytes, maxBytes: nat) returns (r: ReadResult)
    ensures r.BinaryFile? <==>
              || 0 in Sample(file, maxBytes)
              || Check(Sample(file, maxBytes)).Invalid?
              || (|file| <= Limit(maxBytes) && !IsText(file))
    ensures r.ReadText? ==>
              && LongestTextPrefix(file, if |file| <= Limit(maxBytes) then |file| else Limit(maxBytes), r.retainedBytes)
              && r.text == file[..r.retainedBytes]
              && (r.truncated <==> |file| > Limit(maxBytes))
              && r.originalBytes == |file|
    ensures IsText(file) && 0 !in file ==> r.ReadText? && (r.truncated || r.text == file)
  {
    var limit := Limit(maxBytes);
    var bytes := Sample(file, maxBytes);
    var truncated := |file| > limit || |bytes| > limit;
    var sampleWasCut := |file| > |bytes| || |bytes| > limit;
    ghost var isText := IsText(file);
    if isText {
      CutText(file, |bytes|);
      assert file[..|file|] == file;
    }
    if 0 in bytes || (!sampleWasCut && !IsText(bytes)) || (sampleWasCut && Check(bytes).Invalid?) {
      return BinaryFile;
    }
    var retained: nat := if |bytes| <= limit then |bytes| else limit;
    CutText(bytes, retained);
    assert bytes[..retained] == file[..retained];
    match Check(bytes[..retained]) {
      case Valid =>
      case Incomplete(validUpTo) =>
        if !truncated {
          return BinaryFile;
        }
        retained := validUpTo;
      case Invalid(_) =>
        return BinaryFile;
    }
    SamplePrefix(file, bytes, if |bytes| <= limit then |bytes| else limit, retained);
    return ReadText(bytes[..retained], truncated, |file|, retained);
  }

  lemma SamplePrefix(file: Bytes, sample: Bytes, n: nat, m: nat)
    requires sample <= file && LongestTextPrefix(sample, n, m)
    ensures LongestTextPrefix(file, n, m)
  {
    assert forall k | 0 <= k <= n :: sample[..k] == file[..k];
  }
}
