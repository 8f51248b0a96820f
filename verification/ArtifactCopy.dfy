// Copying an artifact source while counting and hashing it: the loop against the whole byte stream.

module ArtifactCopy {
  import opened Common

  const MAX_ARTIFACT_BYTES := 256 * 1024 * 1024
  const U64_MAX := 0xFFFF_FFFF_FFFF_FFFF

  // What one read delivers; an empty one is the end of the file, None an error.
  type Read = Option<Bytes>

  /** What reads deliver until the end of the file or the first error. */
  function Stream(results: seq<Read>): Bytes {
    if results == [] || results[0].None? || results[0].value == [] then [] else results[0].value + Stream(results[1..])
  }

  // The end of the file comes before any error.
  predicate ReadsToTheEnd(results: seq<Read>) {
    results == [] || (results[0].Some? && (results[0].value == [] || ReadsToTheEnd(results[1..])))
  }

  /** How many nonempty reads there are until then. */
  function Pieces(results: seq<Read>): nat {
    if results == [] || results[0].None? || results[0].value == [] then 0 else 1 + Pieces(results[1..])
  }

  function SaturatingAdd(a: nat, b: nat): nat {
    if a + b > U64_MAX then U64_MAX else a + b
  }

  lemma StreamSplits(results: seq<Read>)
    requires results != [] && results[0].Some? && results[0].value != []
    ensures Stream(results) == results[0].value + Stream(results[1..]) && |Stream(results)| >= |results[0].value|
  {}

  /** The copy succeeds exactly when nothing fails (creating the destination, any read or write, the sync, the renewals
      of the lease) and the source still has the length that was found before, at most 256 MiB; then the file holds all
      of it and the digest is the digest of what was written. Otherwise a beginning of it was written. The first so
      many writes succeed. */
  method CopyAndHash<Digest>(results: seq<Read>, statLength: nat, created: bool, writes: nat, synced: bool, renewed: bool,
                             hash: Bytes -> Digest)
    returns (sha256: Option<Digest>, written: Bytes)
    requires statLength <= U64_MAX
    ensures sha256.Some? <==>
              && statLength <= MAX_ARTIFACT_BYTES && |Stream(results)| == statLength
              && created && ReadsToTheEnd(results) && Pieces(results) <= writes && synced && renewed
    ensures sha256.Some? ==> written == Stream(results) && sha256.value == hash(written)
    ensures written <= Stream(results)
  {
    written := [];
    if statLength > MAX_ARTIFACT_BYTES || !created { return None, written; }
    var hashed: Bytes := [];
    var copied: nat := 0;
    var i := 0;
    while i < |results| && (results[i].None? || |results[i].value| != 0)
      invariant 0 <= i <= |results| && i <= writes
      invariant written + Stream(results[i..]) == Stream(results)
      invariant ReadsToTheEnd(results[i..]) == ReadsToTheEnd(results) && i + Pieces(results[i..]) == Pieces(results)
      invariant hashed == written && copied == |written| <= statLength
      decreases |results| - i
    {
      if results[i].None? { return None, written; }
      var piece := results[i].value;
      StreamSplits(results[i..]);
      assert results[i..][1..] == results[i + 1..];
      assert written + (piece + Stream(results[i + 1..])) == written + piece + Stream(results[i + 1..]);
      copied := SaturatingAdd(copied, |piece|);
      if copied > MAX_ARTIFACT_BYTES || copied > statLength { return None, written; }
      if i >= writes { return None, written; }
      written := written + piece;
      hashed := hashed + piece;
      i := i + 1;
    }
    assert Stream(results[i..]) == [];
    assert written + [] == written;
    if copied != statLength || !synced || !renewed { return None, written; }
    return Some(hash(hashed)), written;
  }
}
