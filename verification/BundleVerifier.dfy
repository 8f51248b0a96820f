// The stream verifier of final bundles, and the canonical event sequence of a bundle.
// Digest, manifest serialisation and payload serialisation are uninterpreted.

module BundleVerifier {
  import opened Common
  import Base64

  const MAX_CHUNK: nat := 192 * 1024
  const MAX_MANIFEST: nat := 256 * 1024
  const MAX_BUNDLE: nat := 16 * 1024 * 1024
  const MAX_DELIVERIES: nat := 1024
  const USIZE_MAX: nat := 0xFFFF_FFFF_FFFF_FFFF

  type Id = string

  datatype Payload =
    | Text(text: string)
    | File(artifact: string)
    | TerminalError(code: string, message: string)

  datatype Entry = Entry(deliveryId: Id, kind: string, decodedBytes: nat, sha256: string, chunkCount: nat)

  datatype Event =
    | FinalBegin(requestId: Id, bundleId: Id, replay: bool, manifest: seq<Entry>)
    | FinalChunk(requestId: Id, bundleId: Id, deliveryId: Id, chunkIndex: nat, base64: Bytes)
    | FinalEnd(requestId: Id, bundleId: Id, manifestSha256: string)
    | OtherEvent

  datatype Codec = Codec(
    hash: Bytes -> string,
    manifestBytes: seq<Entry> -> Bytes,
    serialize: Payload -> Bytes,
    parse: Bytes -> Option<Payload>)

  // The digest is the one of the bytes fed to it so far.
  datatype Buffer = Buffer(bytes: Bytes, digested: Bytes)

  datatype Pending = Pending(
    requestId: Id,
    bundleId: Id,
    replay: bool,
    manifest: seq<Entry>,
    buffers: seq<Buffer>,
    current: nat,
    nextChunk: nat,
    buffered: nat)

  datatype Verifier = Verifier(expected: Option<Id>, bundle: Option<Pending>, finalSeen: bool)

  datatype Delivery = Delivery(id: Id, payload: Payload)

  datatype VerifiedBundle = VerifiedBundle(
    requestId: Id, bundleId: Id, replay: bool, manifestSha256: string, deliveries: seq<Delivery>)

  datatype Rejection =
    | AfterFinal | NotFinalEvent | WrongRequest | SecondBundle | DeliveryCount | ManifestTooBig
    | DuplicateDelivery | UnknownKind | ChunkCountMismatch | SizeOverflow | BundleTooBig
    | NoBegin | WrongIds | ExtraChunk | OutOfOrder | NotContiguous | OffsetOverflow
    | EncodedSize | BadBase64 | DecodedSize | BufferedTooBig
    | ManifestHash | EndedEarly | TotalMismatch | DeliverySize | DeliveryHash | BadPayload | KindMismatch

  datatype Outcome = Accepted | Completed(bundle: VerifiedBundle) | Rejected(reason: Rejection)

  // ---------------------------------------------------------------- specification

  function DivCeil(n: nat, d: nat): nat
    requires d > 0
  {
    (n + d - 1) / d
  }

  function Min(a: int, b: int): int { if a < b then a else b }

  function KindOf(payload: Payload): string {
    match payload
    case Text(_) => "text"
    case File(_) => "file"
    case TerminalError(_, _) => "terminal_error"
  }

  predicate KnownKind(kind: string) {
    kind == "text" || kind == "file" || kind == "terminal_error"
  }

  function EntriesRejection(entries: seq<Entry>, seen: set<Id>, total: nat): Option<Rejection>
    decreases |entries|
  {
    if entries == [] then None
    else
      var e := entries[0];
      if e.deliveryId in seen then Some(DuplicateDelivery)
      else if !KnownKind(e.kind) then Some(UnknownKind)
      else if e.decodedBytes == 0 || e.chunkCount != DivCeil(e.decodedBytes, MAX_CHUNK) then Some(ChunkCountMismatch)
      else if total + e.decodedBytes > USIZE_MAX then Some(SizeOverflow)
      else if total + e.decodedBytes > MAX_BUNDLE then Some(BundleTooBig)
      else EntriesRejection(entries[1..], seen + {e.deliveryId}, total + e.decodedBytes)
  }

  predicate ForeignRequest(v: Verifier, requestId: Id) {
    v.expected.Some? && v.expected.value != requestId
  }

  function EmptyBuffers(n: nat): seq<Buffer> { seq(n, _ => Buffer([], [])) }

  function BeginSpec(codec: Codec, v: Verifier, e: Event): Result<Verifier, Rejection>
    requires e.FinalBegin?
  {
    if ForeignRequest(v, e.requestId) then Err(WrongRequest)
    else if v.bundle.Some? || v.finalSeen then Err(SecondBundle)
    else if e.manifest == [] || |e.manifest| > MAX_DELIVERIES then Err(DeliveryCount)
    else if |codec.manifestBytes(e.manifest)| > MAX_MANIFEST then Err(ManifestTooBig)
    else
      match EntriesRejection(e.manifest, {}, 0)
      case Some(reason) => Err(reason)
      case None =>
        Ok(v.(bundle := Some(Pending(
          e.requestId, e.bundleId, e.replay, e.manifest, EmptyBuffers(|e.manifest|), 0, 0, 0))))
  }

  function Advanced(b: Pending, piece: Bytes): Pending
    requires b.current < |b.manifest| && b.current < |b.buffers|
  {
    var buffer := b.buffers[b.current];
    var full := b.nextChunk + 1 == b.manifest[b.current].chunkCount;
    b.(buffers := b.buffers[b.current := Buffer(buffer.bytes + piece, buffer.digested + piece)],
       buffered := b.buffered + |piece|,
       current := if full then b.current + 1 else b.current,
       nextChunk := if full then 0 else b.nextChunk + 1)
  }

  function ChunkSpec(v: Verifier, e: Event): Result<Verifier, Rejection>
    requires e.FinalChunk?
    requires v.bundle.Some? ==> |v.bundle.value.buffers| == |v.bundle.value.manifest|
  {
    if ForeignRequest(v, e.requestId) then Err(WrongRequest)
    else if v.bundle.None? then Err(NoBegin)
    else
      var b := v.bundle.value;
      if b.requestId != e.requestId || b.bundleId != e.bundleId then Err(WrongIds)
      else if b.current >= |b.manifest| then Err(ExtraChunk)
      else
        var entry := b.manifest[b.current];
        if entry.deliveryId != e.deliveryId then Err(OutOfOrder)
        else if e.chunkIndex != b.nextChunk then Err(NotContiguous)
        else
          var expected := Min(entry.decodedBytes - e.chunkIndex * MAX_CHUNK, MAX_CHUNK);
          if |e.base64| != (expected + 2) / 3 * 4 then Err(EncodedSize)
          else
            match Base64.Decode(e.base64)
            case None => Err(BadBase64)
            case Some(piece) =>
              if |piece| != expected then Err(DecodedSize)
              else Ok(v.(bundle := Some(Advanced(b, piece))))
  }

  function VerifyDeliveries(codec: Codec, manifest: seq<Entry>, buffers: seq<Buffer>): Result<seq<Delivery>, Rejection>
    requires |manifest| == |buffers|
    decreases |manifest|
  {
    if manifest == [] then Ok([])
    else
      var entry, buffer := manifest[0], buffers[0];
      if |buffer.bytes| != entry.decodedBytes then Err(DeliverySize)
      else if codec.hash(buffer.digested) != entry.sha256 then Err(DeliveryHash)
      else
        match codec.parse(buffer.bytes)
        case None => Err(BadPayload)
        case Some(payload) =>
          if KindOf(payload) != entry.kind then Err(KindMismatch)
          else
            match VerifyDeliveries(codec, manifest[1..], buffers[1..])
            case Err(reason) => Err(reason)
            case Ok(rest) => Ok([Delivery(entry.deliveryId, payload)] + rest)
  }

  function SumDecoded(manifest: seq<Entry>): nat {
    if manifest == [] then 0 else manifest[0].decodedBytes + SumDecoded(manifest[1..])
  }

  function SumBuffers(buffers: seq<Buffer>): nat {
    if buffers == [] then 0 else |buffers[0].bytes| + SumBuffers(buffers[1..])
  }

  /** The end takes the pending bundle, so a refusal after the request check drops it. */
  function EndSpec(codec: Codec, v: Verifier, e: Event): (Verifier, Outcome)
    requires e.FinalEnd?
    requires v.bundle.Some? ==> |v.bundle.value.buffers| == |v.bundle.value.manifest|
  {
    if ForeignRequest(v, e.requestId) then (v, Rejected(WrongRequest))
    else if v.bundle.None? then (v, Rejected(NoBegin))
    else
      var b, taken := v.bundle.value, v.(bundle := None);
      if b.requestId != e.requestId || b.bundleId != e.bundleId then (taken, Rejected(WrongIds))
      else if codec.hash(codec.manifestBytes(b.manifest)) != e.manifestSha256 then (taken, Rejected(ManifestHash))
      else if b.current != |b.manifest| || b.nextChunk != 0 then (taken, Rejected(EndedEarly))
      else if b.buffered != SumDecoded(b.manifest) then (taken, Rejected(TotalMismatch))
      else
        match VerifyDeliveries(codec, b.manifest, b.buffers)
        case Err(reason) => (taken, Rejected(reason))
        case Ok(deliveries) =>
          (taken.(finalSeen := true),
           Completed(VerifiedBundle(e.requestId, e.bundleId, b.replay, e.manifestSha256, deliveries)))
  }

  predicate WellShaped(v: Verifier) {
    v.bundle.Some? ==> |v.bundle.value.buffers| == |v.bundle.value.manifest|
  }

  function HandleSpec(codec: Codec, v: Verifier, e: Event): (r: (Verifier, Outcome))
    requires WellShaped(v)
    ensures WellShaped(r.0)
  {
    if v.finalSeen then (v, Rejected(AfterFinal))
    else
      match e
      case FinalBegin(_, _, _, _) =>
        (match BeginSpec(codec, v, e) case Ok(v') => (v', Accepted) case Err(reason) => (v, Rejected(reason)))
      case FinalChunk(_, _, _, _, _) =>
        (match ChunkSpec(v, e) case Ok(v') => (v', Accepted) case Err(reason) => (v, Rejected(reason)))
      case FinalEnd(_, _, _) => EndSpec(codec, v, e)
      case OtherEvent => (v, Rejected(NotFinalEvent))
  }

  // ---------------------------------------------------------------- the invariant

  ghost predicate DistinctIds(manifest: seq<Entry>) {
    forall i, j | 0 <= i < j < |manifest| :: manifest[i].deliveryId != manifest[j].deliveryId
  }

  ghost predicate EntryLegal(e: Entry) {
    KnownKind(e.kind) && e.decodedBytes > 0 && e.chunkCount == DivCeil(e.decodedBytes, MAX_CHUNK)
  }

  ghost predicate EntriesLegal(manifest: seq<Entry>) {
    forall i | 0 <= i < |manifest| :: EntryLegal(manifest[i])
  }

  /** The check loop of the manifest accepts exactly the legal manifests. */
  lemma {:induction false} EntriesRejectionExact(entries: seq<Entry>, seen: set<Id>, total: nat)
    requires total <= MAX_BUNDLE
    ensures EntriesRejection(entries, seen, total).None? <==>
      && EntriesLegal(entries) && DistinctIds(entries)
      && (forall i | 0 <= i < |entries| :: entries[i].deliveryId !in seen)
      && total + SumDecoded(entries) <= MAX_BUNDLE
    decreases |entries|
  {
    if entries != [] {
      var e, rest := entries[0], entries[1..];
      assert forall i | 0 <= i < |rest| :: rest[i] == entries[i + 1];
      if total + e.decodedBytes <= MAX_BUNDLE {
        EntriesRejectionExact(rest, seen + {e.deliveryId}, total + e.decodedBytes);
      }
      if EntriesRejection(entries, seen, total).None? {
        assert EntryLegal(e);
        forall i | 0 <= i < |entries| ensures EntryLegal(entries[i]) && entries[i].deliveryId !in seen {
          if i > 0 { assert entries[i] == rest[i - 1]; }
        }
        forall i, j | 0 <= i < j < |entries| ensures entries[i].deliveryId != entries[j].deliveryId {
          assert entries[j] == rest[j - 1];
          if i > 0 { assert entries[i] == rest[i - 1]; }
        }
      }
      if EntriesLegal(entries) && DistinctIds(entries) {
        assert EntryLegal(entries[0]) && DistinctIds(rest);
        forall i | 0 <= i < |rest| ensures EntryLegal(rest[i]) && rest[i].deliveryId != e.deliveryId {
          assert EntryLegal(entries[i + 1]);
        }
      }
    }
  }

  ghost predicate ManifestLegal(codec: Codec, manifest: seq<Entry>) {
    && 1 <= |manifest| <= MAX_DELIVERIES
    && |codec.manifestBytes(manifest)| <= MAX_MANIFEST
    && EntriesLegal(manifest) && DistinctIds(manifest) && SumDecoded(manifest) <= MAX_BUNDLE
  }

  // How many bytes of delivery i are in its buffer.
  function FilledTo(b: Pending, i: nat): nat
    requires i < |b.manifest|
  {
    if i < b.current then b.manifest[i].decodedBytes
    else if i == b.current then b.nextChunk * MAX_CHUNK
    else 0
  }

  ghost predicate PendingOk(codec: Codec, b: Pending) {
    && ManifestLegal(codec, b.manifest)
    && |b.buffers| == |b.manifest|
    && b.current <= |b.manifest|
    && (b.current == |b.manifest| ==> b.nextChunk == 0)
    && (b.current < |b.manifest| ==> b.nextChunk < b.manifest[b.current].chunkCount)
    && (forall i | 0 <= i < |b.manifest| ::
          |b.buffers[i].bytes| == FilledTo(b, i) && b.buffers[i].digested == b.buffers[i].bytes)
    && b.buffered == SumBuffers(b.buffers)
  }

  ghost predicate Inv(codec: Codec, v: Verifier) {
    v.bundle.Some? ==>
      PendingOk(codec, v.bundle.value) && !v.finalSeen && !ForeignRequest(v, v.bundle.value.requestId)
  }

  lemma {:induction false} EmptyBuffersSum(n: nat)
    ensures SumBuffers(EmptyBuffers(n)) == 0
  {
    if n > 0 {
      assert EmptyBuffers(n)[1..] == EmptyBuffers(n - 1);
      EmptyBuffersSum(n - 1);
    }
  }

  lemma {:induction false} SumBuffersUpdate(buffers: seq<Buffer>, i: nat, buffer: Buffer)
    requires i < |buffers|
    ensures SumBuffers(buffers[i := buffer]) == SumBuffers(buffers) - |buffers[i].bytes| + |buffer.bytes|
    decreases |buffers|
  {
    var updated := buffers[i := buffer];
    if i == 0 {
      assert updated[1..] == buffers[1..];
    } else {
      assert updated[1..] == buffers[1..][i - 1 := buffer];
      SumBuffersUpdate(buffers[1..], i - 1, buffer);
    }
  }

  lemma {:induction false} SumBuffersBelow(manifest: seq<Entry>, buffers: seq<Buffer>)
    requires |manifest| == |buffers|
    requires forall i | 0 <= i < |manifest| :: |buffers[i].bytes| <= manifest[i].decodedBytes
    ensures SumBuffers(buffers) <= SumDecoded(manifest)
    ensures (forall i | 0 <= i < |manifest| :: |buffers[i].bytes| == manifest[i].decodedBytes) ==>
              SumBuffers(buffers) == SumDecoded(manifest)
    decreases |manifest|
  {
    if manifest != [] { SumBuffersBelow(manifest[1..], buffers[1..]); }
  }

  // The k-th chunk of n bytes starts inside them, and only the last one reaches their end.
  lemma ChunkPartition(n: nat, k: nat)
    requires n > 0 && k < DivCeil(n, MAX_CHUNK)
    ensures k * MAX_CHUNK < n
    ensures k + 1 == DivCeil(n, MAX_CHUNK) <==> k * MAX_CHUNK + Min(n - k * MAX_CHUNK, MAX_CHUNK) == n
    ensures k + 1 < DivCeil(n, MAX_CHUNK) ==> Min(n - k * MAX_CHUNK, MAX_CHUNK) == MAX_CHUNK
  {}

  lemma FilledBelow(codec: Codec, b: Pending, i: nat)
    requires PendingOk(codec, b) && i < |b.manifest|
    ensures |b.buffers[i].bytes| <= b.manifest[i].decodedBytes
  {
    assert EntryLegal(b.manifest[i]);
    if i == b.current { ChunkPartition(b.manifest[i].decodedBytes, b.nextChunk); }
  }

  lemma AdvancedFills(codec: Codec, b: Pending, piece: Bytes, i: nat)
    requires PendingOk(codec, b) && b.current < |b.manifest| && i < |b.manifest|
    requires |piece| == Min(b.manifest[b.current].decodedBytes - b.nextChunk * MAX_CHUNK, MAX_CHUNK)
    ensures var b' := Advanced(b, piece);
            |b'.buffers[i].bytes| == FilledTo(b', i) && b'.buffers[i].digested == b'.buffers[i].bytes
  {
    assert EntryLegal(b.manifest[b.current]);
    ChunkPartition(b.manifest[b.current].decodedBytes, b.nextChunk);
    assert |b.buffers[i].bytes| == FilledTo(b, i);
    assert |b.buffers[b.current].bytes| == FilledTo(b, b.current);
  }

  lemma AdvancedKeeps(codec: Codec, b: Pending, piece: Bytes)
    requires PendingOk(codec, b) && b.current < |b.manifest|
    requires |piece| == Min(b.manifest[b.current].decodedBytes - b.nextChunk * MAX_CHUNK, MAX_CHUNK)
    ensures PendingOk(codec, Advanced(b, piece))
    ensures Advanced(b, piece).buffered <= MAX_BUNDLE
  {
    var b' := Advanced(b, piece);
    SumBuffersUpdate(b.buffers, b.current, b'.buffers[b.current]);
    forall i | 0 <= i < |b'.manifest|
      ensures |b'.buffers[i].bytes| == FilledTo(b', i) && b'.buffers[i].digested == b'.buffers[i].bytes
      ensures EntryLegal(b.manifest[i])
    {
      AdvancedFills(codec, b, piece, i);
    }
    assert PendingOk(codec, b');
    forall i | 0 <= i < |b'.manifest| ensures |b'.buffers[i].bytes| <= b'.manifest[i].decodedBytes {
      FilledBelow(codec, b', i);
    }
    SumBuffersBelow(b'.manifest, b'.buffers);
  }

  lemma HandleKeepsInv(codec: Codec, v: Verifier, e: Event)
    requires Inv(codec, v)
    ensures Inv(codec, HandleSpec(codec, v, e).0)
  {
    var (v', outcome) := HandleSpec(codec, v, e);
    if outcome.Accepted? {
      if e.FinalBegin? {
        EntriesRejectionExact(e.manifest, {}, 0);
        EmptyBuffersSum(|e.manifest|);
        assert EntryLegal(e.manifest[0]);
      } else {
        var piece := Base64.Decode(e.base64).value;
        AdvancedKeeps(codec, v.bundle.value, piece);
      }
    }
  }

  // ---------------------------------------------------------------- the canonical encoding

  datatype Raw = Raw(id: Id, kind: string, bytes: Bytes)

  function EntryFor(codec: Codec, raw: Raw): Entry {
    Entry(raw.id, raw.kind, |raw.bytes|, codec.hash(raw.bytes), DivCeil(|raw.bytes|, MAX_CHUNK))
  }

  function ManifestFor(codec: Codec, raws: seq<Raw>): seq<Entry> {
    seq(|raws|, i requires 0 <= i < |raws| => EntryFor(codec, raws[i]))
  }

  // The k-th of the canonical chunks: all but the last one are full.
  function ChunkAt(bytes: Bytes, k: nat): Bytes
    requires k * MAX_CHUNK < |bytes|
  {
    bytes[k * MAX_CHUNK..k * MAX_CHUNK + Min(|bytes| - k * MAX_CHUNK, MAX_CHUNK)]
  }

  function Chunks(bytes: Bytes): seq<Bytes> {
    seq(DivCeil(|bytes|, MAX_CHUNK), k requires 0 <= k < DivCeil(|bytes|, MAX_CHUNK) => ChunkAt(bytes, k))
  }

  function PieceEvents(requestId: Id, bundleId: Id, id: Id, pieces: seq<Bytes>): seq<Event> {
    seq(|pieces|, k requires 0 <= k < |pieces| => FinalChunk(requestId, bundleId, id, k, Base64.Encode(pieces[k])))
  }

  function ChunkEvents(requestId: Id, bundleId: Id, id: Id, bytes: Bytes): seq<Event> {
    PieceEvents(requestId, bundleId, id, Chunks(bytes))
  }

  function DeliveryEvents(requestId: Id, bundleId: Id, raws: seq<Raw>): seq<Event> {
    if raws == [] then []
    else ChunkEvents(requestId, bundleId, raws[0].id, raws[0].bytes) + DeliveryEvents(requestId, bundleId, raws[1..])
  }

  /** Begin, the chunks of each delivery in manifest order, End. */
  function CanonicalEvents(codec: Codec, requestId: Id, bundleId: Id, replay: bool, raws: seq<Raw>): seq<Event> {
    [FinalBegin(requestId, bundleId, replay, ManifestFor(codec, raws))]
    + DeliveryEvents(requestId, bundleId, raws)
    + [FinalEnd(requestId, bundleId, codec.hash(codec.manifestBytes(ManifestFor(codec, raws))))]
  }

  function RawsOf(codec: Codec, deliveries: seq<Delivery>): seq<Raw> {
    seq(|deliveries|, i requires 0 <= i < |deliveries| =>
      Raw(deliveries[i].id, KindOf(deliveries[i].payload), codec.serialize(deliveries[i].payload)))
  }

  // ---------------------------------------------------------------- accepted streams are canonical

  // What a stream leaves: the verifier, and the accepted events since the last accepted Begin.
  function RunLog(codec: Codec, v: Verifier, log: seq<Event>, events: seq<Event>): (r: (Verifier, seq<Event>))
    requires WellShaped(v)
    ensures WellShaped(r.0)
    decreases |events|
  {
    if events == [] then (v, log)
    else
      var e := events[0];
      var (v', outcome) := HandleSpec(codec, v, e);
      var log' := if v'.bundle.None? then [] else if outcome.Rejected? then log
                  else if e.FinalBegin? then [e] else log + [e];
      RunLog(codec, v', log', events[1..])
  }

  // The buffered bytes as deliveries; kinds come from the manifest.
  function Buffered(b: Pending): seq<Raw>
    requires |b.buffers| == |b.manifest|
  {
    seq(|b.manifest|, i requires 0 <= i < |b.manifest| =>
      Raw(b.manifest[i].deliveryId, b.manifest[i].kind, b.buffers[i].bytes))
  }

  ghost predicate LogOk(v: Verifier, log: seq<Event>)
    requires WellShaped(v)
  {
    v.bundle.Some? ==>
      var b := v.bundle.value;
      log == [FinalBegin(b.requestId, b.bundleId, b.replay, b.manifest)]
             + DeliveryEvents(b.requestId, b.bundleId, Buffered(b))
  }

  lemma SameChunk(bytes: Bytes, piece: Bytes, j: nat)
    requires (j + 1) * MAX_CHUNK <= |bytes|
    ensures ChunkAt(bytes + piece, j) == ChunkAt(bytes, j)
  {
    var at := j * MAX_CHUNK;
    assert (bytes + piece)[at..at + MAX_CHUNK] == bytes[at..at + MAX_CHUNK];
  }

  lemma LastChunk(bytes: Bytes, piece: Bytes, k: nat)
    requires |bytes| == k * MAX_CHUNK && 0 < |piece| <= MAX_CHUNK
    ensures DivCeil(|bytes|, MAX_CHUNK) == k && DivCeil(|bytes + piece|, MAX_CHUNK) == k + 1
    ensures ChunkAt(bytes + piece, k) == piece
  {
    assert (bytes + piece)[|bytes|..|bytes| + |piece|] == piece;
  }

  lemma ChunksAppended(bytes: Bytes, piece: Bytes, k: nat)
    requires |bytes| == k * MAX_CHUNK && 0 < |piece| <= MAX_CHUNK
    ensures Chunks(bytes + piece) == Chunks(bytes) + [piece] && |Chunks(bytes)| == k
  {
    LastChunk(bytes, piece, k);
    forall j | 0 <= j < k ensures Chunks(bytes + piece)[j] == Chunks(bytes)[j] {
      SameChunk(bytes, piece, j);
    }
  }

  lemma PieceEventsAppended(requestId: Id, bundleId: Id, id: Id, pieces: seq<Bytes>, piece: Bytes)
    ensures PieceEvents(requestId, bundleId, id, pieces + [piece])
         == PieceEvents(requestId, bundleId, id, pieces)
            + [FinalChunk(requestId, bundleId, id, |pieces|, Base64.Encode(piece))]
  {}

  // A piece after k full chunks is one more event.
  lemma ChunkAppended(requestId: Id, bundleId: Id, id: Id, bytes: Bytes, piece: Bytes, k: nat)
    requires |bytes| == k * MAX_CHUNK && 0 < |piece| <= MAX_CHUNK
    ensures ChunkEvents(requestId, bundleId, id, bytes + piece)
         == ChunkEvents(requestId, bundleId, id, bytes)
            + [FinalChunk(requestId, bundleId, id, k, Base64.Encode(piece))]
  {
    ChunksAppended(bytes, piece, k);
    PieceEventsAppended(requestId, bundleId, id, Chunks(bytes), piece);
  }

  lemma NoChunks(requestId: Id, bundleId: Id, id: Id)
    ensures ChunkEvents(requestId, bundleId, id, []) == []
  {
    assert |Chunks([])| == 0;
  }

  lemma {:induction false} EmptyTail(requestId: Id, bundleId: Id, raws: seq<Raw>)
    requires forall i | 0 <= i < |raws| :: raws[i].bytes == []
    ensures DeliveryEvents(requestId, bundleId, raws) == []
    decreases |raws|
  {
    if raws != [] {
      NoChunks(requestId, bundleId, raws[0].id);
      EmptyTail(requestId, bundleId, raws[1..]);
    }
  }

  lemma {:induction false} DeliveryAppended(requestId: Id, bundleId: Id, raws: seq<Raw>, i: nat, k: nat, piece: Bytes)
    requires i < |raws| && |raws[i].bytes| == k * MAX_CHUNK && 0 < |piece| <= MAX_CHUNK
    requires forall j | i < j < |raws| :: raws[j].bytes == []
    ensures DeliveryEvents(requestId, bundleId, raws[i := raws[i].(bytes := raws[i].bytes + piece)])
         == DeliveryEvents(requestId, bundleId, raws)
            + [FinalChunk(requestId, bundleId, raws[i].id, k, Base64.Encode(piece))]
    decreases |raws|
  {
    var raws' := raws[i := raws[i].(bytes := raws[i].bytes + piece)];
    if i == 0 {
      assert raws'[1..] == raws[1..];
      EmptyTail(requestId, bundleId, raws[1..]);
      ChunkAppended(requestId, bundleId, raws[0].id, raws[0].bytes, piece, k);
    } else {
      assert raws'[1..] == raws[1..][i - 1 := raws'[i]];
      DeliveryAppended(requestId, bundleId, raws[1..], i - 1, k, piece);
    }
  }

  lemma BeginLog(codec: Codec, v: Verifier, e: Event)
    requires Inv(codec, v) && e.FinalBegin? && HandleSpec(codec, v, e).1.Accepted?
    ensures LogOk(HandleSpec(codec, v, e).0, [e])
  {
    var b := HandleSpec(codec, v, e).0.bundle.value;
    EmptyTail(b.requestId, b.bundleId, Buffered(b));
  }

  lemma AdvancedLog(codec: Codec, b: Pending, piece: Bytes)
    requires PendingOk(codec, b) && b.current < |b.manifest|
    requires |piece| == Min(b.manifest[b.current].decodedBytes - b.nextChunk * MAX_CHUNK, MAX_CHUNK)
    ensures DeliveryEvents(b.requestId, b.bundleId, Buffered(Advanced(b, piece)))
         == DeliveryEvents(b.requestId, b.bundleId, Buffered(b))
            + [FinalChunk(b.requestId, b.bundleId, b.manifest[b.current].deliveryId, b.nextChunk, Base64.Encode(piece))]
  {
    assert EntryLegal(b.manifest[b.current]);
    ChunkPartition(b.manifest[b.current].decodedBytes, b.nextChunk);
    assert |b.buffers[b.current].bytes| == FilledTo(b, b.current);
    forall j | b.current < j < |b.manifest| ensures Buffered(b)[j].bytes == [] {
      assert |b.buffers[j].bytes| == FilledTo(b, j);
    }
    DeliveryAppended(b.requestId, b.bundleId, Buffered(b), b.current, b.nextChunk, piece);
    var raw := Buffered(b)[b.current];
    assert Buffered(Advanced(b, piece)) == Buffered(b)[b.current := raw.(bytes := raw.bytes + piece)];
  }

  lemma ChunkLog(codec: Codec, v: Verifier, log: seq<Event>, e: Event)
    requires Inv(codec, v) && LogOk(v, log) && e.FinalChunk? && HandleSpec(codec, v, e).1.Accepted?
    ensures LogOk(HandleSpec(codec, v, e).0, log + [e])
  {
    AdvancedLog(codec, v.bundle.value, Base64.Decode(e.base64).value);
    Base64.EncodeUndoesDecode(e.base64);
  }

  lemma {:induction false} RunLogKeeps(codec: Codec, v: Verifier, log: seq<Event>, events: seq<Event>)
    requires Inv(codec, v) && LogOk(v, log)
    ensures var (v', log') := RunLog(codec, v, log, events); Inv(codec, v') && LogOk(v', log')
    decreases |events|
  {
    if events != [] {
      var e := events[0];
      var (v', outcome) := HandleSpec(codec, v, e);
      HandleKeepsInv(codec, v, e);
      if outcome.Accepted? {
        if e.FinalBegin? { BeginLog(codec, v, e); } else { ChunkLog(codec, v, log, e); }
      }
      var log' := if v'.bundle.None? then [] else if outcome.Rejected? then log
                  else if e.FinalBegin? then [e] else log + [e];
      assert LogOk(v', log');
      RunLogKeeps(codec, v', log', events[1..]);
    }
  }

  // What the checks of the end establish, delivery by delivery.
  ghost predicate DeliveryVerified(codec: Codec, entry: Entry, buffer: Buffer, delivery: Delivery) {
    && delivery.id == entry.deliveryId
    && codec.parse(buffer.bytes) == Some(delivery.payload) && KindOf(delivery.payload) == entry.kind
    && |buffer.bytes| == entry.decodedBytes && codec.hash(buffer.digested) == entry.sha256
  }

  lemma {:induction false} VerifyDeliveriesExact(codec: Codec, manifest: seq<Entry>, buffers: seq<Buffer>)
    requires |manifest| == |buffers|
    ensures var r := VerifyDeliveries(codec, manifest, buffers);
            r.Ok? ==>
              && |r.value| == |manifest|
              && forall i | 0 <= i < |manifest| :: DeliveryVerified(codec, manifest[i], buffers[i], r.value[i])
    decreases |manifest|
  {
    if manifest != [] {
      VerifyDeliveriesExact(codec, manifest[1..], buffers[1..]);
      var r := VerifyDeliveries(codec, manifest, buffers);
      if r.Ok? {
        forall i | 0 <= i < |manifest| ensures DeliveryVerified(codec, manifest[i], buffers[i], r.value[i]) {
          if i > 0 {
            assert manifest[i] == manifest[1..][i - 1] && buffers[i] == buffers[1..][i - 1];
            assert r.value[i] == VerifyDeliveries(codec, manifest[1..], buffers[1..]).value[i - 1];
          }
        }
      }
    }
  }

  function New(expected: Option<Id>): Verifier { Verifier(expected, None, false) }

  /** Whenever an End completes a bundle, after any stream of accepted and rejected events, the accepted
      events since the last accepted Begin are the canonical encoding of the bytes it returns. */
  lemma CompletionIsCanonical(codec: Codec, expected: Option<Id>, events: seq<Event>, e: Event)
    requires HandleSpec(codec, RunLog(codec, New(expected), [], events).0, e).1.Completed?
    ensures
      var (v, log) := RunLog(codec, New(expected), [], events);
      var out := HandleSpec(codec, v, e).1.bundle;
      var raws := Buffered(v.bundle.value);
      && log + [e] == CanonicalEvents(codec, out.requestId, out.bundleId, out.replay, raws)
      && |raws| == |out.deliveries|
      && (forall i | 0 <= i < |raws| ::
            && raws[i].id == out.deliveries[i].id
            && raws[i].kind == KindOf(out.deliveries[i].payload)
            && codec.parse(raws[i].bytes) == Some(out.deliveries[i].payload))
      && out.manifestSha256 == codec.hash(codec.manifestBytes(ManifestFor(codec, raws)))
      && (expected.Some? ==> out.requestId == expected.value)
  {
    RunLogKeeps(codec, New(expected), [], events);
    RunLogExpected(codec, New(expected), [], events);
    var (v, log) := RunLog(codec, New(expected), [], events);
    var b := v.bundle.value;
    VerifyDeliveriesExact(codec, b.manifest, b.buffers);
    forall i | 0 <= i < |b.manifest| ensures EntryFor(codec, Buffered(b)[i]) == b.manifest[i] {
      assert EntryLegal(b.manifest[i]);
      assert b.buffers[i].digested == b.buffers[i].bytes;
    }
    assert ManifestFor(codec, Buffered(b)) == b.manifest;
  }

  lemma {:induction false} RunLogExpected(codec: Codec, v: Verifier, log: seq<Event>, events: seq<Event>)
    requires WellShaped(v)
    ensures RunLog(codec, v, log, events).0.expected == v.expected
    decreases |events|
  {
    if events != [] {
      var (v', outcome) := HandleSpec(codec, v, events[0]);
      var log' := if v'.bundle.None? then [] else if outcome.Rejected? then log
                  else if events[0].FinalBegin? then [events[0]] else log + [events[0]];
      RunLogExpected(codec, v', log', events[1..]);
    }
  }

  // ---------------------------------------------------------------- canonical streams are accepted

  function AcceptAll(codec: Codec, v: Verifier, events: seq<Event>): (r: Option<Verifier>)
    requires WellShaped(v)
    ensures r.Some? ==> WellShaped(r.value)
    decreases |events|
  {
    if events == [] then Some(v)
    else
      var (v', outcome) := HandleSpec(codec, v, events[0]);
      if outcome.Accepted? then AcceptAll(codec, v', events[1..]) else None
  }

  lemma {:induction false} AcceptAllAppend(codec: Codec, v: Verifier, first: seq<Event>, second: seq<Event>)
    requires WellShaped(v) && AcceptAll(codec, v, first).Some?
    ensures AcceptAll(codec, v, first + second) == AcceptAll(codec, AcceptAll(codec, v, first).value, second)
    decreases |first|
  {
    if first == [] {
      assert first + second == second;
    } else {
      assert (first + second)[1..] == first[1..] + second;
      AcceptAllAppend(codec, HandleSpec(codec, v, first[0]).0, first[1..], second);
    }
  }

  lemma AcceptOneMore(codec: Codec, v: Verifier, events: seq<Event>, m: Verifier, e: Event, v': Verifier)
    requires WellShaped(v) && WellShaped(m)
    requires AcceptAll(codec, v, events) == Some(m) && HandleSpec(codec, m, e) == (v', Accepted)
    ensures AcceptAll(codec, v, events + [e]) == Some(v')
  {
    AcceptAllAppend(codec, v, events, [e]);
  }

  // What a sender must respect: the limits, distinct deliveries, and payloads that read back.
  ghost predicate BundleLegal(codec: Codec, deliveries: seq<Delivery>) {
    var raws := RawsOf(codec, deliveries);
    && 1 <= |deliveries| <= MAX_DELIVERIES
    && (forall i | 0 <= i < |deliveries| ::
          && codec.parse(codec.serialize(deliveries[i].payload)) == Some(deliveries[i].payload)
          && codec.serialize(deliveries[i].payload) != [])
    && (forall i, j | 0 <= i < j < |deliveries| :: deliveries[i].id != deliveries[j].id)
    && SumDecoded(ManifestFor(codec, raws)) <= MAX_BUNDLE
    && |codec.manifestBytes(ManifestFor(codec, raws))| <= MAX_MANIFEST
  }

  // The pending bundle after the deliveries before i and the first `done` bytes of delivery i.
  function Progress(requestId: Id, bundleId: Id, replay: bool, manifest: seq<Entry>, raws: seq<Raw>, i: nat, done: Bytes)
    : Pending
    requires |manifest| == |raws|
  {
    var buffers := seq(|raws|, j requires 0 <= j < |raws| =>
      if j < i then Buffer(raws[j].bytes, raws[j].bytes) else if j == i then Buffer(done, done) else Buffer([], []));
    Pending(requestId, bundleId, replay, manifest, buffers, i, |done| / MAX_CHUNK, SumBuffers(buffers))
  }

  ghost predicate Sendable(codec: Codec, v: Verifier, requestId: Id, raws: seq<Raw>) {
    && !ForeignRequest(v, requestId) && !v.finalSeen
    && ManifestLegal(codec, ManifestFor(codec, raws))
  }

  function ProgressOf(codec: Codec, requestId: Id, bundleId: Id, replay: bool, raws: seq<Raw>, i: nat, done: Bytes): Pending {
    Progress(requestId, bundleId, replay, ManifestFor(codec, raws), raws, i, done)
  }

  // The state after the first k chunks of delivery i.
  function AfterChunks(codec: Codec, requestId: Id, bundleId: Id, replay: bool, raws: seq<Raw>, i: nat, k: nat): Pending
    requires i < |raws| && k <= DivCeil(|raws[i].bytes|, MAX_CHUNK)
  {
    if k == DivCeil(|raws[i].bytes|, MAX_CHUNK) then ProgressOf(codec, requestId, bundleId, replay, raws, i + 1, [])
    else ProgressOf(codec, requestId, bundleId, replay, raws, i, raws[i].bytes[..k * MAX_CHUNK])
  }

  // One more chunk of delivery i moves on inside it, or to the next delivery.
  lemma ChunkAdvances(codec: Codec, requestId: Id, bundleId: Id, replay: bool, raws: seq<Raw>, i: nat, k: nat)
    requires i < |raws| && EntryLegal(EntryFor(codec, raws[i])) && k < DivCeil(|raws[i].bytes|, MAX_CHUNK)
    ensures k * MAX_CHUNK < |raws[i].bytes|
    ensures Advanced(AfterChunks(codec, requestId, bundleId, replay, raws, i, k), ChunkAt(raws[i].bytes, k))
         == AfterChunks(codec, requestId, bundleId, replay, raws, i, k + 1)
  {
    var bytes := raws[i].bytes;
    ChunkPartition(|bytes|, k);
    var done, piece := bytes[..k * MAX_CHUNK], ChunkAt(bytes, k);
    var b := AfterChunks(codec, requestId, bundleId, replay, raws, i, k);
    var b' := AfterChunks(codec, requestId, bundleId, replay, raws, i, k + 1);
    SumBuffersUpdate(b.buffers, i, Buffer(done + piece, done + piece));
    if k + 1 == DivCeil(|bytes|, MAX_CHUNK) {
      assert done + piece == bytes;
    } else {
      assert done + piece == bytes[..(k + 1) * MAX_CHUNK];
    }
    assert Advanced(b, piece).buffers == b'.buffers;
  }

  lemma TextIsAccepted(v: Verifier, b: Pending, entry: Entry, text: Bytes, piece: Bytes)
    requires v.bundle == Some(b) && !ForeignRequest(v, b.requestId) && |b.buffers| == |b.manifest|
    requires b.current < |b.manifest| && b.manifest[b.current] == entry
    requires Min(entry.decodedBytes - b.nextChunk * MAX_CHUNK, MAX_CHUNK) == |piece|
    requires (|piece| + 2) / 3 * 4 == |text| && Base64.Decode(text) == Some(piece)
    ensures
      ChunkSpec(v, FinalChunk(b.requestId, b.bundleId, entry.deliveryId, b.nextChunk, text))
      == Ok(v.(bundle := Some(Advanced(b, piece))))
  {}

  lemma PieceIsAccepted(codec: Codec, v: Verifier, b: Pending, piece: Bytes)
    requires !v.finalSeen && v.bundle == Some(b) && !ForeignRequest(v, b.requestId) && |b.buffers| == |b.manifest|
    requires b.current < |b.manifest|
    requires |piece| == Min(b.manifest[b.current].decodedBytes - b.nextChunk * MAX_CHUNK, MAX_CHUNK)
    ensures
      HandleSpec(codec, v, FinalChunk(b.requestId, b.bundleId, b.manifest[b.current].deliveryId, b.nextChunk,
                                      Base64.Encode(piece)))
      == (v.(bundle := Some(Advanced(b, piece))), Accepted)
  {
    Base64.DecodeUndoesEncode(piece);
    TextIsAccepted(v, b, b.manifest[b.current], Base64.Encode(piece), piece);
  }

  lemma WholeChunks(k: nat)
    ensures (k * MAX_CHUNK) / MAX_CHUNK == k
  {}

  lemma ChunkIsAccepted(codec: Codec, v: Verifier, requestId: Id, bundleId: Id, replay: bool, raws: seq<Raw>, i: nat, k: nat)
    requires Sendable(codec, v, requestId, raws)
    requires i < |raws| && EntryLegal(EntryFor(codec, raws[i])) && k < DivCeil(|raws[i].bytes|, MAX_CHUNK)
    ensures k * MAX_CHUNK < |raws[i].bytes|
    ensures
      HandleSpec(codec, v.(bundle := Some(AfterChunks(codec, requestId, bundleId, replay, raws, i, k))),
                 FinalChunk(requestId, bundleId, raws[i].id, k, Base64.Encode(ChunkAt(raws[i].bytes, k))))
      == (v.(bundle := Some(AfterChunks(codec, requestId, bundleId, replay, raws, i, k + 1))), Accepted)
  {
    var b := AfterChunks(codec, requestId, bundleId, replay, raws, i, k);
    ChunkAdvances(codec, requestId, bundleId, replay, raws, i, k);
    WholeChunks(k);
    assert b.nextChunk == k && b.manifest[i] == EntryFor(codec, raws[i]);
    PieceIsAccepted(codec, v.(bundle := Some(b)), b, ChunkAt(raws[i].bytes, k));
  }

  lemma {:induction false} ChunksAccepted(
    codec: Codec, v: Verifier, requestId: Id, bundleId: Id, replay: bool, raws: seq<Raw>, i: nat, k: nat)
    requires Sendable(codec, v, requestId, raws)
    requires i < |raws| && EntryLegal(EntryFor(codec, raws[i])) && k <= DivCeil(|raws[i].bytes|, MAX_CHUNK)
    ensures
      AcceptAll(codec, v.(bundle := Some(ProgressOf(codec, requestId, bundleId, replay, raws, i, []))),
                ChunkEvents(requestId, bundleId, raws[i].id, raws[i].bytes)[..k])
      == Some(v.(bundle := Some(AfterChunks(codec, requestId, bundleId, replay, raws, i, k))))
  {
    var events := ChunkEvents(requestId, bundleId, raws[i].id, raws[i].bytes);
    if k == 0 {
      assert raws[i].bytes[..0] == [];
    } else {
      var start := v.(bundle := Some(ProgressOf(codec, requestId, bundleId, replay, raws, i, [])));
      var before := v.(bundle := Some(AfterChunks(codec, requestId, bundleId, replay, raws, i, k - 1)));
      var after := v.(bundle := Some(AfterChunks(codec, requestId, bundleId, replay, raws, i, k)));
      ChunksAccepted(codec, v, requestId, bundleId, replay, raws, i, k - 1);
      ChunkEventIsAccepted(codec, v, requestId, bundleId, replay, raws, i, k - 1);
      OneMoreAccepted(codec, start, events, k, before, after);
    }
  }

  lemma ChunkEventIsAccepted(codec: Codec, v: Verifier, requestId: Id, bundleId: Id, replay: bool, raws: seq<Raw>,
                             i: nat, k: nat)
    requires Sendable(codec, v, requestId, raws)
    requires i < |raws| && EntryLegal(EntryFor(codec, raws[i])) && k < DivCeil(|raws[i].bytes|, MAX_CHUNK)
    ensures
      HandleSpec(codec, v.(bundle := Some(AfterChunks(codec, requestId, bundleId, replay, raws, i, k))),
                 ChunkEvents(requestId, bundleId, raws[i].id, raws[i].bytes)[k])
      == (v.(bundle := Some(AfterChunks(codec, requestId, bundleId, replay, raws, i, k + 1))), Accepted)
  {
    ChunkIsAccepted(codec, v, requestId, bundleId, replay, raws, i, k);
    assert ChunkEvents(requestId, bundleId, raws[i].id, raws[i].bytes)[k]
        == FinalChunk(requestId, bundleId, raws[i].id, k, Base64.Encode(ChunkAt(raws[i].bytes, k)));
  }

  lemma OneMoreAccepted(codec: Codec, start: Verifier, events: seq<Event>, k: nat, before: Verifier, after: Verifier)
    requires 0 < k <= |events| && WellShaped(start) && WellShaped(before)
    requires AcceptAll(codec, start, events[..k - 1]) == Some(before)
    requires HandleSpec(codec, before, events[k - 1]) == (after, Accepted)
    ensures AcceptAll(codec, start, events[..k]) == Some(after)
  {
    AcceptOneMore(codec, start, events[..k - 1], before, events[k - 1], after);
    assert events[..k] == events[..k - 1] + [events[k - 1]];
  }

  lemma {:induction false} DeliveriesAccepted(
    codec: Codec, v: Verifier, requestId: Id, bundleId: Id, replay: bool, raws: seq<Raw>, i: nat)
    requires Sendable(codec, v, requestId, raws) && i <= |raws|
    ensures
      var manifest := ManifestFor(codec, raws);
      AcceptAll(codec, v.(bundle := Some(Progress(requestId, bundleId, replay, manifest, raws, i, []))),
                DeliveryEvents(requestId, bundleId, raws[i..]))
      == Some(v.(bundle := Some(Progress(requestId, bundleId, replay, manifest, raws, |raws|, []))))
    decreases |raws| - i
  {
    if i < |raws| {
      var manifest := ManifestFor(codec, raws);
      var start := v.(bundle := Some(Progress(requestId, bundleId, replay, manifest, raws, i, [])));
      assert EntryLegal(manifest[i]);
      var events := ChunkEvents(requestId, bundleId, raws[i].id, raws[i].bytes);
      ChunksAccepted(codec, v, requestId, bundleId, replay, raws, i, |events|);
      assert events[..|events|] == events;
      assert raws[i..][1..] == raws[i + 1..];
      DeliveriesAccepted(codec, v, requestId, bundleId, replay, raws, i + 1);
      AcceptAllAppend(codec, start, events,
                      DeliveryEvents(requestId, bundleId, raws[i + 1..]));
    }
  }

  lemma {:induction false} LegalDeliveriesVerify(codec: Codec, deliveries: seq<Delivery>, buffers: seq<Buffer>)
    requires |buffers| == |deliveries|
    requires forall i | 0 <= i < |deliveries| ::
               && codec.parse(codec.serialize(deliveries[i].payload)) == Some(deliveries[i].payload)
               && buffers[i] == Buffer(codec.serialize(deliveries[i].payload), codec.serialize(deliveries[i].payload))
    ensures VerifyDeliveries(codec, ManifestFor(codec, RawsOf(codec, deliveries)), buffers) == Ok(deliveries)
    decreases |deliveries|
  {
    if deliveries != [] {
      LegalDeliveriesVerify(codec, deliveries[1..], buffers[1..]);
      assert ManifestFor(codec, RawsOf(codec, deliveries))[1..] == ManifestFor(codec, RawsOf(codec, deliveries[1..]));
      assert deliveries == [Delivery(deliveries[0].id, deliveries[0].payload)] + deliveries[1..];
    }
  }

  lemma LegalManifestFor(codec: Codec, deliveries: seq<Delivery>)
    requires BundleLegal(codec, deliveries)
    ensures ManifestLegal(codec, ManifestFor(codec, RawsOf(codec, deliveries)))
  {
    var manifest := ManifestFor(codec, RawsOf(codec, deliveries));
    forall i | 0 <= i < |manifest| ensures EntryLegal(manifest[i]) {}
  }

  /** Every canonical encoding of a legal payload list is accepted event by event, and its End returns
      that list. */
  lemma EncodingIsAccepted(codec: Codec, v: Verifier, requestId: Id, bundleId: Id, replay: bool, deliveries: seq<Delivery>)
    requires v.bundle.None? && !v.finalSeen && !ForeignRequest(v, requestId)
    requires BundleLegal(codec, deliveries)
    ensures
      var events := CanonicalEvents(codec, requestId, bundleId, replay, RawsOf(codec, deliveries));
      var n := |events| - 1;
      var sha := codec.hash(codec.manifestBytes(ManifestFor(codec, RawsOf(codec, deliveries))));
      && AcceptAll(codec, v, events[..n]).Some?
      && HandleSpec(codec, AcceptAll(codec, v, events[..n]).value, events[n])
         == (v.(finalSeen := true), Completed(VerifiedBundle(requestId, bundleId, replay, sha, deliveries)))
  {
    var raws := RawsOf(codec, deliveries);
    var manifest := ManifestFor(codec, raws);
    var begin := FinalBegin(requestId, bundleId, replay, manifest);
    var events := CanonicalEvents(codec, requestId, bundleId, replay, raws);
    var chunks := DeliveryEvents(requestId, bundleId, raws);
    LegalManifestFor(codec, deliveries);
    EntriesRejectionExact(manifest, {}, 0);
    var started := Progress(requestId, bundleId, replay, manifest, raws, 0, []);
    assert started.buffers == EmptyBuffers(|raws|);
    EmptyBuffersSum(|raws|);
    assert AcceptAll(codec, v, [begin]) == Some(v.(bundle := Some(started)));
    assert raws[0..] == raws;
    DeliveriesAccepted(codec, v, requestId, bundleId, replay, raws, 0);
    AcceptAllAppend(codec, v, [begin], chunks);
    assert events[..|events| - 1] == [begin] + chunks;
    var done := Progress(requestId, bundleId, replay, manifest, raws, |raws|, []);
    SumBuffersBelow(manifest, done.buffers);
    LegalDeliveriesVerify(codec, deliveries, done.buffers);
  }

  // ---------------------------------------------------------------- progress and refusals

  function ChunksFrom(manifest: seq<Entry>, i: nat): nat
    requires i <= |manifest|
    decreases |manifest| - i
  {
    if i == |manifest| then 0 else manifest[i].chunkCount + ChunksFrom(manifest, i + 1)
  }

  // Chunks still to come.
  function Remaining(b: Pending): int
    requires b.current <= |b.manifest|
  {
    ChunksFrom(b.manifest, b.current) - b.nextChunk
  }

  /** A refused chunk changes nothing; an accepted one leaves exactly one chunk less to come. */
  lemma ChunkProgress(codec: Codec, v: Verifier, e: Event)
    requires Inv(codec, v) && e.FinalChunk?
    ensures var (v', outcome) := HandleSpec(codec, v, e);
            && (outcome.Rejected? ==> v' == v)
            && (outcome.Accepted? ==> Remaining(v'.bundle.value) == Remaining(v.bundle.value) - 1)
            && !outcome.Completed?
  {
    if HandleSpec(codec, v, e).1.Accepted? {
      var b := v.bundle.value;
      assert EntryLegal(b.manifest[b.current]);
    }
  }

  /** A begin is accepted exactly when no bundle is in progress or complete, it is for the expected request and its
      manifest is legal; then nothing is buffered yet. A refused one leaves everything as it is, the bundle in progress
      too. */
  lemma BeginAcceptedExactly(codec: Codec, v: Verifier, e: Event)
    requires WellShaped(v) && e.FinalBegin?
    ensures var (v', outcome) := HandleSpec(codec, v, e);
      && (outcome == Accepted <==>
            && v.bundle.None? && !v.finalSeen
            && (v.expected.Some? ==> e.requestId == v.expected.value) && ManifestLegal(codec, e.manifest))
      && (outcome != Accepted ==> outcome.Rejected? && v' == v)
      && (outcome == Accepted ==>
            && v' == v.(bundle := v'.bundle) && v'.bundle.Some?
            && var b := v'.bundle.value;
            && b.requestId == e.requestId && b.bundleId == e.bundleId && b.replay == e.replay && b.manifest == e.manifest
            && b.current == b.nextChunk == b.buffered == 0
            && forall i | 0 <= i < |b.buffers| :: b.buffers[i] == Buffer([], []))
  {
    EntriesRejectionExact(e.manifest, {}, 0);
  }

  /** What a legal manifest entry is, in the words of the protocol. */
  lemma LegalEntries(e: Entry)
    ensures EntryLegal(e) <==>
      && (e.kind == "text" || e.kind == "file" || e.kind == "terminal_error")
      && e.decodedBytes > 0 && (e.chunkCount - 1) * 196_608 < e.decodedBytes <= e.chunkCount * 196_608
  {}

  /** A chunk is accepted exactly when the bundle of its request and its identifiers is in progress, chunks are still
      to come, it is the next one of the current delivery, and its text is the Base64 text of as many bytes as remain
      of the delivery, at most one full chunk; those bytes go behind the ones of its delivery and nowhere else. */
  lemma ChunkAcceptedExactly(codec: Codec, v: Verifier, e: Event)
    requires Inv(codec, v) && e.FinalChunk?
    ensures var (v', outcome) := HandleSpec(codec, v, e);
      && (outcome == Accepted <==> v.bundle.Some? && exists piece :: IsNextChunk(v.bundle.value, e, piece))
      && forall piece | v.bundle.Some? && IsNextChunk(v.bundle.value, e, piece) ::
           && v' == v.(bundle := v'.bundle) && v'.bundle.Some?
           && v'.bundle.value.buffers == AppendedAt(v.bundle.value.buffers, v.bundle.value.current, piece)
           && v'.bundle.value.manifest == v.bundle.value.manifest
  {
    if v.bundle.Some? {
      var b := v.bundle.value;
      forall piece | IsNextChunk(b, e, piece)
        ensures HandleSpec(codec, v, e) == (v.(bundle := Some(Advanced(b, piece))), Accepted)
      {
        NextChunkIsAccepted(codec, v, e, piece);
      }
      if HandleSpec(codec, v, e).1 == Accepted { AcceptedIsNextChunk(codec, v, e); }
    }
  }

  ghost predicate IsNextChunk(b: Pending, e: Event, piece: Bytes)
    requires e.FinalChunk?
  {
    && e.requestId == b.requestId && e.bundleId == b.bundleId
    && b.current < |b.manifest| && b.manifest[b.current].deliveryId == e.deliveryId
    && b.current < |b.buffers| && e.chunkIndex == b.nextChunk && e.base64 == Base64.Encode(piece)
    && |piece| == Min(b.manifest[b.current].decodedBytes - |b.buffers[b.current].bytes|, 196_608)
  }

  function AppendedAt(buffers: seq<Buffer>, i: nat, piece: Bytes): seq<Buffer>
    requires i < |buffers|
  {
    buffers[i := Buffer(buffers[i].bytes + piece, buffers[i].digested + piece)]
  }

  lemma NextChunkIsAccepted(codec: Codec, v: Verifier, e: Event, piece: Bytes)
    requires Inv(codec, v) && v.bundle.Some? && e.FinalChunk? && IsNextChunk(v.bundle.value, e, piece)
    ensures HandleSpec(codec, v, e) == (v.(bundle := Some(Advanced(v.bundle.value, piece))), Accepted)
  {
    PieceIsAccepted(codec, v, v.bundle.value, piece);
  }

  lemma AcceptedIsNextChunk(codec: Codec, v: Verifier, e: Event)
    requires Inv(codec, v) && e.FinalChunk? && HandleSpec(codec, v, e).1 == Accepted
    ensures exists piece :: IsNextChunk(v.bundle.value, e, piece)
  {
    Base64.EncodeUndoesDecode(e.base64);
    assert IsNextChunk(v.bundle.value, e, Base64.Decode(e.base64).value);
  }

  // What every delivery of a bundle must pass at its end.
  ghost predicate DeliveryPasses(codec: Codec, entry: Entry, bytes: Bytes) {
    && codec.hash(bytes) == entry.sha256 && codec.parse(bytes).Some?
    && match codec.parse(bytes).value
       case Text(_) => entry.kind == "text"
       case File(_) => entry.kind == "file"
       case TerminalError(_, _) => entry.kind == "terminal_error"
  }

  /** An end completes exactly when the bundle it names is in progress with that manifest, no chunk is left to come and
      every delivery has its digest and is a payload of its kind. A refused end for the expected request leaves no
      bundle, whatever is wrong with it; for another request, or after the completion, it changes nothing. */
  lemma EndCompletesExactly(codec: Codec, v: Verifier, e: Event)
    requires Inv(codec, v) && e.FinalEnd?
    ensures var (v', outcome) := HandleSpec(codec, v, e);
      && (outcome.Completed? <==> v.bundle.Some? && EndMatches(codec, v.bundle.value, e))
      && (outcome.Completed? || outcome.Rejected?)
      && v'.expected == v.expected && v'.finalSeen == (v.finalSeen || outcome.Completed?)
      && v'.bundle == if v.finalSeen || ForeignRequest(v, e.requestId) then v.bundle else None
  {
    if v.bundle.Some? {
      var b := v.bundle.value;
      VerifyDeliveriesExact(codec, b.manifest, b.buffers);
      assert forall i | 0 <= i < |b.manifest| :: |b.buffers[i].bytes| == FilledTo(b, i);
      if EndMatches(codec, b, e) {
        FullBuffersVerify(codec, b.manifest, b.buffers);
      }
      if b.current == |b.manifest| { SumBuffersBelow(b.manifest, b.buffers); } else { assert EntryLegal(b.manifest[b.current]); }
    }
  }

  ghost predicate EndMatches(codec: Codec, b: Pending, e: Event)
    requires e.FinalEnd?
  {
    && e.requestId == b.requestId && e.bundleId == b.bundleId
    && e.manifestSha256 == codec.hash(codec.manifestBytes(b.manifest))
    && b.current <= |b.manifest| && Remaining(b) == 0 && |b.buffers| == |b.manifest|
    && forall i | 0 <= i < |b.manifest| :: DeliveryPasses(codec, b.manifest[i], b.buffers[i].bytes)
  }

  lemma {:induction false} FullBuffersVerify(codec: Codec, manifest: seq<Entry>, buffers: seq<Buffer>)
    requires |manifest| == |buffers|
    requires forall i | 0 <= i < |manifest| ::
               && |buffers[i].bytes| == manifest[i].decodedBytes && buffers[i].digested == buffers[i].bytes
               && DeliveryPasses(codec, manifest[i], buffers[i].bytes)
    ensures VerifyDeliveries(codec, manifest, buffers).Ok?
    decreases |manifest|
  {
    if manifest != [] {
      assert DeliveryPasses(codec, manifest[0], buffers[0].bytes);
      FullBuffersVerify(codec, manifest[1..], buffers[1..]);
    }
  }

  /** A completion is the last thing that happens: in every continuation every event is refused and nothing changes. */
  lemma CompletionIsLast(codec: Codec, v: Verifier, e: Event, more: seq<Event>, next: Event)
    requires WellShaped(v) && HandleSpec(codec, v, e).1.Completed?
    ensures var v' := HandleSpec(codec, v, e).0;
      && RunLog(codec, v', [], more).0 == v'
      && HandleSpec(codec, v', next).0 == v' && HandleSpec(codec, v', next).1.Rejected?
  {
    NothingAfterFinal(codec, HandleSpec(codec, v, e).0, more);
  }

  lemma {:induction false} NothingAfterFinal(codec: Codec, v: Verifier, events: seq<Event>)
    requires WellShaped(v) && v.finalSeen && v.bundle.None?
    ensures RunLog(codec, v, [], events).0 == v
    decreases |events|
  {
    if events != [] { NothingAfterFinal(codec, v, events[1..]); }
  }

  /** The end finds every chunk there exactly when none is left to come, and then its two size checks
      cannot fail: only digests and payloads can still be wrong. */
  lemma EndChecks(codec: Codec, v: Verifier, e: Event)
    requires Inv(codec, v) && v.bundle.Some? && e.FinalEnd?
    requires e.requestId == v.bundle.value.requestId && e.bundleId == v.bundle.value.bundleId
    requires e.manifestSha256 == codec.hash(codec.manifestBytes(v.bundle.value.manifest))
    ensures Remaining(v.bundle.value) >= 0
    ensures HandleSpec(codec, v, e).1 == Rejected(EndedEarly) <==> Remaining(v.bundle.value) > 0
    ensures HandleSpec(codec, v, e).1 !in {Rejected(TotalMismatch), Rejected(DeliverySize)}
    ensures HandleSpec(codec, v, e).0.bundle.None?
  {
    var b := v.bundle.value;
    if b.current == |b.manifest| {
      assert forall i | 0 <= i < |b.manifest| :: |b.buffers[i].bytes| == FilledTo(b, i);
      SumBuffersBelow(b.manifest, b.buffers);
      FullBuffersPassSize(codec, b.manifest, b.buffers);
    } else {
      assert EntryLegal(b.manifest[b.current]);
    }
  }

  lemma {:induction false} FullBuffersPassSize(codec: Codec, manifest: seq<Entry>, buffers: seq<Buffer>)
    requires |manifest| == |buffers|
    requires forall i | 0 <= i < |manifest| :: |buffers[i].bytes| == manifest[i].decodedBytes
    ensures VerifyDeliveries(codec, manifest, buffers) !in
              {Err(DeliverySize), Err(TotalMismatch), Err(EndedEarly)}
    decreases |manifest|
  {
    if manifest != [] { FullBuffersPassSize(codec, manifest[1..], buffers[1..]); }
  }

  /** The buffer accounting of every reachable verifier: full before the cursor, empty after it, exactly
      next_chunk full chunks at it, so the offset of the next chunk lies inside its delivery. */
  lemma ReachableAccounting(codec: Codec, expected: Option<Id>, events: seq<Event>)
    requires RunLog(codec, New(expected), [], events).0.bundle.Some?
    ensures
      var b := RunLog(codec, New(expected), [], events).0.bundle.value;
      && b.buffered == SumBuffers(b.buffers) <= MAX_BUNDLE
      && |b.buffers| == |b.manifest| && b.current <= |b.manifest|
      && (forall i | 0 <= i < b.current :: |b.buffers[i].bytes| == b.manifest[i].decodedBytes)
      && (forall i | b.current < i < |b.manifest| :: b.buffers[i].bytes == [])
      && (b.current < |b.manifest| ==>
            && |b.buffers[b.current].bytes| == b.nextChunk * MAX_CHUNK
            && b.nextChunk * MAX_CHUNK < b.manifest[b.current].decodedBytes)
  {
    RunLogKeeps(codec, New(expected), [], events);
    var b := RunLog(codec, New(expected), [], events).0.bundle.value;
    forall i | 0 <= i < |b.manifest|
      ensures |b.buffers[i].bytes| == FilledTo(b, i) <= b.manifest[i].decodedBytes
    {
      FilledBelow(codec, b, i);
    }
    SumBuffersBelow(b.manifest, b.buffers);
    if b.current < |b.manifest| {
      assert EntryLegal(b.manifest[b.current]);
      ChunkPartition(b.manifest[b.current].decodedBytes, b.nextChunk);
    }
  }

  // ---------------------------------------------------------------- the verifier itself

  type Usize = n: int | 0 <= n <= USIZE_MAX

  class FinalBundleVerifier {
    const codec: Codec
    const expectedRequest: Option<Id>
    var bundle: Option<Pending>
    var finalSeen: bool

    ghost function State(): Verifier reads this { Verifier(expectedRequest, bundle, finalSeen) }

    ghost predicate Valid() reads this { Inv(codec, State()) }

    constructor (codec: Codec, expected: Option<Id>)
      ensures State() == New(expected) && Valid() && this.codec == codec
    {
      this.codec, expectedRequest, bundle, finalSeen := codec, expected, None, false;
    }

    method Handle(e: Event) returns (outcome: Outcome)
      requires Valid()
      modifies this
      ensures (State(), outcome) == HandleSpec(codec, old(State()), e)
      ensures Valid()
    {
      HandleKeepsInv(codec, State(), e);
      if finalSeen { return Rejected(AfterFinal); }
      match e {
        case FinalBegin(requestId, bundleId, replay, manifest) =>
          var refusal := Begin(requestId, bundleId, replay, manifest);
          outcome := if refusal.None? then Accepted else Rejected(refusal.value);
        case FinalChunk(requestId, bundleId, deliveryId, chunkIndex, base64) =>
          var refusal := Chunk(requestId, bundleId, deliveryId, chunkIndex, base64);
          outcome := if refusal.None? then Accepted else Rejected(refusal.value);
        case FinalEnd(requestId, bundleId, manifestSha256) =>
          outcome := End(requestId, bundleId, manifestSha256);
        case OtherEvent =>
          outcome := Rejected(NotFinalEvent);
      }
    }

    method Begin(requestId: Id, bundleId: Id, replay: bool, manifest: seq<Entry>) returns (refusal: Option<Rejection>)
      requires Valid() && !finalSeen
      modifies this
      ensures
        match BeginSpec(codec, old(State()), FinalBegin(requestId, bundleId, replay, manifest))
        case Ok(v) => State() == v && refusal == None
        case Err(reason) => State() == old(State()) && refusal == Some(reason)
    {
      if expectedRequest.Some? && expectedRequest.value != requestId { return Some(WrongRequest); }
      if bundle.Some? || finalSeen { return Some(SecondBundle); }
      if manifest == [] || |manifest| > MAX_DELIVERIES { return Some(DeliveryCount); }
      if |codec.manifestBytes(manifest)| > MAX_MANIFEST { return Some(ManifestTooBig); }
      var seen: set<Id> := {};
      var total: nat := 0;
      var deliveries: seq<Buffer> := [];
      for i := 0 to |manifest|
        invariant total <= MAX_BUNDLE
        invariant EntriesRejection(manifest[i..], seen, total) == EntriesRejection(manifest, {}, 0)
        invariant deliveries == EmptyBuffers(i)
        invariant State() == old(State())
      {
        var entry := manifest[i];
        assert manifest[i..][1..] == manifest[i + 1..];
        if entry.deliveryId in seen { return Some(DuplicateDelivery); }
        seen := seen + {entry.deliveryId};
        if !KnownKind(entry.kind) { return Some(UnknownKind); }
        if entry.decodedBytes == 0 || entry.chunkCount != DivCeil(entry.decodedBytes, MAX_CHUNK) {
          return Some(ChunkCountMismatch);
        }
        if total + entry.decodedBytes > USIZE_MAX { return Some(SizeOverflow); }
        total := total + entry.decodedBytes;
        if total > MAX_BUNDLE { return Some(BundleTooBig); }
        deliveries := deliveries + [Buffer([], [])];
      }
      bundle := Some(Pending(requestId, bundleId, replay, manifest, deliveries, 0, 0, 0));
      return None;
    }

    /** The offset never overflows nor passes the end of the delivery, and the bundle limit is never
        exceeded here: the contract allows none of those refusals. */
    method Chunk(requestId: Id, bundleId: Id, deliveryId: Id, chunkIndex: nat, base64: Bytes)
      returns (refusal: Option<Rejection>)
      requires Valid() && !finalSeen
      modifies this
      ensures
        match ChunkSpec(old(State()), FinalChunk(requestId, bundleId, deliveryId, chunkIndex, base64))
        case Ok(v) => State() == v && refusal == None
        case Err(reason) => State() == old(State()) && refusal == Some(reason)
    {
      if expectedRequest.Some? && expectedRequest.value != requestId { return Some(WrongRequest); }
      if bundle.None? { return Some(NoBegin); }
      var b := bundle.value;
      if b.requestId != requestId || b.bundleId != bundleId { return Some(WrongIds); }
      if b.current >= |b.manifest| { return Some(ExtraChunk); }
      var entry := b.manifest[b.current];
      if entry.deliveryId != deliveryId { return Some(OutOfOrder); }
      if chunkIndex != b.nextChunk { return Some(NotContiguous); }
      assert entry.decodedBytes <= MAX_BUNDLE && EntryLegal(entry) by { DecodedWithinSum(b.manifest, b.current); }
      ChunkPartition(entry.decodedBytes, chunkIndex);
      if chunkIndex * MAX_CHUNK > USIZE_MAX { return Some(OffsetOverflow); }
      var offset: Usize := chunkIndex * MAX_CHUNK;
      var rest: Usize := entry.decodedBytes - offset;
      var expectedBytes := Min(rest, MAX_CHUNK);
      if |base64| != (expectedBytes + 2) / 3 * 4 { return Some(EncodedSize); }
      var decoded := Base64.Decode(base64);
      if decoded.None? { return Some(BadBase64); }
      refusal := TakePiece(decoded.value, expectedBytes);
    }

    /** Puts a decoded piece into the buffer of the current delivery, and out again if its size is wrong. */
    method TakePiece(piece: Bytes, expectedBytes: Usize) returns (refusal: Option<Rejection>)
      requires Valid() && bundle.Some? && bundle.value.current < |bundle.value.manifest|
      requires var b := bundle.value;
               expectedBytes == Min(b.manifest[b.current].decodedBytes - b.nextChunk * MAX_CHUNK, MAX_CHUNK)
      modifies this`bundle
      ensures refusal == if |piece| == expectedBytes then None else Some(DecodedSize)
      ensures bundle == if |piece| == expectedBytes then Some(Advanced(old(bundle).value, piece)) else old(bundle)
    {
      var b := bundle.value;
      var before := b.buffers[b.current];
      bundle := Some(b.(buffers := b.buffers[b.current := before.(bytes := before.bytes + piece)]));
      if |piece| != expectedBytes {
        bundle := Some(bundle.value.(buffers := bundle.value.buffers[b.current := before]));
        assert bundle.value.buffers == b.buffers;
        return Some(DecodedSize);
      }
      AdvancedKeeps(codec, b, piece);
      bundle := Some(bundle.value.(buffered := bundle.value.buffered + |piece|));
      if bundle.value.buffered > MAX_BUNDLE { return Some(BufferedTooBig); }
      bundle := Some(bundle.value.(
        buffers := bundle.value.buffers[b.current := Buffer(before.bytes + piece, before.digested + piece)],
        nextChunk := bundle.value.nextChunk + 1));
      if bundle.value.nextChunk == b.manifest[b.current].chunkCount {
        bundle := Some(bundle.value.(current := bundle.value.current + 1, nextChunk := 0));
      }
      assert bundle.value.buffers == Advanced(b, piece).buffers;
      return None;
    }

    method End(requestId: Id, bundleId: Id, manifestSha256: string) returns (outcome: Outcome)
      requires Valid() && !finalSeen
      modifies this
      ensures (State(), outcome) == EndSpec(codec, old(State()), FinalEnd(requestId, bundleId, manifestSha256))
    {
      if expectedRequest.Some? && expectedRequest.value != requestId { return Rejected(WrongRequest); }
      if bundle.None? { return Rejected(NoBegin); }
      var b := bundle.value;
      bundle := None;
      if b.requestId != requestId || b.bundleId != bundleId { return Rejected(WrongIds); }
      if codec.hash(codec.manifestBytes(b.manifest)) != manifestSha256 { return Rejected(ManifestHash); }
      if b.current != |b.manifest| || b.nextChunk != 0 { return Rejected(EndedEarly); }
      if b.buffered != SumDecoded(b.manifest) { return Rejected(TotalMismatch); }
      var verified: seq<Delivery> := [];
      for i := 0 to |b.manifest|
        invariant |verified| == i
        invariant bundle.None? && !finalSeen
        invariant VerifyDeliveries(codec, b.manifest, b.buffers)
               == After(verified, VerifyDeliveries(codec, b.manifest[i..], b.buffers[i..]))
      {
        var entry, buffer := b.manifest[i], b.buffers[i];
        assert b.manifest[i..][1..] == b.manifest[i + 1..] && b.buffers[i..][1..] == b.buffers[i + 1..];
        if |buffer.bytes| != entry.decodedBytes { return Rejected(DeliverySize); }
        if codec.hash(buffer.digested) != entry.sha256 { return Rejected(DeliveryHash); }
        var payload := codec.parse(buffer.bytes);
        if payload.None? { return Rejected(BadPayload); }
        if KindOf(payload.value) != entry.kind { return Rejected(KindMismatch); }
        ghost var rest := VerifyDeliveries(codec, b.manifest[i + 1..], b.buffers[i + 1..]);
        AfterOne(verified, Delivery(entry.deliveryId, payload.value), rest);
        verified := verified + [Delivery(entry.deliveryId, payload.value)];
      }
      finalSeen := true;
      return Completed(VerifiedBundle(requestId, bundleId, b.replay, manifestSha256, verified));
    }
  }

  // The result of the remaining deliveries, put behind the ones already verified.
  function After(verified: seq<Delivery>, r: Result<seq<Delivery>, Rejection>): (s: Result<seq<Delivery>, Rejection>)
    ensures verified == [] ==> s == r
    ensures r == Ok([]) ==> s == Ok(verified)
  {
    if r.Err? then r
    else
      assert verified == [] ==> verified + r.value == r.value;
      assert r.value == [] ==> verified + r.value == verified;
      Ok(verified + r.value)
  }

  lemma AfterOne(verified: seq<Delivery>, d: Delivery, r: Result<seq<Delivery>, Rejection>)
    ensures After(verified + [d], r) == After(verified, if r.Err? then r else Ok([d] + r.value))
  {
    if r.Ok? { assert verified + [d] + r.value == verified + ([d] + r.value); }
  }

  lemma {:induction false} DecodedWithinSum(manifest: seq<Entry>, i: nat)
    requires i < |manifest|
    ensures manifest[i].decodedBytes <= SumDecoded(manifest)
    decreases |manifest|
  {
    if i > 0 { DecodedWithinSum(manifest[1..], i - 1); }
  }
}
