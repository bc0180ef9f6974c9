/**
  Checkpoint receipts: normalising a payload into a receipt, validating a receipt, and
  appending receipts to a directory as a hash chain.

  The digest is whatever `hash` is; nothing here depends on which function that is,
  except where injectivity is asked for.
 */
module CheckpointReceipt {
  import opened Wrappers
  import opened PosixPath
  import opened StringOrder
  import opened CheckpointNames

  datatype ArtifactStatus = Observed | Missing | Partial | Validated

  /** An artifact row of a payload; `status` is absent when it is not one of the four. */
  datatype RawArtifact = RawArtifact(path: string, bytes: int, digest: Option<string>, status: Option<ArtifactStatus>)

  /** A validator state: a recognised status, and whether some key in it looks secret. */
  datatype ValidatorState = ValidatorState(recognised: bool, sensitive: bool, content: string)

  datatype Payload = Payload(
    sensitive: bool,
    runId: string,
    jobId: string,
    attemptId: string,
    sequence: Option<int>,
    previousDigest: Option<string>,
    packetDigest: string,
    capsuleDigest: string,
    progressDigest: string,
    artifacts: seq<RawArtifact>,
    observedAt: string,
    validator: ValidatorState,
    ownerDigest: Option<string>,
    fenceToken: Option<int>,
    checkpointId: Option<string>)

  /** Everything in a receipt but its identifier and its own digest. */
  datatype Content = Content(
    runId: string,
    jobId: string,
    attemptId: string,
    sequence: int,
    previousDigest: Option<string>,
    packetDigest: string,
    capsuleDigest: string,
    progressDigest: string,
    artifacts: seq<RawArtifact>,
    observedAt: string,
    validator: ValidatorState,
    ownerDigest: Option<string>,
    fenceToken: Option<int>)

  datatype Body = Body(content: Content, checkpointId: string)

  datatype Receipt = Receipt(body: Body, stateDigest: string)

  /** The digest functions and the timestamp parser, taken as given. */
  datatype Codec = Codec(hash: Body -> string, name: Content -> string, isTimestamp: string -> bool)

  // ----- field checks

  predicate IsHex(c: char) { '0' <= c <= '9' || 'a' <= c <= 'f' }

  predicate IsDigest(s: string) {
    |s| == 71 && s[..7] == "sha256:" && forall k :: 7 <= k < |s| ==> IsHex(s[k])
  }

  predicate IsIdChar(c: char) {
    'a' <= c <= 'z' || '0' <= c <= '9' || c == '.' || c == '_' || c == ':' || c == '-'
  }

  predicate IsId(s: string) {
    && 1 <= |s| <= 128
    && ('a' <= s[0] <= 'z' || '0' <= s[0] <= '9')
    && forall k :: 0 <= k < |s| ==> IsIdChar(s[k])
  }

  /** SHA-256 renderings are digests, and a generated checkpoint name is an identifier. */
  ghost predicate Faithful(codec: Codec) {
    (forall b :: IsDigest(codec.hash(b))) && (forall c :: IsId(codec.name(c)))
  }

  // ----- artifact paths

  function Slashes(s: string): (r: string)
    ensures |r| == |s|
    ensures forall k :: 0 <= k < |s| ==> r[k] == if s[k] == '\\' then '/' else s[k]
  {
    if s == "" then "" else [if s[0] == '\\' then '/' else s[0]] + Slashes(s[1..])
  }

  /** The normalised form of a relative path that does not climb out of its root. */
  function RelativePath(value: string): Option<string> {
    if value == "" || value[0] == '/' || value[0] == '\\' then None
    else
      var parts := Parts(Slashes(value));
      if ".." in parts then None else Some(Join(parts))
  }

  /** The path names something: it has a component besides "." and empty pieces. */
  predicate HasComponent(value: string) { Parts(Slashes(value)) != [] }

  function NormalArtifact(a: RawArtifact): Option<RawArtifact> {
    var path := RelativePath(a.path);
    if path.None? || a.bytes < 0 || (a.digest.Some? && !IsDigest(a.digest.value)) || a.status.None? then None
    else Some(a.(path := path.value))
  }

  function NormalManifest(items: seq<RawArtifact>): Option<seq<RawArtifact>> {
    if items == [] then Some([])
    else
      var first, rest := NormalArtifact(items[0]), NormalManifest(items[1..]);
      if first.None? || rest.None? then None else Some([first.value] + rest.value)
  }

  // ----- building and validating receipts

  function NextSequence(payload: Payload, previous: Option<Receipt>): int {
    if payload.sequence.Some? then payload.sequence.value
    else if previous.Some? then previous.value.body.content.sequence + 1
    else 1
  }

  /** The link to the previous receipt, or a refusal. */
  function Link(payload: Payload, previous: Option<Receipt>): Result<Option<string>, ()> {
    if previous.None? then
      if payload.previousDigest.None? || payload.previousDigest.value == "" then Ok(None) else Err(())
    else
      var expected := previous.value.stateDigest;
      if payload.previousDigest.Some? && payload.previousDigest.value != expected then Err(())
      else if !IsDigest(expected) then Err(())
      else Ok(Some(expected))
  }

  function ReceiptFromPayload(codec: Codec, payload: Payload, previous: Option<Receipt>): Option<Receipt> {
    var sequence, link, artifacts :=
      NextSequence(payload, previous), Link(payload, previous), NormalManifest(payload.artifacts);
    if payload.sensitive || payload.validator.sensitive then None
    else if !(IsId(payload.runId) && IsId(payload.jobId) && IsId(payload.attemptId)) then None
    else if sequence < 1 then None
    else if previous.Some? && sequence != previous.value.body.content.sequence + 1 then None
    else if link.Err? then None
    else if !(IsDigest(payload.packetDigest) && IsDigest(payload.capsuleDigest) && IsDigest(payload.progressDigest))
    then None
    else if artifacts.None? || !codec.isTimestamp(payload.observedAt) || !payload.validator.recognised then None
    else if payload.ownerDigest.Some? && !IsDigest(payload.ownerDigest.value) then None
    else if payload.fenceToken.Some? && payload.fenceToken.value < 0 then None
    else
      var content := Content(payload.runId, payload.jobId, payload.attemptId, sequence, link.value,
                             payload.packetDigest, payload.capsuleDigest, payload.progressDigest, artifacts.value,
                             payload.observedAt, payload.validator, payload.ownerDigest, payload.fenceToken);
      var id := if payload.checkpointId.Some? then payload.checkpointId.value else codec.name(content);
      if !IsId(id) then None else Some(Receipt(Body(content, id), codec.hash(Body(content, id))))
  }

  /** What validation accepts, tampering being a digest that does not match the contents. */
  predicate Validates(codec: Codec, r: Receipt, expectedAttempt: string) {
    var c := r.body.content;
    && !c.validator.sensitive
    && IsId(c.attemptId) && c.attemptId == expectedAttempt
    && IsId(r.body.checkpointId) && IsId(c.runId) && IsId(c.jobId)
    && c.sequence >= 1
    && (c.previousDigest.Some? ==> IsDigest(c.previousDigest.value))
    && IsDigest(c.packetDigest) && IsDigest(c.capsuleDigest) && IsDigest(c.progressDigest) && IsDigest(r.stateDigest)
    && (c.ownerDigest.Some? ==> IsDigest(c.ownerDigest.value))
    && (c.fenceToken.Some? ==> c.fenceToken.value >= 0)
    && codec.isTimestamp(c.observedAt)
    && NormalManifest(c.artifacts).Some?
    && c.validator.recognised
    && r.stateDigest == codec.hash(r.body)
  }

  // ----- normalisation is idempotent

  lemma {:induction false} SplitKeepsChars(s: string, c: char)
    requires c !in s
    ensures forall k :: 0 <= k < |Split(s)| ==> c !in Split(s)[k]
  {
    if s != "" { SplitKeepsChars(s[1..], c); }
  }

  lemma {:induction false} JoinKeepsChars(parts: seq<string>, c: char)
    requires c != '/' && forall k :: 0 <= k < |parts| ==> c !in parts[k]
    ensures c !in Join(parts)
  {
    if |parts| > 1 { JoinKeepsChars(parts[1..], c); }
  }

  /** A normalised path is its own normal form, unless it normalised to nothing. */
  lemma RelativePathIdempotent(value: string)
    requires RelativePath(value).Some?
    ensures var q := RelativePath(value).value;
      RelativePath(q) == if HasComponent(value) then Some(q) else None
  {
    var s := Slashes(value);
    var parts := Parts(s);
    var q := Join(parts);
    if parts != [] {
      PartsAreComponents(s);
      SplitKeepsChars(s, '\\');
      JoinKeepsChars(parts, '\\');
      JoinStart(parts);
      assert q[0] in q;
      assert Slashes(q) == q;
      PartsOfJoin(parts);
    }
  }

  lemma {:induction false} ManifestNormalises(items: seq<RawArtifact>)
    requires NormalManifest(items).Some?
    ensures var normal := NormalManifest(items).value;
      && (NormalManifest(normal).Some? <==> forall k :: 0 <= k < |items| ==> HasComponent(items[k].path))
      && (NormalManifest(normal).Some? ==> NormalManifest(normal).value == normal)
  {
    if items != [] {
      var normal, rest := NormalManifest(items).value, items[1..];
      ManifestNormalises(rest);
      RelativePathIdempotent(items[0].path);
      assert normal[0] == NormalArtifact(items[0]).value && normal[1..] == NormalManifest(rest).value;
      assert forall k :: 0 <= k < |rest| ==> rest[k] == items[k + 1];
      if forall k :: 0 <= k < |items| ==> HasComponent(items[k].path) {
        assert forall k :: 0 <= k < |rest| ==> HasComponent(rest[k].path);
      }
    }
  }

  /** The round trip: a stored receipt validates exactly if every artifact path of the
      payload has a component. */
  lemma RoundTrip(codec: Codec, payload: Payload, previous: Option<Receipt>)
    requires Faithful(codec) && ReceiptFromPayload(codec, payload, previous).Some?
    ensures var r := ReceiptFromPayload(codec, payload, previous).value;
      Validates(codec, r, payload.attemptId) <==>
        forall k :: 0 <= k < |payload.artifacts| ==> HasComponent(payload.artifacts[k].path)
  {
    ManifestNormalises(payload.artifacts);
  }

  /** With an injective digest, changing anything but the digest of a valid receipt is noticed. */
  lemma TamperingIsNoticed(codec: Codec, r: Receipt, forged: Receipt, attempt: string, other: string)
    requires forall a, b :: codec.hash(a) == codec.hash(b) ==> a == b
    requires Validates(codec, r, attempt) && forged.stateDigest == r.stateDigest && forged.body != r.body
    ensures !Validates(codec, forged, other)
  {
    assert codec.hash(forged.body) != codec.hash(r.body);
  }

  // ----- the directory

  type Directory = map<string, Receipt>

  ghost predicate IsLatest(dir: Directory, name: string) {
    name in dir && forall other :: other in dir && other != name ==> Less(other, name)
  }

  lemma {:induction false} LatestExists(dir: Directory, names: set<string>)
    requires names <= dir.Keys && exists n :: n in names
    ensures exists name :: name in names && forall other :: other in names && other != name ==> Less(other, name)
    decreases |names|
  {
    var x :| x in names;
    var rest := names - {x};
    assert forall other :: other in names && other != x ==> other in rest;
    if exists n :: n in rest {
      LatestExists(dir, rest);
      var y :| y in rest && forall other :: other in rest && other != y ==> Less(other, y);
      LessTotal(x, y);
      var last := if Less(x, y) then y else x;
      forall other | other in names && other != last ensures Less(other, last) {
        assert other == x || other in rest;
        if last == x && other != y { LessTransitive(other, y, x); }
      }
      assert last in names;
    }
  }

  lemma SomeLatest(dir: Directory)
    requires exists n :: n in dir
    ensures exists name :: IsLatest(dir, name)
  {
    var n :| n in dir;
    assert n in dir.Keys;
    LatestExists(dir, dir.Keys);
    var name :| name in dir.Keys && forall other :: other in dir.Keys && other != name ==> Less(other, name);
    assert IsLatest(dir, name);
  }

  lemma LatestUnique(dir: Directory, a: string, b: string)
    requires IsLatest(dir, a) && IsLatest(dir, b)
    ensures a == b
  {
    LessAsymmetric(a, b);
  }

  /** The receipt in the last file of the sorted listing, if there is a file. */
  ghost function LatestName(dir: Directory): Option<string>
    ensures LatestName(dir).Some? ==> IsLatest(dir, LatestName(dir).value)
    ensures LatestName(dir).None? ==> forall n :: n !in dir
  {
    if exists n :: n in dir then
      SomeLatest(dir);
      var name :| IsLatest(dir, name);
      Some(name)
    else None
  }

  /** What one write does: the receipt returned and the directory left behind, or a refusal. */
  ghost function Written(codec: Codec, dir: Directory, payload: Payload): Option<(Receipt, Directory)> {
    var name := LatestName(dir);
    var previous := if name.Some? then Some(dir[name.value]) else None;
    if previous.Some? && !Validates(codec, previous.value, previous.value.body.content.attemptId) then None
    else
      var receipt := ReceiptFromPayload(codec, payload, previous);
      if receipt.None? then None
      else
        var path := FileName(receipt.value.body.content.sequence);
        if path in dir then (if dir[path] == receipt.value then Some((receipt.value, dir)) else None)
        else Some((receipt.value, dir[path := receipt.value]))
  }

  // ----- the chain

  /** Receipts `first` to `last`, each valid, each linked to the one before. */
  ghost predicate Chain(codec: Codec, dir: Directory, first: nat, last: nat) {
    && 1 <= first <= last
    && OnlyNumbered(dir, first, last)
    && AllLinked(codec, dir, first, last)
  }

  ghost predicate OnlyNumbered(dir: Directory, first: nat, last: nat) {
    forall name :: name in dir ==> exists n: nat :: first <= n <= last && name == FileName(n)
  }

  ghost predicate Linked(codec: Codec, dir: Directory, first: nat, n: nat) {
    && FileName(n) in dir
    && var r := dir[FileName(n)];
       && r.body.content.sequence == n
       && Validates(codec, r, r.body.content.attemptId)
       && if n <= first then r.body.content.previousDigest == None
          else FileName(n - 1) in dir && r.body.content.previousDigest == Some(dir[FileName(n - 1)].stateDigest)
  }

  ghost predicate AllLinked(codec: Codec, dir: Directory, first: nat, last: nat) {
    forall n: nat :: first <= n <= last ==> Linked(codec, dir, first, n)
  }

  /** Below 10^20 the last file of the listing is the newest receipt. */
  lemma LatestIsNewest(codec: Codec, dir: Directory, first: nat, last: nat)
    requires Chain(codec, dir, first, last) && last < Pow10(WIDTH)
    ensures LatestName(dir) == Some(FileName(last))
  {
    assert Linked(codec, dir, first, last);
    forall other | other in dir && other != FileName(last) ensures Less(other, FileName(last)) {
      var n: nat :| first <= n <= last && other == FileName(n);
      FileNameOrder(n, last);
    }
    assert IsLatest(dir, FileName(last));
    LatestUnique(dir, LatestName(dir).value, FileName(last));
  }

  ghost predicate Named(payload: Payload) {
    forall k :: 0 <= k < |payload.artifacts| ==> HasComponent(payload.artifacts[k].path)
  }

  lemma FirstWrite(codec: Codec, dir: Directory, payload: Payload)
    requires Faithful(codec) && Named(payload) && (forall n :: n !in dir) && Written(codec, dir, payload).Some?
    ensures var (r, after) := Written(codec, dir, payload).value;
      r.body.content.sequence >= 1 && Chain(codec, after, r.body.content.sequence, r.body.content.sequence)
  {
    var (r, after) := Written(codec, dir, payload).value;
    RoundTrip(codec, payload, None);
    var n: nat := r.body.content.sequence;
    assert Linked(codec, after, n, n);
  }

  lemma NextNameIsNew(codec: Codec, dir: Directory, first: nat, last: nat)
    requires Chain(codec, dir, first, last) && last + 1 < Pow10(WIDTH)
    ensures FileName(last + 1) !in dir
  {
    forall n: nat | first <= n <= last ensures FileName(n) != FileName(last + 1) {
      FileNameOrder(n, last + 1);
    }
  }

  lemma ReceiptShape(codec: Codec, payload: Payload, previous: Receipt)
    requires ReceiptFromPayload(codec, payload, Some(previous)).Some?
    ensures var content := ReceiptFromPayload(codec, payload, Some(previous)).value.body.content;
      content.sequence == previous.body.content.sequence + 1 && content.previousDigest == Some(previous.stateDigest)
  {
  }

  lemma WriteOnNewest(codec: Codec, dir: Directory, payload: Payload, name: string)
    requires LatestName(dir) == Some(name) && Validates(codec, dir[name], dir[name].body.content.attemptId)
    requires FileName(dir[name].body.content.sequence + 1) !in dir
    ensures var receipt := ReceiptFromPayload(codec, payload, Some(dir[name]));
      Written(codec, dir, payload) ==
      if receipt.None? then None
      else Some((receipt.value, dir[FileName(dir[name].body.content.sequence + 1) := receipt.value]))
  {
    if ReceiptFromPayload(codec, payload, Some(dir[name])).Some? { ReceiptShape(codec, payload, dir[name]); }
  }

  /** On a chain, a write is decided by the newest receipt alone. */
  lemma WriteOnChain(codec: Codec, dir: Directory, payload: Payload, first: nat, last: nat)
    requires Chain(codec, dir, first, last) && last + 1 < Pow10(WIDTH)
    ensures FileName(last) in dir && FileName(last + 1) !in dir
    ensures var receipt := ReceiptFromPayload(codec, payload, Some(dir[FileName(last)]));
      Written(codec, dir, payload) ==
      if receipt.None? then None else Some((receipt.value, dir[FileName(last + 1) := receipt.value]))
  {
    LatestIsNewest(codec, dir, first, last);
    assert Linked(codec, dir, first, last);
    NextNameIsNew(codec, dir, first, last);
    WriteOnNewest(codec, dir, payload, FileName(last));
  }

  /** A new file leaves every link as it was. */
  lemma LinkedAfterWrite(codec: Codec, dir: Directory, name: string, r: Receipt, first: nat, n: nat)
    requires Linked(codec, dir, first, n) && name !in dir
    ensures Linked(codec, dir[name := r], first, n)
  {
  }

  lemma LinksAfterWrite(codec: Codec, dir: Directory, r: Receipt, first: nat, last: nat)
    requires AllLinked(codec, dir, first, last) && first <= last && FileName(last + 1) !in dir
    requires r.body.content.sequence == last + 1 && Validates(codec, r, r.body.content.attemptId)
    requires FileName(last) in dir && r.body.content.previousDigest == Some(dir[FileName(last)].stateDigest)
    ensures AllLinked(codec, dir[FileName(last + 1) := r], first, last + 1)
  {
    var after := dir[FileName(last + 1) := r];
    forall n: nat | first <= n <= last + 1 ensures Linked(codec, after, first, n) {
      if n <= last {
        LinkedAfterWrite(codec, dir, FileName(last + 1), r, first, n);
      } else {
        assert FileName(last) in after && after[FileName(last)] == dir[FileName(last)];
      }
    }
  }

  lemma AppendLink(codec: Codec, dir: Directory, r: Receipt, first: nat, last: nat)
    requires Chain(codec, dir, first, last) && last + 1 < Pow10(WIDTH) && FileName(last) in dir
    requires r.body.content.sequence == last + 1 && Validates(codec, r, r.body.content.attemptId)
    requires r.body.content.previousDigest == Some(dir[FileName(last)].stateDigest)
    ensures Chain(codec, dir[FileName(last + 1) := r], first, last + 1)
  {
    NextNameIsNew(codec, dir, first, last);
    NamesAfterWrite(dir, r, first, last);
    LinksAfterWrite(codec, dir, r, first, last);
  }

  lemma NamesAfterWrite(dir: Directory, r: Receipt, first: nat, last: nat)
    requires OnlyNumbered(dir, first, last) && first <= last
    ensures OnlyNumbered(dir[FileName(last + 1) := r], first, last + 1)
  {
    var after := dir[FileName(last + 1) := r];
    forall name | name in after
      ensures exists n: nat :: first <= n <= last + 1 && name == FileName(n)
    {
      if name in dir {
        var n: nat :| first <= n <= last && name == FileName(n);
      }
    }
  }

  /** A successful write adds exactly the next receipt, linked to the newest one; the
      branch that would return an existing receipt is never taken. */
  lemma WriteExtendsChain(codec: Codec, dir: Directory, payload: Payload, first: nat, last: nat)
    requires Faithful(codec) && Named(payload) && Chain(codec, dir, first, last)
    requires last + 1 < Pow10(WIDTH) && Written(codec, dir, payload).Some?
    ensures FileName(last) in dir && FileName(last + 1) !in dir
    ensures var (r, after) := Written(codec, dir, payload).value;
      && after == dir[FileName(last + 1) := r]
      && r.body.content.previousDigest == Some(dir[FileName(last)].stateDigest)
      && Chain(codec, after, first, last + 1)
  {
    WriteOnChain(codec, dir, payload, first, last);
    var newest := dir[FileName(last)];
    assert Linked(codec, dir, first, last);
    RoundTrip(codec, payload, Some(newest));
    ReceiptShape(codec, payload, newest);
    AppendLink(codec, dir, ReceiptFromPayload(codec, payload, Some(newest)).value, first, last);
  }

  /** A history of writes, refused ones leaving the directory as it was. */
  ghost function AfterWrites(codec: Codec, payloads: seq<Payload>): Directory {
    if payloads == [] then map[]
    else
      var before := AfterWrites(codec, payloads[..|payloads| - 1]);
      var step := Written(codec, before, payloads[|payloads| - 1]);
      if step.Some? then step.value.1 else before
  }

  ghost predicate Small(dir: Directory) {
    forall name :: name in dir ==> dir[name].body.content.sequence < Pow10(WIDTH)
  }

  /** Nothing stored, or one contiguous chain below 10^20. */
  ghost predicate EmptyOrChain(codec: Codec, dir: Directory) {
    (forall n :: n !in dir) || exists first: nat, last: nat :: Chain(codec, dir, first, last) && last < Pow10(WIDTH)
  }

  lemma GrowthStaysBelow(codec: Codec, dir: Directory, payload: Payload, first: nat, last: nat)
    requires Chain(codec, dir, first, last) && last < Pow10(WIDTH) && Written(codec, dir, payload).Some?
    requires forall name :: name in Written(codec, dir, payload).value.1 ==>
      Written(codec, dir, payload).value.1[name].body.content.sequence < Pow10(WIDTH)
    ensures last + 1 < Pow10(WIDTH)
  {
    LatestIsNewest(codec, dir, first, last);
    assert Linked(codec, dir, first, last);
    var newest := dir[FileName(last)];
    var receipt := ReceiptFromPayload(codec, payload, Some(newest));
    ReceiptShape(codec, payload, newest);
    WrittenIsStored(codec, dir, payload, FileName(last));
    assert FileName(last + 1) in Written(codec, dir, payload).value.1;
  }

  lemma WrittenIsStored(codec: Codec, dir: Directory, payload: Payload, latest: string)
    requires LatestName(dir) == Some(latest) && latest in dir && Written(codec, dir, payload).Some?
    ensures var receipt := ReceiptFromPayload(codec, payload, Some(dir[latest]));
      && receipt.Some? && FileName(receipt.value.body.content.sequence) in Written(codec, dir, payload).value.1
      && Written(codec, dir, payload).value.1[FileName(receipt.value.body.content.sequence)] == receipt.value
  {
  }

  lemma WriteKeepsChain(codec: Codec, dir: Directory, payload: Payload)
    requires Faithful(codec) && Named(payload) && EmptyOrChain(codec, dir) && Written(codec, dir, payload).Some?
    requires Small(Written(codec, dir, payload).value.1)
    ensures EmptyOrChain(codec, Written(codec, dir, payload).value.1)
  {
    var (r, after) := Written(codec, dir, payload).value;
    if forall n :: n !in dir {
      FirstWrite(codec, dir, payload);
      var n: nat := r.body.content.sequence;
      assert Linked(codec, after, n, n);
    } else {
      var first: nat, last: nat :| Chain(codec, dir, first, last) && last < Pow10(WIDTH);
      GrowthStaysBelow(codec, dir, payload, first, last);
      WriteExtendsChain(codec, dir, payload, first, last);
    }
  }

  /** Whatever is written in whatever order, the directory is empty or one contiguous
      chain, as long as no stored sequence reaches 10^20. */
  lemma {:induction false} WritesFormChain(codec: Codec, payloads: seq<Payload>)
    requires Faithful(codec) && forall k :: 0 <= k < |payloads| ==> Named(payloads[k])
    requires forall k :: 0 <= k <= |payloads| ==> Small(AfterWrites(codec, payloads[..k]))
    ensures EmptyOrChain(codec, AfterWrites(codec, payloads))
    decreases |payloads|
  {
    if payloads != [] {
      var init, payload := payloads[..|payloads| - 1], payloads[|payloads| - 1];
      assert forall k :: 0 <= k <= |init| ==> init[..k] == payloads[..k];
      WritesFormChain(codec, init);
      assert payloads[..|payloads|] == payloads;
      if Written(codec, AfterWrites(codec, init), payload).Some? {
        WriteKeepsChain(codec, AfterWrites(codec, init), payload);
      }
    }
  }

  // ----- what the chain proves about its contents

  lemma {:induction false} HeadFixesLinks(codec: Codec, a: Directory, b: Directory,
                                          firstA: nat, lastA: nat, firstB: nat, lastB: nat, n: nat)
    requires forall x, y :: codec.hash(x) == codec.hash(y) ==> x == y
    requires AllLinked(codec, a, firstA, lastA) && AllLinked(codec, b, firstB, lastB)
    requires firstA <= n <= lastA && firstB <= lastB && FileName(lastA) in a && FileName(lastB) in b
    requires a[FileName(lastA)].stateDigest == b[FileName(lastB)].stateDigest
    ensures lastA == lastB && firstB <= n && FileName(n) in a && FileName(n) in b && a[FileName(n)] == b[FileName(n)]
    decreases lastA - n
  {
    if n < lastA {
      HeadFixesLinks(codec, a, b, firstA, lastA, firstB, lastB, n + 1);
      LinkedBack(codec, a, b, firstA, firstB, n + 1);
      assert Linked(codec, a, firstA, n) && Linked(codec, b, firstB, n);
      SameDigestSameReceipt(codec, a[FileName(n)], b[FileName(n)]);
    } else {
      assert Linked(codec, a, firstA, lastA) && Linked(codec, b, firstB, lastB);
      SameDigestSameReceipt(codec, a[FileName(lastA)], b[FileName(lastB)]);
    }
  }

  /** With an injective digest, two chains with the same newest digest hold the same
      receipts all the way back to the first. */
  lemma HeadFixesChain(codec: Codec, a: Directory, b: Directory,
                       firstA: nat, lastA: nat, firstB: nat, lastB: nat, n: nat)
    requires forall x, y :: codec.hash(x) == codec.hash(y) ==> x == y
    requires Chain(codec, a, firstA, lastA) && Chain(codec, b, firstB, lastB) && firstA <= n <= lastA
    requires FileName(lastA) in a && FileName(lastB) in b
    requires a[FileName(lastA)].stateDigest == b[FileName(lastB)].stateDigest
    ensures lastA == lastB && firstB <= n && FileName(n) in a && FileName(n) in b && a[FileName(n)] == b[FileName(n)]
  {
    HeadFixesLinks(codec, a, b, firstA, lastA, firstB, lastB, n);
  }

  lemma SameDigestSameReceipt(codec: Codec, x: Receipt, y: Receipt)
    requires forall u, v :: codec.hash(u) == codec.hash(v) ==> u == v
    requires Validates(codec, x, x.body.content.attemptId) && Validates(codec, y, y.body.content.attemptId)
    requires x.stateDigest == y.stateDigest
    ensures x == y
  {
    assert codec.hash(x.body) == codec.hash(y.body);
  }

  /** Equal receipts that are not the first have predecessors with equal digests. */
  lemma LinkedBack(codec: Codec, a: Directory, b: Directory, firstA: nat, firstB: nat, n: nat)
    requires Linked(codec, a, firstA, n) && Linked(codec, b, firstB, n) && firstA < n
    requires a[FileName(n)] == b[FileName(n)]
    ensures firstB < n && FileName(n - 1) in a && FileName(n - 1) in b
    ensures a[FileName(n - 1)].stateDigest == b[FileName(n - 1)].stateDigest
  {
  }

  // ----- the two ways a directory gets stuck

  /** Nothing stored, or a chain with room for another receipt. */
  ghost predicate HasRoom(codec: Codec, dir: Directory) {
    (forall n :: n !in dir) || exists first: nat, last: nat :: Chain(codec, dir, first, last) && last + 1 < Pow10(WIDTH)
  }

  lemma BrokenNewestBlocks(codec: Codec, dir: Directory, name: string, later: Payload)
    requires IsLatest(dir, name) && !Validates(codec, dir[name], dir[name].body.content.attemptId)
    ensures Written(codec, dir, later) == None
  {
    LatestUnique(dir, LatestName(dir).value, name);
  }

  lemma NextIsLatest(dir: Directory, first: nat, last: nat, r: Receipt)
    requires OnlyNumbered(dir, first, last) && last + 1 < Pow10(WIDTH)
    ensures IsLatest(dir[FileName(last + 1) := r], FileName(last + 1))
  {
    forall other | other in dir ensures Less(other, FileName(last + 1)) {
      var n: nat :| first <= n <= last && other == FileName(n);
      FileNameOrder(n, last + 1);
    }
  }

  lemma NamelessFirstBlocks(codec: Codec, dir: Directory, payload: Payload, later: Payload)
    requires Faithful(codec) && !Named(payload) && (forall n :: n !in dir) && Written(codec, dir, payload).Some?
    ensures Written(codec, Written(codec, dir, payload).value.1, later) == None
  {
    var (r, after) := Written(codec, dir, payload).value;
    RoundTrip(codec, payload, None);
    assert IsLatest(after, FileName(r.body.content.sequence));
    BrokenNewestBlocks(codec, after, FileName(r.body.content.sequence), later);
  }

  lemma NamelessNextBlocks(codec: Codec, dir: Directory, payload: Payload, later: Payload, first: nat, last: nat)
    requires Faithful(codec) && !Named(payload) && Written(codec, dir, payload).Some?
    requires Chain(codec, dir, first, last) && last + 1 < Pow10(WIDTH)
    ensures Written(codec, Written(codec, dir, payload).value.1, later) == None
  {
    WriteOnChain(codec, dir, payload, first, last);
    var r := Written(codec, dir, payload).value.0;
    RoundTrip(codec, payload, Some(dir[FileName(last)]));
    NextIsLatest(dir, first, last, r);
    BrokenNewestBlocks(codec, dir[FileName(last + 1) := r], FileName(last + 1), later);
  }

  /** On an empty directory or a chain, an artifact path without a component is accepted once
      and then blocks the directory: the stored receipt does not validate, so no later write
      succeeds. */
  lemma NamelessArtifactBlocks(codec: Codec, dir: Directory, payload: Payload, later: Payload)
    requires Faithful(codec) && !Named(payload) && HasRoom(codec, dir) && Written(codec, dir, payload).Some?
    ensures Written(codec, Written(codec, dir, payload).value.1, later) == None
  {
    if forall n :: n !in dir {
      NamelessFirstBlocks(codec, dir, payload, later);
    } else {
      var first: nat, last: nat :| Chain(codec, dir, first, last) && last + 1 < Pow10(WIDTH);
      NamelessNextBlocks(codec, dir, payload, later, first, last);
    }
  }

  lemma LimitHidesNewest(codec: Codec, dir: Directory, first: nat, last: nat)
    requires Chain(codec, dir, first, last + 1) && first <= last && last + 1 == Pow10(WIDTH)
    ensures LatestName(dir) == Some(FileName(last))
  {
    assert Linked(codec, dir, first, last);
    forall other | other in dir && other != FileName(last) ensures Less(other, FileName(last)) {
      var n: nat :| first <= n <= last + 1 && other == FileName(n);
      LastBeforeLimit(n, last);
    }
    assert IsLatest(dir, FileName(last));
    LatestUnique(dir, LatestName(dir).value, FileName(last));
  }

  /** While the listing ends with the last receipt but one, nothing can be appended: a
      further receipt is refused as a conflict or as not adjacent. */
  lemma HiddenNewestBlocks(codec: Codec, dir: Directory, payload: Payload, last: nat)
    requires FileName(last) in dir && FileName(last + 1) in dir
    requires dir[FileName(last)].body.content.sequence == last && LatestName(dir) == Some(FileName(last))
    requires Written(codec, dir, payload).Some?
    ensures Written(codec, dir, payload).value.1 == dir
  {
    ReceiptShape(codec, payload, dir[FileName(last)]);
  }

  /** A chain that has reached 10^20 never grows again. */
  lemma LimitStopsChain(codec: Codec, dir: Directory, payload: Payload, first: nat, last: nat)
    requires Chain(codec, dir, first, last + 1) && first <= last && last + 1 == Pow10(WIDTH)
    requires Written(codec, dir, payload).Some?
    ensures Written(codec, dir, payload).value.1 == dir
  {
    LimitHidesNewest(codec, dir, first, last);
    assert Linked(codec, dir, first, last) && Linked(codec, dir, first, last + 1);
    HiddenNewestBlocks(codec, dir, payload, last);
  }

  // ----- replays

  /** Submitting a payload again with its own sequence is refused, not answered. */
  lemma ExplicitReplayIsRefused(codec: Codec, dir: Directory, payload: Payload, first: nat, last: nat)
    requires Faithful(codec) && Chain(codec, dir, first, last) && last < Pow10(WIDTH)
    requires payload.sequence.Some? && payload.sequence.value <= last
    ensures Written(codec, dir, payload) == None
  {
    LatestIsNewest(codec, dir, first, last);
    assert Linked(codec, dir, first, last);
  }

  /** Submitting a payload again that was accepted once, without a sequence of its own,
      appends a new receipt exactly if it names no predecessor or the newest receipt; otherwise
      it is refused.  It is never answered with the receipt it had. */
  lemma ImplicitReplayAppends(codec: Codec, dir: Directory, payload: Payload, earlier: Option<Receipt>,
                              first: nat, last: nat)
    requires Faithful(codec) && Chain(codec, dir, first, last) && last + 1 < Pow10(WIDTH) && Named(payload)
    requires payload.sequence.None? && ReceiptFromPayload(codec, payload, earlier).Some?
    ensures FileName(last) in dir && FileName(last + 1) !in dir
    ensures Written(codec, dir, payload).Some? <==>
            payload.previousDigest.None? || payload.previousDigest == Some(dir[FileName(last)].stateDigest)
    ensures Written(codec, dir, payload).Some? ==>
            Written(codec, dir, payload).value.1 == dir[FileName(last + 1) := Written(codec, dir, payload).value.0]
  {
    WriteOnChain(codec, dir, payload, first, last);
    assert Linked(codec, dir, first, last);
    FieldsDecide(codec, payload, earlier, dir[FileName(last)]);
  }

  /** Apart from the link, whether a payload without a sequence is accepted depends on it alone. */
  lemma FieldsDecide(codec: Codec, payload: Payload, earlier: Option<Receipt>, newest: Receipt)
    requires Faithful(codec) && ReceiptFromPayload(codec, payload, earlier).Some? && payload.sequence.None?
    requires newest.body.content.sequence >= 1 && IsDigest(newest.stateDigest)
    ensures ReceiptFromPayload(codec, payload, Some(newest)).Some? <==>
            payload.previousDigest.None? || payload.previousDigest == Some(newest.stateDigest)
  {
  }
}

/** The attempt directory as it is: files that writing a checkpoint adds to. */
module CheckpointDirectory {
  import opened Wrappers
  import opened StringOrder
  import opened CheckpointNames
  import opened CheckpointReceipt

  ghost function Followed(rows: seq<RawArtifact>, rest: Option<seq<RawArtifact>>): Option<seq<RawArtifact>> {
    if rest.None? then None else Some(rows + rest.value)
  }

  lemma FollowedStep(items: seq<RawArtifact>, k: nat, rows: seq<RawArtifact>)
    requires k < |items|
    ensures var row := NormalArtifact(items[k]);
      Followed(rows, NormalManifest(items[k..])) ==
      if row.None? then None else Followed(rows + [row.value], NormalManifest(items[k + 1..]))
  {
    assert items[k..][1..] == items[k + 1..];
    var row, rest := NormalArtifact(items[k]), NormalManifest(items[k + 1..]);
    if row.Some? && rest.Some? {
      assert rows + ([row.value] + rest.value) == rows + [row.value] + rest.value;
    }
  }

  /** Normalises the rows one by one, stopping at the first bad one. */
  method ArtifactManifest(items: seq<RawArtifact>) returns (normal: Option<seq<RawArtifact>>)
    ensures normal == NormalManifest(items)
  {
    var rows: seq<RawArtifact> := [];
    assert items[0..] == items;
    assert NormalManifest(items).Some? ==> [] + NormalManifest(items).value == NormalManifest(items).value;
    for k := 0 to |items|
      invariant NormalManifest(items) == Followed(rows, NormalManifest(items[k..]))
    {
      FollowedStep(items, k, rows);
      var row := NormalArtifact(items[k]);
      if row.None? {
        return None;
      }
      rows := rows + [row.value];
    }
    assert rows + [] == rows;
    normal := Some(rows);
  }

  class AttemptDirectory {
    const codec: Codec
    var files: Directory

    constructor (codec: Codec)
      ensures this.codec == codec && files == map[]
    {
      this.codec, files := codec, map[];
    }

    /** The last name of the sorted listing. */
    method LastListed() returns (name: Option<string>)
      ensures name == LatestName(files)
    {
      name := None;
      var todo := files.Keys;
      while exists n :: n in todo
        invariant todo <= files.Keys
        invariant name.None? ==> todo == files.Keys
        invariant name.Some? ==> name.value in files && name.value !in todo
        invariant name.Some? ==> forall n :: n in files && n !in todo && n != name.value ==> Less(n, name.value)
        decreases |todo|
      {
        var n :| n in todo;
        todo := todo - {n};
        if name.None? {
          name := Some(n);
        } else {
          LessTotal(n, name.value);
          if Less(name.value, n) {
            Promote(files, todo + {n}, name.value, n);
            name := Some(n);
          }
        }
      }
      if name.Some? {
        assert IsLatest(files, name.value);
        LatestUnique(files, name.value, LatestName(files).value);
      }
    }

    /** Validates the newest receipt, builds the next one and stores it under its name. */
    method WriteCheckpoint(payload: Payload) returns (receipt: Option<Receipt>)
      modifies this
      ensures Written(codec, old(files), payload) == if receipt.Some? then Some((receipt.value, files)) else None
      ensures receipt.None? ==> files == old(files)
    {
      var name := LastListed();
      var previous := if name.Some? then Some(files[name.value]) else None;
      if previous.Some? && !Validates(codec, previous.value, previous.value.body.content.attemptId) {
        return None;
      }
      var built := ReceiptFromPayload(codec, payload, previous);
      if built.None? {
        return None;
      }
      var path := FileName(built.value.body.content.sequence);
      if path in files {
        return if files[path] == built.value then built else None;
      }
      files := files[path := built.value];
      receipt := built;
    }
  }

  lemma Promote(files: Directory, todo: set<string>, earlier: string, later: string)
    requires forall n :: n in files && n !in todo && n != earlier ==> Less(n, earlier)
    requires Less(earlier, later)
    ensures forall n :: n in files && n !in todo ==> Less(n, later)
  {
    forall n | n in files && n !in todo ensures Less(n, later) {
      if n != earlier { LessTransitive(n, earlier, later); }
    }
  }
}
