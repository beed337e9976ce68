/**
 Checking a partition's chain (`verify_chain`): the loop, what its verdict means, and the strength
 of a checkpoint: everything up to the checkpointed sequence is pinned.
 */
module AuditChain {
  import opened Prelude
  import opened CanonicalJson
  import opened AuditDocuments

  datatype ChainReport = ChainReport(errors: seq<Reason>, lastSequence: int, lastMac: Json) {
    predicate Valid() {
      errors == []
    }
  }

  /** The variables of the loop. */
  datatype Scan = Scan(errors: seq<Reason>, previousMac: Json, previousSequence: int, partition: Json,
      observedMac: Json)

  const START := Scan([], Null, 0, Null, Null)

  function SequenceFault(sequence: Json, previous: int): seq<Reason> {
    match AsInt(sequence)
    case None => [SequenceMismatch]
    case Some(n) => if n == previous + 1 then [] else if n > previous then [SequenceGap] else [SequenceMismatch]
  }

  function When(condition: bool, reason: Reason): seq<Reason> {
    if condition then [reason] else []
  }

  /** What the loop reads off one document; `malformed`: its `integrity` is not a mapping. */
  datatype Link = Link(
    result: Verification, malformed: bool, sequence: Json, partition: Json, previousMac: Json, mac: Json)

  function LinkOf(doc: Doc, ring: Keyring): Link {
    Link(Verify(doc, ring), "integrity" in doc && !doc["integrity"].Obj?,
         Seal(doc, "sequence"), Seal(doc, "partition"), Seal(doc, "previous_mac"), Seal(doc, "mac"))
  }

  function Links(docs: seq<Doc>, ring: Keyring): seq<Link> {
    seq(|docs|, i requires 0 <= i < |docs| => LinkOf(docs[i], ring))
  }

  /**
   The exception a document makes the loop end with: from checking it, or from an `integrity` that
   is not a mapping.
   */
  function Breaks(link: Link): Option<Exception> {
    if link.result.Raises? then Some(link.result.exception)
    else if link.malformed then Some(AttributeError)
    else None
  }

  /** One round of the loop. */
  function ScanLink(c: Scan, link: Link, checkpointSequence: Json): Result<Scan, Exception> {
    if Breaks(link).Some? then Err(Breaks(link).value)
    else
      Ok(Scan(
        c.errors
          + (if link.result.Fails? then [link.result.reason] else [])
          + When(c.partition != Null && !PyEq(link.partition, c.partition), PartitionMismatch)
          + SequenceFault(link.sequence, c.previousSequence)
          + When(!PyEq(link.previousMac, c.previousMac), PreviousMacMismatch),
        link.mac,
        if AsInt(link.sequence).Some? then AsInt(link.sequence).value else c.previousSequence,
        if c.partition == Null then link.partition else c.partition,
        if PyEq(link.sequence, checkpointSequence) then link.mac else c.observedMac))
  }

  /** The loop after its first `n` documents. */
  function ScanPrefix(links: seq<Link>, n: nat, checkpointSequence: Json): Result<Scan, Exception>
    requires n <= |links|
  {
    if n == 0 then Ok(START)
    else
      match ScanPrefix(links, n - 1, checkpointSequence)
      case Err(e) => Err(e)
      case Ok(c) => ScanLink(c, links[n - 1], checkpointSequence)
  }

  /** The closing comparison with the checkpoint; an empty mapping counts as none. */
  function CheckpointFaults(c: Scan, checkpoint: Doc): Result<seq<Reason>, Exception> {
    if checkpoint == map[] then Ok([])
    else
      var sequence := AsInt(Get(checkpoint, "sequence"));
      var before := When(!PyEq(Get(checkpoint, "partition"), c.partition), CheckpointPartitionMismatch);
      if sequence == None || sequence.value < 1 then Ok(before + [CheckpointSequenceInvalid])
      else if sequence.value > c.previousSequence then Ok(before + [TailTruncated])
      else if c.observedMac == Null then Ok(before + [CheckpointSequenceMissing])
      else if !IsAscii(CheckpointMac(checkpoint)) || !IsAscii(AsText(c.observedMac)) then Err(TypeError)
      else Ok(before + When(CheckpointMac(checkpoint) != AsText(c.observedMac), CheckpointMacMismatch))
  }

  function CheckpointMac(checkpoint: Doc): string {
    if "mac" in checkpoint then AsText(checkpoint["mac"]) else ""
  }

  /** `dict.fromkeys(errors)`: each reason once, at its first place. */
  function Unique(errors: seq<Reason>): (r: seq<Reason>)
    ensures r == [] <==> errors == []
    ensures forall e :: e in r <==> e in errors
  {
    if errors == [] then []
    else
      var init, last := errors[..|errors| - 1], errors[|errors| - 1];
      assert errors == init + [last];
      if last in init then Unique(init) else Unique(init) + [last]
  }

  function Report(c: Scan, checkpoint: Doc): Result<ChainReport, Exception> {
    match CheckpointFaults(c, checkpoint)
    case Err(e) => Err(e)
    case Ok(faults) => Ok(ChainReport(Unique(c.errors + faults), c.previousSequence, c.previousMac))
  }

  function VerdictOnLinks(links: seq<Link>, checkpoint: Doc): Result<ChainReport, Exception> {
    match ScanPrefix(links, |links|, Get(checkpoint, "sequence"))
    case Err(e) => Err(e)
    case Ok(c) => Report(c, checkpoint)
  }

  /** The verdict as a function of the documents, or the exception that ends the check. */
  function Verdict(docs: seq<Doc>, ring: Keyring, checkpoint: Doc): Result<ChainReport, Exception> {
    VerdictOnLinks(Links(docs, ring), checkpoint)
  }

  lemma {:induction false} ScanFailsForGood(links: seq<Link>, n: nat, m: nat, checkpointSequence: Json)
    requires n <= m <= |links| && ScanPrefix(links, n, checkpointSequence).Err?
    ensures ScanPrefix(links, m, checkpointSequence) == ScanPrefix(links, n, checkpointSequence)
  {
    if n < m { ScanFailsForGood(links, n, m - 1, checkpointSequence); }
  }

  /** The loop of `verify_chain`. */
  method ScanAll(docs: seq<Doc>, ring: Keyring, checkpointSequence: Json) returns (scan: Result<Scan, Exception>)
    ensures scan == ScanPrefix(Links(docs, ring), |docs|, checkpointSequence)
  {
    hide Verify, LinkOf, ScanLink;
    ghost var links := Links(docs, ring);
    var c := START;
    for i := 0 to |docs|
      invariant ScanPrefix(links, i, checkpointSequence) == Ok(c)
    {
      var link := LinkOf(docs[i], ring);
      assert links[i] == link;
      var next := ScanLink(c, link, checkpointSequence);
      if next.Err? {
        assert ScanPrefix(links, i + 1, checkpointSequence) == next;
        ScanFailsForGood(links, i + 1, |docs|, checkpointSequence);
        return next;
      }
      c := next.value;
    }
    return Ok(c);
  }

  /** `verify_chain`. */
  method VerifyChain(docs: seq<Doc>, ring: Keyring, checkpoint: Doc) returns (report: Result<ChainReport, Exception>)
    ensures report == Verdict(docs, ring, checkpoint)
  {
    var scan := ScanAll(docs, ring, Get(checkpoint, "sequence"));
    report := if scan.Err? then Err(scan.error) else Report(scan.value, checkpoint);
  }

  /* ---------- What the verdict means ---------- */

  /** The partition name the loop compares link `n` with: the first one that is not None. */
  function PartitionBefore(links: seq<Link>, n: nat): Json
    requires n <= |links|
  {
    if n == 0 then Null
    else if PartitionBefore(links, n - 1) != Null then PartitionBefore(links, n - 1)
    else links[n - 1].partition
  }

  /** Link `i` stands at its place in the chain. */
  ghost predicate Linked(links: seq<Link>, i: nat)
    requires i < |links|
  {
    && links[i].result == Passes && !links[i].malformed
    && AsInt(links[i].sequence) == Some(i + 1)
    && PyEq(links[i].previousMac, if i == 0 then Null else links[i - 1].mac)
    && (PartitionBefore(links, i) != Null ==> PyEq(links[i].partition, PartitionBefore(links, i)))
  }

  /** Every document verifies, they are numbered 1, 2, ... and each names the MAC before it. */
  ghost predicate Chained(links: seq<Link>) {
    forall i :: 0 <= i < |links| ==> Linked(links, i)
  }

  /** The checkpoint names a place in the list and the MAC found there, an ASCII text. */
  ghost predicate Anchored(links: seq<Link>, checkpoint: Doc) {
    match AsInt(Get(checkpoint, "sequence"))
    case None => false
    case Some(k) =>
      && 1 <= k <= |links|
      && PyEq(Get(checkpoint, "partition"), PartitionBefore(links, |links|))
      && links[k - 1].mac != Null
      && AsText(links[k - 1].mac) == (if "mac" in checkpoint then AsText(checkpoint["mac"]) else "")
      && IsAscii(AsText(links[k - 1].mac))
  }

  /** The MAC the loop has noted for the checkpoint after `n` documents numbered from 1. */
  function Observed(links: seq<Link>, n: nat, checkpointSequence: Json): Json
    requires n <= |links|
  {
    match AsInt(checkpointSequence)
    case Some(k) => if 1 <= k <= n then links[k - 1].mac else Null
    case None => Null
  }

  lemma SameNumber(j: Json, k: Json, n: int)
    requires AsInt(j) == Some(n)
    ensures PyEq(j, k) <==> AsInt(k) == Some(n)
  {
  }

  /** The loop variables after `n` documents in their places. */
  function Expected(links: seq<Link>, n: nat, checkpointSequence: Json): Scan
    requires n <= |links|
  {
    Scan([], if n == 0 then Null else links[n - 1].mac, n, PartitionBefore(links, n),
        Observed(links, n, checkpointSequence))
  }

  lemma RoundMeaning(links: seq<Link>, n: nat, checkpointSequence: Json)
    requires 0 < n <= |links|
    ensures var s := ScanLink(Expected(links, n - 1, checkpointSequence), links[n - 1], checkpointSequence);
            && (s.Ok? && s.value.errors == [] <==> Linked(links, n - 1))
            && (s.Ok? && s.value.errors == [] ==> s.value == Expected(links, n, checkpointSequence))
  {
    if AsInt(links[n - 1].sequence) == Some(n) {
      SameNumber(links[n - 1].sequence, checkpointSequence, n);
    }
  }

  lemma ErrorsStay(c: Scan, link: Link, checkpointSequence: Json)
    ensures var s := ScanLink(c, link, checkpointSequence);
            s.Ok? && s.value.errors == [] ==> c.errors == []
  {
  }

  ghost predicate LinkedUpTo(links: seq<Link>, n: nat)
    requires n <= |links|
  {
    forall i :: 0 <= i < n ==> Linked(links, i)
  }

  lemma {:induction false} ScanMeaning(links: seq<Link>, n: nat, checkpointSequence: Json)
    requires n <= |links|
    ensures var s := ScanPrefix(links, n, checkpointSequence);
            && (s.Ok? && s.value.errors == [] <==> LinkedUpTo(links, n))
            && (s.Ok? && s.value.errors == [] ==> s.value == Expected(links, n, checkpointSequence))
  {
    hide ScanLink, Linked, PartitionBefore, Observed;
    if n == 0 {
      ScanStart(links, checkpointSequence);
    } else {
      ScanMeaning(links, n - 1, checkpointSequence);
      RoundMeaning(links, n, checkpointSequence);
      var before := ScanPrefix(links, n - 1, checkpointSequence);
      if before.Ok? { ErrorsStay(before.value, links[n - 1], checkpointSequence); }
      assert LinkedUpTo(links, n) <==> LinkedUpTo(links, n - 1) && Linked(links, n - 1);
    }
  }

  lemma ScanStart(links: seq<Link>, checkpointSequence: Json)
    ensures ScanPrefix(links, 0, checkpointSequence) == Ok(Expected(links, 0, checkpointSequence))
  {
  }

  /** `verify_chain` accepts exactly the chained lists that contain their checkpoint, if there is one. */
  lemma VerdictMeaning(docs: seq<Doc>, ring: Keyring, checkpoint: Doc)
    ensures var v, links := Verdict(docs, ring, checkpoint), Links(docs, ring);
            && (Accepts(docs, ring, checkpoint) <==>
                 Chained(links) && (checkpoint != map[] ==> Anchored(links, checkpoint)))
            && (Accepts(docs, ring, checkpoint) ==>
                  && v.value.lastSequence == |docs|
                  && (docs != [] ==> v.value.lastMac == Seal(docs[|docs| - 1], "mac")))
  {
    hide Verify, ScanPrefix, Linked, PartitionBefore;
    ScanMeaning(Links(docs, ring), |docs|, Get(checkpoint, "sequence"));
  }

  ghost predicate Accepts(docs: seq<Doc>, ring: Keyring, checkpoint: Doc) {
    var v := Verdict(docs, ring, checkpoint);
    v.Ok? && v.value.Valid()
  }

  /* ---------- A checkpoint pins everything before it ---------- */

  ghost predicate AllVersioned(docs: seq<Doc>) {
    forall i :: 0 <= i < |docs| ==> "schema_version" in docs[i]
  }

  /** A versioned document without a fault has a MAC, and it determines the document. */
  lemma LinkMac(a: Doc, ringA: Keyring, b: Doc, ringB: Keyring)
    requires "schema_version" in a && "schema_version" in b
    requires LinkOf(a, ringA).result == Passes && LinkOf(b, ringB).result == Passes
    requires ringA.sm3 == ringB.sm3 && CollisionFree(ringA.sm3)
    ensures LinkOf(a, ringA).mac.Str? && LinkOf(b, ringB).mac.Str?
    ensures LinkOf(a, ringA).mac == LinkOf(b, ringB).mac ==> a == b
  {
    var _ := GenuineMac(a, ringA);
    var _ := GenuineMac(b, ringB);
    if Seal(a, "mac") == Seal(b, "mac") { MacDeterminesDocument(a, ringA, b, ringB); }
  }

  lemma {:induction false} SameMacsDownTo(x: seq<Link>, y: seq<Link>, k: nat, i: nat)
    requires Chained(x) && Chained(y) && 0 < k <= |x| && k <= |y| && i < k
    requires forall j :: 0 <= j < k ==> x[j].mac.Str? && y[j].mac.Str?
    requires forall j :: 0 <= j < k && x[j].mac == y[j].mac ==> x[j].previousMac == y[j].previousMac
    requires x[k - 1].mac == y[k - 1].mac
    ensures x[i].mac == y[i].mac
    decreases k - i
  {
    if i < k - 1 {
      SameMacsDownTo(x, y, k, i + 1);
      assert Linked(x, i + 1) && Linked(y, i + 1);
    }
  }

  lemma ChainedMacs(a: seq<Doc>, ringA: Keyring, b: seq<Doc>, ringB: Keyring, j: nat)
    requires j < |a| && j < |b|
    requires Chained(Links(a, ringA)) && Chained(Links(b, ringB)) && AllVersioned(a) && AllVersioned(b)
    requires ringA.sm3 == ringB.sm3 && CollisionFree(ringA.sm3)
    ensures Links(a, ringA)[j].mac.Str? && Links(b, ringB)[j].mac.Str?
    ensures Links(a, ringA)[j].mac == Links(b, ringB)[j].mac ==> a[j] == b[j]
    ensures a[j] == b[j] ==> Links(a, ringA)[j].previousMac == Links(b, ringB)[j].previousMac
  {
    assert Linked(Links(a, ringA), j) && Linked(Links(b, ringB), j);
    LinkMac(a[j], ringA, b[j], ringB);
  }

  /**
   Two lists of versioned documents that pass against one checkpoint agree on every document up to
   the checkpointed sequence.
   */
  lemma CheckpointPinsPrefix(a: seq<Doc>, ringA: Keyring, b: seq<Doc>, ringB: Keyring, checkpoint: Doc)
    requires checkpoint != map[] && Accepts(a, ringA, checkpoint) && Accepts(b, ringB, checkpoint)
    requires AllVersioned(a) && AllVersioned(b)
    requires ringA.sm3 == ringB.sm3 && CollisionFree(ringA.sm3)
    ensures AsInt(Get(checkpoint, "sequence")).Some?
    ensures var k := AsInt(Get(checkpoint, "sequence")).value;
            1 <= k <= |a| && k <= |b| && a[..k] == b[..k]
  {
    hide Verify, Verdict, Linked, PartitionBefore;
    VerdictMeaning(a, ringA, checkpoint);
    VerdictMeaning(b, ringB, checkpoint);
    var k := AsInt(Get(checkpoint, "sequence")).value;
    var x, y := Links(a, ringA), Links(b, ringB);
    forall j | 0 <= j < k
      ensures x[j].mac.Str? && y[j].mac.Str?
      ensures x[j].mac == y[j].mac ==> a[j] == b[j] && x[j].previousMac == y[j].previousMac
    {
      ChainedMacs(a, ringA, b, ringB, j);
    }
    forall i | 0 <= i < k ensures a[i] == b[i] {
      SameMacsDownTo(x, y, k, i);
    }
  }

  /** An unversioned document with an `integrity` block of its own choosing. */
  function LegacyDoc(data: Json, hmac: string, note: string): Doc {
    map[
      "action" := Str("login"), "data" := data, "hmac" := Str(hmac), "note" := Str(note),
      "integrity" := Obj(map["partition" := Str("auth"), "sequence" := Int(1), "mac" := Str("m")])]
  }

  /** The keyring can check unversioned documents. */
  predicate ChecksUnversioned(ring: Keyring) {
    KeyFor(ring, ring.legacyKeyId).Some? && |KeyFor(ring, ring.legacyKeyId).value| == MAC_KEY_BYTES
  }

  lemma LegacyLink(ring: Keyring, data: Json, note: string)
    requires ChecksUnversioned(ring)
    ensures LinkOf(LegacyDoc(data, ring.sm3(ring.keys[ring.legacyKeyId], ring.legacyBytes(data)), note), ring) ==
            Link(Passes, false, Int(1), Str("auth"), Null, Str("m"))
  {
  }

  /** The head of a chain of one, as a checkpoint. */
  function FirstHead(mac: string): Doc {
    map["partition" := Str("auth"), "sequence" := Int(1), "mac" := Str(mac)]
  }

  lemma LegacyAccepted(ring: Keyring, doc: Doc)
    requires LinkOf(doc, ring) == Link(Passes, false, Int(1), Str("auth"), Null, Str("m"))
    ensures Accepts([doc], ring, FirstHead("m"))
  {
    hide Verify, LinkOf, Verdict;
    var links := Links([doc], ring);
    assert PartitionBefore(links, 1) == Str("auth");
    assert Linked(links, 0);
    VerdictMeaning([doc], ring, FirstHead("m"));
  }

  /** The MAC of an unversioned document covers its `data` only, so two different lists pass against one checkpoint. */
  lemma UnversionedDocumentsAreNotPinned(ring: Keyring, data: Json)
    requires ChecksUnversioned(ring)
    ensures exists a: Doc, b: Doc ::
              a != b && Accepts([a], ring, FirstHead("m")) && Accepts([b], ring, FirstHead("m"))
  {
    var hmac := ring.sm3(ring.keys[ring.legacyKeyId], ring.legacyBytes(data));
    hide Accepts, LinkOf;
    var a, b := LegacyDoc(data, hmac, "a"), LegacyDoc(data, hmac, "b");
    LegacyLink(ring, data, "a");
    LegacyLink(ring, data, "b");
    LegacyAccepted(ring, a);
    LegacyAccepted(ring, b);
    assert a["note"] == Str("a") && b["note"] == Str("b");
  }

  /** Both lists reach the checkpointed sequence and are the same up to it. */
  ghost predicate AgreeUpTo(a: seq<Doc>, b: seq<Doc>, checkpoint: Doc) {
    match AsInt(Get(checkpoint, "sequence"))
    case None => false
    case Some(k) => 0 <= k <= |a| && k <= |b| && a[..k] == b[..k]
  }

  /** Whatever passes against a checkpoint is, up to it, what else passes against it. */
  ghost predicate CheckpointsPin(ring: Keyring) {
    forall a, b, checkpoint ::
      checkpoint != map[] && Accepts(a, ring, checkpoint) && Accepts(b, ring, checkpoint) ==>
          AgreeUpTo(a, b, checkpoint)
  }

  /** Without a usable key for them no unversioned document passes. */
  lemma AcceptedIsVersioned(docs: seq<Doc>, ring: Keyring, checkpoint: Doc)
    requires !ChecksUnversioned(ring) && Accepts(docs, ring, checkpoint)
    ensures AllVersioned(docs)
  {
    hide Verdict, PartitionBefore;
    VerdictMeaning(docs, ring, checkpoint);
    forall i | 0 <= i < |docs| ensures "schema_version" in docs[i] {
      assert Linked(Links(docs, ring), i);
    }
  }

  /** Checkpoints pin what comes before them if and only if the keyring has no usable key for unversioned documents. */
  lemma CheckpointsPinWithoutLegacyKey(ring: Keyring)
    requires CollisionFree(ring.sm3)
    ensures CheckpointsPin(ring) <==> !ChecksUnversioned(ring)
  {
    hide Accepts;
    if ChecksUnversioned(ring) {
      UnversionedDocumentsAreNotPinned(ring, Null);
      var a: Doc, b: Doc :| a != b && Accepts([a], ring, FirstHead("m")) && Accepts([b], ring, FirstHead("m"));
      assert [a][..1][0] != [b][..1][0];
      assert !AgreeUpTo([a], [b], FirstHead("m"));
    } else {
      forall a, b, checkpoint
        | checkpoint != map[] && Accepts(a, ring, checkpoint) && Accepts(b, ring, checkpoint)
        ensures AgreeUpTo(a, b, checkpoint)
      {
        AcceptedIsVersioned(a, ring, checkpoint);
        AcceptedIsVersioned(b, ring, checkpoint);
        CheckpointPinsPrefix(a, ring, b, ring, checkpoint);
      }
    }
  }

  /* ---------- When there is no verdict ---------- */

  /** The last integer sequence among the first `n` documents. */
  function LastNumber(links: seq<Link>, n: nat): int
    requires n <= |links|
  {
    if n == 0 then 0
    else if AsInt(links[n - 1].sequence).Some? then AsInt(links[n - 1].sequence).value
    else LastNumber(links, n - 1)
  }

  /** The MAC of the last of them that has the checkpointed sequence. */
  function LastObserved(links: seq<Link>, n: nat, checkpointSequence: Json): Json
    requires n <= |links|
  {
    if n == 0 then Null
    else if PyEq(links[n - 1].sequence, checkpointSequence) then links[n - 1].mac
    else LastObserved(links, n - 1, checkpointSequence)
  }

  lemma {:induction false} ScanOfUnbroken(links: seq<Link>, n: nat, checkpointSequence: Json)
    requires n <= |links| && forall i :: 0 <= i < n ==> Breaks(links[i]) == None
    ensures var s := ScanPrefix(links, n, checkpointSequence);
            && s.Ok? && s.value.previousSequence == LastNumber(links, n)
            && s.value.observedMac == LastObserved(links, n, checkpointSequence)
  {
    hide PyEq, Breaks, When, SequenceFault;
    if n > 0 { ScanOfUnbroken(links, n - 1, checkpointSequence); }
  }

  /** The check comes to comparing the checkpoint's MAC with one that is, or it is itself, not an ASCII text. */
  predicate ComparesOtherText(links: seq<Link>, checkpoint: Doc) {
    && checkpoint != map[] && AsInt(Get(checkpoint, "sequence")).Some?
    && 1 <= AsInt(Get(checkpoint, "sequence")).value <= LastNumber(links, |links|)
    && var observed := LastObserved(links, |links|, Get(checkpoint, "sequence"));
       observed != Null && (!IsAscii(CheckpointMac(checkpoint)) || !IsAscii(AsText(observed)))
  }

  ghost predicate FirstBreak(links: seq<Link>, i: nat)
    requires i < |links|
  {
    Breaks(links[i]).Some? && forall j :: 0 <= j < i ==> Breaks(links[j]) == None
  }

  /**
   `verify_chain` raises if and only if one of the documents makes it raise, and then the exception of
   the first such, or else if it comes to compare a MAC text that is not ASCII.
   */
  lemma VerdictRaises(docs: seq<Doc>, ring: Keyring, checkpoint: Doc)
    ensures var v, links := Verdict(docs, ring, checkpoint), Links(docs, ring);
            && (forall i :: 0 <= i < |docs| && FirstBreak(links, i) ==> v == Err(Breaks(links[i]).value))
            && ((forall i :: 0 <= i < |docs| ==> Breaks(links[i]) == None) ==>
                  if ComparesOtherText(links, checkpoint) then v == Err(TypeError) else v.Ok?)
  {
    hide LinkOf, Breaks, IsAscii, AsText, LastNumber, LastObserved;
    var links := Links(docs, ring);
    var checkpointSequence := Get(checkpoint, "sequence");
    forall i | 0 <= i < |docs| && FirstBreak(links, i)
      ensures Verdict(docs, ring, checkpoint) == Err(Breaks(links[i]).value)
    {
      ScanOfUnbroken(links, i, checkpointSequence);
      ScanFailsForGood(links, i + 1, |links|, checkpointSequence);
    }
    if forall i :: 0 <= i < |docs| ==> Breaks(links[i]) == None {
      ScanOfUnbroken(links, |links|, checkpointSequence);
    }
  }
}
