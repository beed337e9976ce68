/** Signed audit documents (security/audit.py): signing, and the checks of one document. */
module AuditDocuments {
  import opened Prelude
  import opened CanonicalJson
  import opened Decimals
  import JsonParser
  import Utf8

  type Doc = map<string, Json>
  type Key = seq<Utf8.byte>

  /** A key `sm3_hmac` works with; any other length fails its assertion. */
  const MAC_KEY_BYTES := 32

  type MacKey = k: Key | |k| == MAC_KEY_BYTES witness seq(MAC_KEY_BYTES, _ => 0)

  /** A MAC is a hexadecimal text. */
  type MacText = s: string | s != "" && IsAscii(s) witness "0"

  /**
   The signing keys, and HMAC-SM3 as a function of key and message. `legacyBytes` is the encoder
   that unversioned documents were signed with.
   */
  datatype Keyring = Keyring(
    active: string,
    keys: map<string, Key>,
    legacyKeyId: string,
    sm3: (MacKey, seq<Utf8.byte>) -> MacText,
    legacyBytes: Json -> seq<Utf8.byte>)

  /** What `AuditKeyring.__post_init__` insists on. */
  ghost predicate ValidKeyring(ring: Keyring) {
    && ring.active in ring.keys
    && forall id :: id in ring.keys ==> id != "" && |ring.keys[id]| >= 32
  }

  /** Distinct keys of the right length, or distinct messages, have distinct MACs. */
  ghost predicate CollisionFree(sm3: (MacKey, seq<Utf8.byte>) -> MacText) {
    forall k1: MacKey, m1, k2: MacKey, m2 :: sm3(k1, m1) == sm3(k2, m2) ==> k1 == k2 && m1 == m2
  }

  /** `ring2` still knows every key of `ring1`: keys are added and the active one changes, none goes. */
  ghost predicate KeepsKeys(ring1: Keyring, ring2: Keyring) {
    && ring1.sm3 == ring2.sm3
    && forall id :: id in ring1.keys ==> id in ring2.keys && ring2.keys[id] == ring1.keys[id]
  }

  const SCHEMA_VERSION := 1
  const ALGORITHM := "HMAC-SM3"

  const IMMUTABLE_FIELDS: set<string> := {
    "schema_version", "event_id", "event_type", "occurred_at", "actor", "target", "context", "change", "outcome"
  }
  const REQUIRED_FIELDS: set<string> := IMMUTABLE_FIELDS + {"_id", "ingested_at", "integrity"}
  const REQUIRED_INTEGRITY: set<string> := {"algorithm", "key_id", "partition", "sequence", "previous_mac", "mac"}

  /* ---------- Python's view of JSON values ---------- */

  /** `doc.get(key)`: a missing key reads as None. */
  function Get(doc: Doc, key: string): Json {
    if key in doc then doc[key] else Null
  }

  /** Booleans are the integers 0 and 1 when Python compares values. */
  function Numeric(j: Json): Json {
    match j
    case Bool(b) => Int(if b then 1 else 0)
    case Arr(items) => Arr(seq(|items|, i requires 0 <= i < |items| => Numeric(items[i])))
    case Obj(members) => Obj(map k | k in members :: Numeric(members[k]))
    case _ => j
  }

  /** `a == b`. */
  predicate PyEq(a: Json, b: Json) {
    Numeric(a) == Numeric(b)
  }

  /** `isinstance(j, int)` and its value. */
  function AsInt(j: Json): Option<int> {
    match j
    case Int(n) => Some(n)
    case Bool(b) => Some(if b then 1 else 0)
    case _ => None
  }

  /** `str(j)`; exact for everything but containers, whose text plays no part. */
  function AsText(j: Json): string {
    match j
    case Str(s) => s
    case Null => "None"
    case Bool(b) => if b then "True" else "False"
    case Int(n) => EmitInt(n, "")
    case _ => Text(j)
  }

  /** Equality as Python has it: by structure, except that True is 1 and False is 0. */
  lemma PyEqMeaning(a: Json, b: Json)
    ensures PyEq(a, b) <==>
            match (a, b)
            case (Obj(m), Obj(n)) => m.Keys == n.Keys && forall k :: k in m ==> PyEq(m[k], n[k])
            case (Arr(x), Arr(y)) => |x| == |y| && forall i :: 0 <= i < |x| ==> PyEq(x[i], y[i])
            case _ => a == b || (AsInt(a).Some? && AsInt(a) == AsInt(b))
  {
    match (a, b)
    case (Obj(m), Obj(n)) =>
      var x, y := Numeric(a).members, Numeric(b).members;
      assert x.Keys == m.Keys && y.Keys == n.Keys;
      if m.Keys == n.Keys && (forall k :: k in m ==> PyEq(m[k], n[k])) { assert x == y; }
      if x == y {
        forall k | k in m ensures k in n && PyEq(m[k], n[k]) { assert x[k] == y[k]; }
      }
    case (Arr(m), Arr(n)) =>
      var x, y := Numeric(a).items, Numeric(b).items;
      if |m| == |n| && (forall i :: 0 <= i < |m| ==> PyEq(m[i], n[i])) { assert x == y; }
      if x == y {
        forall i | 0 <= i < |m| ensures |m| == |n| && PyEq(m[i], n[i]) { assert x[i] == y[i]; }
      }
    case _ =>
  }

  /** The text of a value that is not a text, where it stands for a key or a MAC. */
  lemma AsTextMeaning(n: int)
    ensures AsText(Null) == "None" && AsText(Bool(true)) == "True" && AsText(Bool(false)) == "False"
    ensures n >= 0 ==> AsText(Int(n)) == Digits(n)
    ensures n < 0 ==> AsText(Int(n)) == "-" + Digits(-n)
  {
    EmitsDigits(if n < 0 then -n else n, "");
  }

  lemma {:induction false} EmitsDigits(n: nat, rest: string)
    ensures EmitNat(n, rest) == Digits(n) + rest
  {
    if n >= 10 { EmitsDigits(n / 10, [('0' as int + n % 10) as char] + rest); }
  }

  function KeyFor(ring: Keyring, id: string): Option<Key> {
    if id != "" && id in ring.keys then Some(ring.keys[id]) else None
  }

  /* ---------- Signing ---------- */

  /** The part of a document its MAC covers: everything but the MAC. */
  function Unsigned(doc: Doc): Doc
    requires Get(doc, "integrity").Obj?
  {
    doc["integrity" := Obj(doc["integrity"].members - {"mac"})]
  }

  function EventMac(doc: Doc, key: MacKey, ring: Keyring): MacText
    requires Get(doc, "integrity").Obj?
  {
    ring.sm3(key, Bytes(Obj(Unsigned(doc))))
  }

  /** The content of an event as an outbox row stores it; every field is normalised. */
  datatype Event = Event(
    eventId: string, eventType: string, occurredAt: string,
    actor: Json, target: Json, context: Json, change: Json, outcome: Json)

  /** The row's `event` mapping. */
  function EventFields(e: Event): Doc {
    map[
      "schema_version" := Int(SCHEMA_VERSION), "event_id" := Str(e.eventId), "event_type" := Str(e.eventType),
      "occurred_at" := Str(e.occurredAt), "actor" := e.actor, "target" := e.target, "context" := e.context,
      "change" := e.change, "outcome" := e.outcome]
  }

  /** `if j:` */
  predicate Truthy(j: Json) {
    match j
    case Null => false
    case Bool(b) => b
    case Int(n) => n != 0
    case Str(s) => s != ""
    case Arr(items) => items != []
    case Obj(members) => members != map[]
  }

  const DEFAULT_OUTCOME := Obj(map["status" := Str("success"), "error_code" := Null])

  /** The `or` defaults `create_signed_event` puts in the place of empty arguments; an identifier is always given. */
  function WithDefaults(e: Event, now: string): Event {
    e.(occurredAt := if e.occurredAt != "" then e.occurredAt else now,
       context := if Truthy(e.context) then e.context else Obj(map[]),
       outcome := if Truthy(e.outcome) then e.outcome else DEFAULT_OUTCOME)
  }

  /** No default of `create_signed_event` applies, so signing changes no field. */
  predicate Complete(e: Event) {
    e.occurredAt != "" && Truthy(e.context) && Truthy(e.outcome)
  }

  function Integrity(partition: string, sequence: int, previousMac: Json, keyId: string, mac: Json): Doc {
    map[
      "algorithm" := Str(ALGORITHM), "key_id" := Str(keyId), "partition" := Str(partition),
      "sequence" := Int(sequence), "previous_mac" := previousMac, "mac" := mac]
  }

  /** The document before its MAC is filled in. */
  function Draft(e: Event, ingestedAt: string, partition: string, sequence: int, previousMac: Json,
      keyId: string): Doc {
    EventFields(e)["_id" := Str(e.eventId)]["ingested_at" := Str(ingestedAt)]
      ["integrity" := Obj(Integrity(partition, sequence, previousMac, keyId, Null))]
  }

  /** The active key has the length that signing needs. */
  predicate CanSign(ring: Keyring) {
    ring.active in ring.keys && |ring.keys[ring.active]| == MAC_KEY_BYTES
  }

  /** The document of an event whose fields are settled. */
  function Sealed(e: Event, ingestedAt: string, partition: string, sequence: int, previousMac: Json, ring: Keyring): Doc
    requires CanSign(ring)
  {
    var draft := Draft(e, ingestedAt, partition, sequence, previousMac, ring.active);
    var mac := EventMac(draft, ring.keys[ring.active], ring);
    draft["integrity" := Obj(Integrity(partition, sequence, previousMac, ring.active, Str(mac)))]
  }

  /** `create_signed_event`; None stands for the AssertionError of a key that is not of 32 bytes. */
  function SignedEvent(
    e: Event, ingestedAt: string, partition: string, sequence: int, previousMac: Json, ring: Keyring): Option<Doc>
    requires ring.active in ring.keys
  {
    if CanSign(ring) then Some(Sealed(WithDefaults(e, ingestedAt), ingestedAt, partition, sequence, previousMac,
        ring)) else None
  }

  /* ---------- Checking one document ---------- */

  datatype Reason =
    | MissingFields | UnknownKeyId | MacMismatch | UnsupportedSchema | IdMismatch | UnsupportedAlgorithm | InvalidMac
    | PartitionMismatch | SequenceGap | SequenceMismatch | PreviousMacMismatch
    | CheckpointPartitionMismatch | CheckpointSequenceInvalid | TailTruncated
    | CheckpointSequenceMissing | CheckpointMacMismatch

  datatype Exception = AssertionError | TypeError | AttributeError

  /** How a check of one document ends: with a result, or with an exception that nobody catches. */
  datatype Verification = Passes | Fails(reason: Reason) | Raises(exception: Exception)

  /** `sm3_hmac` of a key and `hmac.compare_digest` with a supplied text. */
  function CheckMac(
    key: Key, bytes: seq<Utf8.byte>, supplied: Json, sm3: (MacKey, seq<Utf8.byte>) -> MacText): Verification
  {
    if |key| != MAC_KEY_BYTES then Raises(AssertionError)
    else if !supplied.Str? then Fails(InvalidMac)
    else if !IsAscii(supplied.s) then Raises(TypeError)
    else if supplied.s != sm3(key, bytes) then Fails(MacMismatch)
    else Passes
  }

  /** `verify_document`. */
  function Verify(doc: Doc, ring: Keyring): Verification {
    if "schema_version" !in doc then VerifyLegacy(doc, ring)
    else if !PyEq(doc["schema_version"], Int(SCHEMA_VERSION)) then Fails(UnsupportedSchema)
    else if !(REQUIRED_FIELDS <= doc.Keys) then Fails(MissingFields)
    else if !doc["integrity"].Obj? || !(REQUIRED_INTEGRITY <= doc["integrity"].members.Keys) then Fails(MissingFields)
    else if !PyEq(doc["_id"], doc["event_id"]) then Fails(IdMismatch)
    else
      var integrity := doc["integrity"].members;
      if !PyEq(integrity["algorithm"], Str(ALGORITHM)) then Fails(UnsupportedAlgorithm)
      else
        match KeyFor(ring, AsText(integrity["key_id"]))
        case None => Fails(UnknownKeyId)
        case Some(key) => CheckMac(key, Bytes(Obj(Unsigned(doc))), integrity["mac"], ring.sm3)
  }

  /** Unversioned documents: only their `data` is signed. */
  function VerifyLegacy(doc: Doc, ring: Keyring): Verification {
    if !({"action", "data", "hmac"} <= doc.Keys) then Fails(MissingFields)
    else
      match KeyFor(ring, ring.legacyKeyId)
      case None => Fails(UnknownKeyId)
      case Some(key) => CheckMac(key, ring.legacyBytes(doc["data"]), Str(AsText(doc["hmac"])), ring.sm3)
  }

  /** A document of schema version 1 that `verify_document` accepts. */
  predicate Genuine(doc: Doc, ring: Keyring) {
    "schema_version" in doc && Verify(doc, ring) == Passes
  }

  /** `document["integrity"][field]` of a document that has it. */
  function Seal(doc: Doc, field: string): Json {
    if Get(doc, "integrity").Obj? then Get(doc["integrity"].members, field) else Null
  }

  /* ---------- What signing and checking promise ---------- */

  lemma IntegrityWithoutMac(partition: string, sequence: int, previousMac: Json, keyId: string, mac: Json)
    ensures Integrity(partition, sequence, previousMac, keyId, mac) - {"mac"} ==
            Integrity(partition, sequence, previousMac, keyId, Null) - {"mac"}
    ensures Integrity(partition, sequence, previousMac, keyId, mac).Keys == REQUIRED_INTEGRITY
  {
  }

  lemma EventFieldNames(e: Event)
    ensures EventFields(e).Keys == IMMUTABLE_FIELDS
    ensures EventFields(e)["event_id"] == Str(e.eventId) && EventFields(e)["schema_version"] == Int(SCHEMA_VERSION)
  {
  }

  lemma SealedFields(e: Event, ingestedAt: string, partition: string, sequence: int, previousMac: Json, ring: Keyring)
    requires CanSign(ring)
    ensures var doc := Sealed(e, ingestedAt, partition, sequence, previousMac, ring);
            && doc.Keys == REQUIRED_FIELDS
            && (forall f :: f in IMMUTABLE_FIELDS ==> f in doc && doc[f] == EventFields(e)[f])
            && doc["_id"] == doc["event_id"] == Str(e.eventId)
  {
    hide EventMac, EventFields, Integrity;
    EventFieldNames(e);
  }

  lemma SealedSeal(e: Event, ingestedAt: string, partition: string, sequence: int, previousMac: Json, ring: Keyring)
    requires CanSign(ring)
    ensures var doc := Sealed(e, ingestedAt, partition, sequence, previousMac, ring);
            && Seal(doc, "partition") == Str(partition) && Seal(doc, "sequence") == Int(sequence)
            && Seal(doc, "previous_mac") == previousMac && Seal(doc, "mac").Str?
                 && Seal(doc, "key_id") == Str(ring.active)
  {
    hide EventMac, EventFields;
  }

  lemma SealedMac(e: Event, ingestedAt: string, partition: string, sequence: int, previousMac: Json, ring: Keyring)
    requires CanSign(ring)
    ensures var doc := Sealed(e, ingestedAt, partition, sequence, previousMac, ring);
            && Get(doc, "integrity").Obj?
            && doc["integrity"].members.Keys == REQUIRED_INTEGRITY
            && doc["integrity"].members["algorithm"] == Str(ALGORITHM)
            && doc["integrity"].members["key_id"] == Str(ring.active)
            && doc["integrity"].members["mac"] == Str(EventMac(doc, ring.keys[ring.active], ring))
  {
    var doc := Sealed(e, ingestedAt, partition, sequence, previousMac, ring);
    var draft := Draft(e, ingestedAt, partition, sequence, previousMac, ring.active);
    var mac := EventMac(draft, ring.keys[ring.active], ring);
    IntegrityWithoutMac(partition, sequence, previousMac, ring.active, Str(mac));
    IntegrityWithoutMac(partition, sequence, previousMac, ring.active, Null);
    assert Unsigned(doc) == Unsigned(draft);
  }

  lemma OwnMacAgrees(doc: Doc, key: MacKey, ring: Keyring)
    requires Get(doc, "integrity").Obj?
    ensures CheckMac(key, Bytes(Obj(Unsigned(doc))), Str(EventMac(doc, key, ring)), ring.sm3) == Passes
  {
    hide Bytes, Unsigned;
  }

  lemma SealedIsGenuine(e: Event, ingestedAt: string, partition: string, sequence: int, previousMac: Json,
      ring: Keyring)
    requires ValidKeyring(ring) && CanSign(ring)
    ensures Genuine(Sealed(e, ingestedAt, partition, sequence, previousMac, ring), ring)
  {
    hide Sealed, EventMac, EventFields, CheckMac, Bytes, Unsigned;
    SealedFields(e, ingestedAt, partition, sequence, previousMac, ring);
    SealedMac(e, ingestedAt, partition, sequence, previousMac, ring);
    assert "schema_version" in IMMUTABLE_FIELDS;
    EventFieldNames(e);
    OwnMacAgrees(Sealed(e, ingestedAt, partition, sequence, previousMac, ring), ring.keys[ring.active], ring);
  }

  /**
   Under a keyring that `AuditKeyring` accepts an event is signed if and only if the active key has
   exactly 32 bytes. It then verifies and carries exactly what it was given, provided no default
   steps in.
   */
  lemma SignedEventIsGenuine(e: Event, ingestedAt: string, partition: string, sequence: int, previousMac: Json,
      ring: Keyring)
    requires ValidKeyring(ring)
    ensures SignedEvent(e, ingestedAt, partition, sequence, previousMac, ring).Some? <==> |ring.keys[ring.active]| == 32
    ensures CanSign(ring) && Complete(e) ==>
              var doc := SignedEvent(e, ingestedAt, partition, sequence, previousMac, ring).value;
              && Genuine(doc, ring)
              && (forall f :: f in IMMUTABLE_FIELDS ==> f in doc && doc[f] == EventFields(e)[f])
              && doc["_id"] == Str(e.eventId)
              && Seal(doc, "partition") == Str(partition) && Seal(doc, "sequence") == Int(sequence)
              && Seal(doc, "previous_mac") == previousMac && Seal(doc, "mac").Str?
                   && Seal(doc, "key_id") == Str(ring.active)
  {
    hide Sealed, Genuine;
    if CanSign(ring) && Complete(e) {
      assert WithDefaults(e, ingestedAt) == e;
      SealedFields(e, ingestedAt, partition, sequence, previousMac, ring);
      SealedSeal(e, ingestedAt, partition, sequence, previousMac, ring);
      SealedIsGenuine(e, ingestedAt, partition, sequence, previousMac, ring);
    }
  }

  /** `AuditKeyring` accepts a key of 33 bytes, with which nothing can be signed and no document checked. */
  lemma LongKeyCannotSign(
      sm3: (MacKey, seq<Utf8.byte>) -> MacText, legacyBytes: Json -> seq<Utf8.byte>, e: Event, now: string,
          partition: string, doc: Doc)
    requires Verify(doc, Keyring("k", map["k" := seq(32, _ => 0)], "", sm3, legacyBytes)) == Passes
    ensures var ring := Keyring("k", map["k" := seq(33, _ => 0)], "", sm3, legacyBytes);
            && ValidKeyring(ring)
            && SignedEvent(e, now, partition, 1, Null, ring) == None
            && Verify(doc, ring) == Raises(AssertionError)
  {
    hide EventMac, Numeric, AsText;
  }

  /**
   Exactly which documents of schema version 1 pass: those with all twelve fields and all six of the
   integrity block, one identifier, the one algorithm, a key of 32 bytes in the keyring, and the MAC
   of everything but the MAC under that key.
   */
  lemma GenuineMeaning(doc: Doc, ring: Keyring)
    ensures Genuine(doc, ring) <==>
            && {"_id", "schema_version", "event_id", "event_type", "occurred_at", "actor", "target", "context",
                 "change",
                "outcome", "ingested_at", "integrity"} <= doc.Keys
            && (doc["schema_version"] == Int(1) || doc["schema_version"] == Bool(true))
            && PyEq(doc["_id"], doc["event_id"])
            && doc["integrity"].Obj?
            && var seal := doc["integrity"].members;
               && {"algorithm", "key_id", "partition", "sequence", "previous_mac", "mac"} <= seal.Keys
               && seal["algorithm"] == Str("HMAC-SM3")
               && var id := AsText(seal["key_id"]);
                  && id != "" && id in ring.keys && |ring.keys[id]| == 32
                  && seal["mac"] == Str(ring.sm3(ring.keys[id], Bytes(Obj(doc["integrity" := Obj(seal - {"mac"})]))))
  {
    hide Bytes, AsText;
  }

  /** And which documents without a schema version pass. */
  lemma LegacyMeaning(doc: Doc, ring: Keyring)
    requires "schema_version" !in doc
    ensures Verify(doc, ring) == Passes <==>
            && {"action", "data", "hmac"} <= doc.Keys
            && ring.legacyKeyId != "" && ring.legacyKeyId in ring.keys && |ring.keys[ring.legacyKeyId]| == 32
            && AsText(doc["hmac"]) == ring.sm3(ring.keys[ring.legacyKeyId], ring.legacyBytes(doc["data"]))
  {
    hide AsText;
  }

  /** Signing puts the present moment, no context and a success in the place of what is not given. */
  lemma DefaultsMeaning(e: Event, now: string)
    ensures var d := WithDefaults(e, now);
            && d.occurredAt == (if e.occurredAt == "" then now else e.occurredAt)
            && (e.context in {Null, Bool(false), Int(0), Str(""), Arr([]), Obj(map[])} ==> d.context == Obj(map[]))
            && (e.context !in {Null, Bool(false), Int(0), Str(""), Arr([]), Obj(map[])} ==> d.context == e.context)
            && (e.outcome in {Null, Bool(false), Int(0), Str(""), Arr([]), Obj(map[])} ==>
                  d.outcome == Obj(map["status" := Str("success"), "error_code" := Null]))
            && (e.outcome !in {Null, Bool(false), Int(0), Str(""), Arr([]), Obj(map[])} ==> d.outcome == e.outcome)
            && d == e.(occurredAt := d.occurredAt, context := d.context, outcome := d.outcome)
  {
  }

  /** Adding keys or changing the active one leaves every genuine document genuine. */
  lemma GenuineUnderMoreKeys(doc: Doc, ring1: Keyring, ring2: Keyring)
    requires Genuine(doc, ring1) && KeepsKeys(ring1, ring2)
    ensures Genuine(doc, ring2)
  {
  }

  /** The name of the key a document says it was signed with. */
  function KeyIdOf(doc: Doc): string {
    AsText(Seal(doc, "key_id"))
  }

  predicate Knows(ring: Keyring, doc: Doc) {
    KeyIdOf(doc) in ring.keys
  }

  /**
   To a keyring with some of the keys a genuine document is valid if it has that document's key, and
   has an unknown key otherwise; there is no third answer.
   */
  lemma GenuineUnderFewerKeys(doc: Doc, ring: Keyring, issued: Keyring)
    requires Genuine(doc, issued) && KeepsKeys(ring, issued)
    ensures Verify(doc, ring) == if Knows(ring, doc) then Passes else Fails(UnknownKeyId)
  {
    hide CheckMac, AsText, Numeric;
    assert KeyFor(issued, KeyIdOf(doc)).Some?;
  }

  lemma GenuineMac(doc: Doc, ring: Keyring) returns (key: MacKey)
    requires Genuine(doc, ring)
    ensures Get(doc, "integrity").Obj? && "mac" in doc["integrity"].members
    ensures doc["integrity"].members["mac"] == Str(EventMac(doc, key, ring)) == Seal(doc, "mac")
  {
    key := KeyFor(ring, AsText(doc["integrity"].members["key_id"])).value;
  }

  lemma UnsignedAndMacDetermineDocument(d1: Doc, d2: Doc)
    requires Get(d1, "integrity").Obj? && Get(d2, "integrity").Obj?
    requires "mac" in d1["integrity"].members && "mac" in d2["integrity"].members
    requires d1["integrity"].members["mac"] == d2["integrity"].members["mac"]
    requires Unsigned(d1) == Unsigned(d2)
    ensures d1 == d2
  {
    var u := Unsigned(d1);
    var i1, i2 := d1["integrity"].members, d2["integrity"].members;
    assert u["integrity"] == Obj(i1 - {"mac"}) == Obj(i2 - {"mac"});
    assert i1 == (i1 - {"mac"})["mac" := i1["mac"]];
    assert i2 == (i2 - {"mac"})["mac" := i2["mac"]];
    assert d1 == u["integrity" := Obj(i1)];
    assert d2 == u["integrity" := Obj(i2)];
  }

  /** Two genuine documents with one MAC are one document, whatever fields they carry. */
  lemma MacDeterminesDocument(d1: Doc, ring1: Keyring, d2: Doc, ring2: Keyring)
    requires Genuine(d1, ring1) && Genuine(d2, ring2)
    requires ring1.sm3 == ring2.sm3 && CollisionFree(ring1.sm3)
    requires Seal(d1, "mac") == Seal(d2, "mac")
    ensures d1 == d2
  {
    var k1 := GenuineMac(d1, ring1);
    var k2 := GenuineMac(d2, ring2);
    JsonParser.BytesInjective(Obj(Unsigned(d1)), Obj(Unsigned(d2)));
    UnsignedAndMacDetermineDocument(d1, d2);
  }
}
