/**
 What normalisation keeps: it does not see the order of a mapping's entries, it is idempotent,
 and the canonical copy an outbox row stores normalises to itself when the event is signed later.
 */
module Normalization {
  import opened Prelude
  import opened CanonicalJson
  import JsonParser

  /** A Python dict never holds two entries with one key. */
  ghost predicate DistinctKeys(entries: seq<PyEntry>) {
    forall i, j :: 0 <= i < j < |entries| ==> entries[i].key != entries[j].key
  }

  /** Equal up to the order in which mappings, at any depth, list their entries. */
  ghost predicate SameUpToOrder(v: PyValue, w: PyValue)
    decreases v, 1
  {
    match (v, w)
    case (PyList(a), PyList(b)) =>
      |a| == |b| && forall i :: 0 <= i < |a| ==> SameUpToOrder(a[i], b[i])
    case (PyDict(a), PyDict(b)) =>
      && DistinctKeys(a) && DistinctKeys(b)
      && (forall e :: e in a ==> exists f :: f in b && SameEntry(e, f))
      && (forall f :: f in b ==> exists e :: e in a && SameEntry(e, f))
    case _ => v == w
  }

  ghost predicate SameEntry(e: PyEntry, f: PyEntry)
    decreases e, 0
  {
    e.key == f.key && SameUpToOrder(e.value, f.value)
  }

  lemma {:induction false} ItemsMeaning(elements: seq<PyValue>)
    ensures NormalizeItems(elements).Some? <==> forall i :: 0 <= i < |elements| ==> Normalize(elements[i]).Some?
    ensures NormalizeItems(elements).Some? ==>
              && |NormalizeItems(elements).value| == |elements|
              && forall i :: 0 <= i < |elements| ==> Normalize(elements[i]) == Some(NormalizeItems(elements).value[i])
  {
    if elements != [] {
      var rest := elements[1..];
      ItemsMeaning(rest);
      assert forall i :: 0 < i < |elements| ==> elements[i] == rest[i - 1];
      if NormalizeItems(rest).Some? {
        forall i | 0 < i < |elements| ensures Normalize(elements[i]).Some? {
          assert elements[i] == rest[i - 1];
        }
      } else {
        var i :| 0 <= i < |rest| && !Normalize(rest[i]).Some?;
        assert !Normalize(elements[i + 1]).Some?;
      }
    }
  }

  /** What the entries normalise to, without their order. */
  ghost function Images(entries: seq<PyEntry>): set<Option<(string, Json)>> {
    set e | e in entries :: NormalizeEntry(e)
  }

  lemma ImagesOfRest(entries: seq<PyEntry>)
    requires entries != []
    ensures Images(entries) == Images(entries[1..]) + {NormalizeEntry(entries[0])}
  {
    assert forall e :: e in entries <==> e == entries[0] || e in entries[1..];
  }

  /** The normalised mapping holds exactly the members its entries normalise to. */
  lemma {:induction false} EntriesMeaning(entries: seq<PyEntry>)
    requires DistinctKeys(entries)
    ensures NormalizeEntries(entries).Some? <==> None !in Images(entries)
    ensures NormalizeEntries(entries).Some? ==>
              var m := NormalizeEntries(entries).value;
              forall key, value :: Some((key, value)) in Images(entries) <==> key in m && m[key] == value
  {
    if entries != [] {
      var rest := entries[1..];
      EntriesMeaning(rest);
      ImagesOfRest(entries);
      if NormalizeEntries(entries).Some? {
        var (key, value) := NormalizeEntry(entries[0]).value;
        HeadKeyIsFresh(entries);
      }
    }
  }

  /**
   Which values normalise, and to what: texts, truth values, whole numbers, nothing, moments of a known
   time zone, identifiers, and lists and mappings of such, the mappings under texts only.
   */
  lemma NormalizeMeaning(v: PyValue)
    ensures match v
            case PyNone => Normalize(v) == Some(Null)
            case PyBool(b) => Normalize(v) == Some(Bool(b))
            case PyInt(n) => Normalize(v) == Some(Int(n))
            case PyStr(s) => Normalize(v) == Some(Str(s))
            case PyDatetime(Some(text)) => Normalize(v) == Some(Str(text))
            case PyDatetime(None) => Normalize(v) == None
            case PyUuid(text) => Normalize(v) == Some(Str(text))
            case PyFloat => Normalize(v) == None
            case PyOther => Normalize(v) == None
            case PyList(elements) =>
              && (Normalize(v).Some? <==> forall i :: 0 <= i < |elements| ==> Normalize(elements[i]).Some?)
              && (Normalize(v).Some? ==>
                    && Normalize(v).value.Arr? && |Normalize(v).value.items| == |elements|
                    && forall i :: 0 <= i < |elements| ==>
                         Normalize(elements[i]) == Some(Normalize(v).value.items[i]))
            case PyDict(entries) =>
              && (Normalize(v).Some? <==> forall e :: e in entries ==> e.key.PyStr? && Normalize(e.value).Some?)
              && (Normalize(v).Some? ==>
                    && Normalize(v).value.Obj?
                    && (DistinctKeys(entries) ==> forall key, value :: IsEntry(entries, key, value) <==>
                          key in Normalize(v).value.members && Normalize(v).value.members[key] == value))
  {
    hide NormalizeItems, NormalizeEntries, NormalizeEntry, IsEntry, Images;
    if v.PyList? { ItemsMeaning(v.elements); }
    if v.PyDict? {
      EntriesNormalize(v.entries);
      if NormalizeEntries(v.entries).Some? && DistinctKeys(v.entries) {
        EntriesMeaning(v.entries);
        forall key, value
          ensures IsEntry(v.entries, key, value) <==> Some((key, value)) in Images(v.entries)
        {
          ImageMeaning(v.entries, key, value);
        }
      }
    }
  }

  /** The mapping has this key with a value that normalises to this one. */
  ghost predicate IsEntry(entries: seq<PyEntry>, key: string, value: Json) {
    exists e :: e in entries && e.key == PyStr(key) && Normalize(e.value) == Some(value)
  }

  lemma ImageMeaning(entries: seq<PyEntry>, key: string, value: Json)
    ensures IsEntry(entries, key, value) <==> Some((key, value)) in Images(entries)
  {
    hide Normalize;
    if IsEntry(entries, key, value) {
      var e :| e in entries && e.key == PyStr(key) && Normalize(e.value) == Some(value);
      assert NormalizeEntry(e) == Some((key, value));
    }
    if Some((key, value)) in Images(entries) {
      var e :| e in entries && NormalizeEntry(e) == Some((key, value));
      assert e.key == PyStr(key);
    }
  }

  lemma {:induction false} EntriesNormalize(entries: seq<PyEntry>)
    ensures NormalizeEntries(entries).Some? <==> forall e :: e in entries ==> e.key.PyStr? && Normalize(e.value).Some?
  {
    if entries != [] {
      EntriesNormalize(entries[1..]);
      assert forall e :: e in entries <==> e == entries[0] || e in entries[1..];
    }
  }

  lemma HeadKeyIsFresh(entries: seq<PyEntry>)
    requires entries != [] && DistinctKeys(entries) && NormalizeEntry(entries[0]).Some?
    ensures forall value :: Some((NormalizeEntry(entries[0]).value.0, value)) !in Images(entries[1..])
  {
    forall e | e in entries[1..] ensures e.key != entries[0].key {
      var i :| 0 <= i < |entries[1..]| && entries[1..][i] == e;
      assert e == entries[i + 1];
    }
  }

  /* ---------- Order does not matter ---------- */

  /** Normalising a mapping only looks at what its entries normalise to. */
  lemma SameImages(a: seq<PyEntry>, b: seq<PyEntry>)
    requires DistinctKeys(a) && DistinctKeys(b) && Images(a) == Images(b)
    ensures NormalizeEntries(a) == NormalizeEntries(b)
  {
    EntriesMeaning(a);
    EntriesMeaning(b);
    if NormalizeEntries(a).Some? {
      var m, n := NormalizeEntries(a).value, NormalizeEntries(b).value;
      forall key | key in m ensures key in n && n[key] == m[key] {
        assert Some((key, m[key])) in Images(b);
      }
      forall key | key in n ensures key in m {
        assert Some((key, n[key])) in Images(a);
      }
      assert m == n;
    }
  }

  lemma {:induction false} NormalizeIgnoresOrder(v: PyValue, w: PyValue)
    requires SameUpToOrder(v, w)
    ensures Normalize(v) == Normalize(w)
    decreases v, 1
  {
    if v.PyList? && w.PyList? {
      forall i | 0 <= i < |v.elements| ensures Normalize(v.elements[i]) == Normalize(w.elements[i]) {
        NormalizeIgnoresOrder(v.elements[i], w.elements[i]);
      }
      SameItems(v.elements, w.elements);
    } else if v.PyDict? && w.PyDict? {
      ImagesIncluded(v.entries, w.entries);
      ImagesIncludedBack(v.entries, w.entries);
      SameImages(v.entries, w.entries);
    }
  }

  lemma {:induction false} ImagesIncluded(a: seq<PyEntry>, b: seq<PyEntry>)
    requires forall e :: e in a ==> exists f :: f in b && SameEntry(e, f)
    ensures Images(a) <= Images(b)
    decreases a, 0
  {
    forall x | x in Images(a) ensures x in Images(b) {
      var e :| e in a && NormalizeEntry(e) == x;
      var f :| f in b && SameEntry(e, f);
      SameEntryNormalizes(e, f);
    }
  }

  lemma {:induction false} ImagesIncludedBack(a: seq<PyEntry>, b: seq<PyEntry>)
    requires forall f :: f in b ==> exists e :: e in a && SameEntry(e, f)
    ensures Images(b) <= Images(a)
    decreases a, 0
  {
    forall x | x in Images(b) ensures x in Images(a) {
      var f :| f in b && NormalizeEntry(f) == x;
      var e :| e in a && SameEntry(e, f);
      SameEntryNormalizes(e, f);
    }
  }

  lemma SameItems(a: seq<PyValue>, b: seq<PyValue>)
    requires |a| == |b| && forall i :: 0 <= i < |a| ==> Normalize(a[i]) == Normalize(b[i])
    ensures NormalizeItems(a) == NormalizeItems(b)
  {
    ItemsMeaning(a);
    ItemsMeaning(b);
    if NormalizeItems(a).Some? {
      assert NormalizeItems(a).value == NormalizeItems(b).value;
    }
  }

  lemma {:induction false} SameEntryNormalizes(e: PyEntry, f: PyEntry)
    requires SameEntry(e, f)
    ensures NormalizeEntry(e) == NormalizeEntry(f)
    decreases e, 0
  {
    NormalizeIgnoresOrder(e.value, f.value);
  }

  /* ---------- Idempotence ---------- */

  /** A normalised value normalises to itself. */
  lemma {:induction false} NormalizeLift(j: Json)
    ensures Normalize(Lift(j)) == Some(j)
  {
    match j
    case Arr(items) =>
      var elements := Lift(j).elements;
      forall i | 0 <= i < |items| ensures Normalize(elements[i]) == Some(items[i]) {
        NormalizeLift(items[i]);
      }
      ItemsMeaning(elements);
      assert NormalizeItems(elements).value == items;
    case Obj(members) =>
      var keys := SortedKeys(members.Keys);
      var entries := Lift(j).entries;
      assert forall k :: k in keys <==> k in Elements(keys);
      forall i | 0 <= i < |keys| ensures keys[i] in members
          && NormalizeEntry(entries[i]) == Some((keys[i], members[keys[i]])) {
        assert keys[i] in Elements(keys);
        NormalizeLift(members[keys[i]]);
      }
      LiftedEntries(members, keys, entries);
    case _ =>
  }

  lemma LiftedEntries(members: map<string, Json>, keys: seq<string>, entries: seq<PyEntry>)
    requires Elements(keys) == members.Keys && Distinct(keys) && |entries| == |keys|
    requires forall i :: 0 <= i < |keys| ==>
               keys[i] in members && entries[i].key == PyStr(keys[i]) &&
               NormalizeEntry(entries[i]) == Some((keys[i], members[keys[i]]))
    ensures NormalizeEntries(entries) == Some(members)
  {
    hide NormalizeEntry, NormalizeEntries;
    forall key, value ensures Some((key, value)) in Images(entries) <==> key in members && members[key] == value {
      if key in members {
        assert key in Elements(keys);
        var i :| 0 <= i < |keys| && keys[i] == key;
        assert entries[i] in entries;
      }
    }
    MembersFromImages(entries, members);
  }

  lemma MembersFromImages(entries: seq<PyEntry>, members: map<string, Json>)
    requires DistinctKeys(entries) && None !in Images(entries)
    requires forall key, value :: Some((key, value)) in Images(entries) <==> key in members && members[key] == value
    ensures NormalizeEntries(entries) == Some(members)
  {
    hide Images, NormalizeEntries;
    EntriesMeaning(entries);
    var m := NormalizeEntries(entries).value;
    assert forall key :: key in m ==> Some((key, m[key])) in Images(entries);
    assert forall key :: key in members ==> Some((key, members[key])) in Images(entries);
    assert m == members;
  }

  /* ---------- Theorems ---------- */

  /** `_canonical_value`: decode the canonical text again. */
  ghost function CanonicalValue(v: PyValue): Option<Json> {
    match Normalize(v)
    case None => None
    case Some(j) => JsonParser.Parse(Text(j))
  }

  /** The copy an outbox row keeps is the normalised value, and signing it later keeps it. */
  lemma CanonicalValueIsStable(v: PyValue)
    ensures CanonicalValue(v) == Normalize(v)
    ensures CanonicalValue(v).Some? ==>
              && Normalize(Lift(CanonicalValue(v).value)) == CanonicalValue(v)
              && CanonicalBytes(Lift(CanonicalValue(v).value)) == CanonicalBytes(v)
  {
    if Normalize(v).Some? {
      JsonParser.ParseInvertsText(Normalize(v).value);
      NormalizeLift(Normalize(v).value);
    }
  }

  /** The signed bytes do not depend on the order of mapping entries. */
  lemma CanonicalBytesIgnoreOrder(v: PyValue, w: PyValue)
    requires SameUpToOrder(v, w)
    ensures CanonicalBytes(v) == CanonicalBytes(w)
  {
    NormalizeIgnoresOrder(v, w);
  }

  /** Two values are signed with the same bytes exactly when they normalise to the same value. */
  lemma CanonicalBytesDetermineValue(v: PyValue, w: PyValue)
    ensures CanonicalBytes(v) == CanonicalBytes(w) <==> Normalize(v) == Normalize(w)
  {
    if CanonicalBytes(v) == CanonicalBytes(w) && Normalize(v).Some? {
      JsonParser.BytesInjective(Normalize(v).value, Normalize(w).value);
    }
  }
}
