/**
 The two texts that are hashed into fingerprints: the prepare payload and the
 watch configuration. SHA-256 is injective here, so equal fingerprints are equal
 texts.
 */
module PayloadFingerprint {
  import opened ArtifactPolicy
  import opened Utf16
  import opened CanonicalJson
  import opened ManifestPolicy
  import opened TextOrder
  import opened Wrappers

  datatype Payload = Payload(loopId: Text, configRevision: int, baseManifestRevision: int, entries: seq<Entry>)

  /** An object literal: its keys and its values. */
  function Record(keys: seq<Text>, values: seq<Json>): (r: seq<Field>)
    requires |keys| == |values|
    ensures |r| == |keys| && forall i :: 0 <= i < |r| ==> r[i] == Field(keys[i], values[i])
  {
    seq(|keys|, i requires 0 <= i < |keys| => Field(keys[i], values[i]))
  }

  function EntryKeys(): (r: seq<Text>)
    ensures |r| == 3
  {
    [Ascii("path"), Ascii("hash"), Ascii("size")]
  }

  function EntryJson(e: Entry): Json { Obj(Record(EntryKeys(), [Str(e.path), Str(e.hash), Num(Bytes(e))])) }

  function EntriesJson(entries: seq<Entry>): (r: seq<Json>)
    ensures |r| == |entries| && forall i :: 0 <= i < |r| ==> r[i] == EntryJson(entries[i])
  {
    seq(|entries|, i requires 0 <= i < |entries| => EntryJson(entries[i]))
  }

  function PayloadKeys(): (r: seq<Text>)
    ensures |r| == 4
  {
    [Ascii("loopId"), Ascii("configRevision"), Ascii("baseManifestRevision"), Ascii("entries")]
  }

  function PayloadJson(p: Payload): Json {
    Obj(Record(PayloadKeys(),
               [Str(p.loopId), Num(p.configRevision), Num(p.baseManifestRevision), Arr(EntriesJson(p.entries))]))
  }

  function PayloadText(p: Payload): Text { Print(PayloadJson(p)) }

  function Itself(t: Text): Text { t }

  /** Objects with the same distinct keys in the same order are equal up to key
      order only if they are equal value by value. */
  lemma SameKeysSameValues(keys: seq<Text>, a: seq<Json>, b: seq<Json>)
    requires |a| == |b| == |keys| && DistinctKeys(keys, Itself)
    requires Canon(Obj(Record(keys, a))) == Canon(Obj(Record(keys, b)))
    ensures forall i :: 0 <= i < |a| ==> Canon(a[i]) == Canon(b[i])
  {
    var x, y := CanonFields(Record(keys, a)), CanonFields(Record(keys, b));
    assert SortBy(x, KeyOf) == SortBy(y, KeyOf);
    hide SortBy, Canon, Record;
    forall i, j | 0 <= i < j < |x| ensures KeyOf(x[i]) != KeyOf(x[j]) {
      assert Itself(keys[i]) != Itself(keys[j]);
    }
    SameKeysSortAlike(x, y, KeyOf);
  }

  lemma KeysDistinct()
    ensures DistinctKeys(EntryKeys(), Itself) && DistinctKeys(PayloadKeys(), Itself) && DistinctKeys(ItemKeys(), Itself)
  {
    var e, p, w := EntryKeys(), PayloadKeys(), ItemKeys();
    assert e[0][0] == 0x70 && e[1][0] == 0x68 && e[2][0] == 0x73;
    assert |p[0]| == 6 && |p[1]| == 14 && |p[2]| == 20 && |p[3]| == 7;
    assert |w[0]| == 6 && |w[1]| == 11 && |w[2]| == 7 && |w[3]| == 5 && |w[4]| == 14;
  }

  lemma EntryPrintsItself(a: Entry, b: Entry)
    requires a.size.Whole? && b.size.Whole? && a.size.n >= 0 && b.size.n >= 0
    requires Canon(EntryJson(a)) == Canon(EntryJson(b))
    ensures a == b
  {
    KeysDistinct();
    var x, y := [Str(a.path), Str(a.hash), Num(Bytes(a))], [Str(b.path), Str(b.hash), Num(Bytes(b))];
    SameKeysSameValues(EntryKeys(), x, y);
    hide EntryKeys, Record, SortBy, DistinctKeys;
    assert Canon(x[0]) == Canon(y[0]) && Canon(x[1]) == Canon(y[1]) && Canon(x[2]) == Canon(y[2]);
  }

  ghost predicate Measured(entries: seq<Entry>) {
    forall i :: 0 <= i < |entries| ==> entries[i].size.Whole? && entries[i].size.n >= 0
  }

  /** The payload text determines the payload, and nothing else. */
  lemma PayloadTextInjective(p: Payload, q: Payload)
    requires Measured(p.entries) && Measured(q.entries)
    ensures PayloadText(p) == PayloadText(q) <==> p == q
  {
    if PayloadText(p) == PayloadText(q) {
      SamePrintSameCanon(PayloadJson(p), PayloadJson(q));
      KeysDistinct();
      var x := [Str(p.loopId), Num(p.configRevision), Num(p.baseManifestRevision), Arr(EntriesJson(p.entries))];
      var y := [Str(q.loopId), Num(q.configRevision), Num(q.baseManifestRevision), Arr(EntriesJson(q.entries))];
      SameKeysSameValues(PayloadKeys(), x, y);
      hide PayloadKeys, EntryKeys, Record, SortBy, Print, DistinctKeys, EntryJson;
      assert Canon(x[0]) == Canon(y[0]) && Canon(x[1]) == Canon(y[1]) && Canon(x[2]) == Canon(y[2])
        && Canon(x[3]) == Canon(y[3]);
      EntriesPrintThemselves(p.entries, q.entries);
    }
  }

  lemma EntriesPrintThemselves(a: seq<Entry>, b: seq<Entry>)
    requires Measured(a) && Measured(b) && Canon(Arr(EntriesJson(a))) == Canon(Arr(EntriesJson(b)))
    ensures a == b
  {
    var x, y := CanonAll(EntriesJson(a)), CanonAll(EntriesJson(b));
    assert x == y;
    hide Canon, EntryJson;
    forall i | 0 <= i < |a| ensures a[i] == b[i] {
      assert x[i] == y[i];
      EntryPrintsItself(a[i], b[i]);
    }
  }

  /** Two accepted prepare requests have the same fingerprint exactly when their
      loop, their revisions and their sets of entries are equal, whatever the order
      the entries came in. */
  lemma SamePrintSamePayload(loop1: Text, config1: int, base1: int, a: seq<Entry>, loop2: Text, config2: int,
                             base2: int, b: seq<Entry>)
    requires Acceptable(a) && Acceptable(b)
    ensures PayloadText(Payload(loop1, config1, base1, SortByPath(a)))
      == PayloadText(Payload(loop2, config2, base2, SortByPath(b)))
      <==> loop1 == loop2 && config1 == config2 && base1 == base2 && SameElements(a, b)
  {
    AcceptedAreMeasured(a);
    AcceptedAreMeasured(b);
    PayloadTextInjective(Payload(loop1, config1, base1, SortByPath(a)), Payload(loop2, config2, base2, SortByPath(b)));
    SoundKeys(a);
    SoundKeys(b);
    hide Acceptable, PayloadText;
    if SameElements(a, b) { SortForgetsOrder(a, b, PathOf); }
  }

  lemma AcceptedAreMeasured(entries: seq<Entry>)
    requires Acceptable(entries)
    ensures Measured(SortByPath(entries))
  {
    var s := SortByPath(entries);
    forall i | 0 <= i < |s| ensures s[i].size.Whole? && s[i].size.n >= 0 {
      assert s[i] in entries;
      var j :| 0 <= j < |entries| && entries[j] == s[i];
      assert EntryFailure(entries[j]).None?;
    }
  }

  // ---- The watch configuration ----

  datatype WatchItem = WatchItem(loopId: Text, artifactDir: Text, workdir: Option<Text>, roots: seq<Text>,
                                 configRevision: int)

  function LoopOf(i: WatchItem): Text { i.loopId }

  /** `[...new Set(roots)]`. */
  function Unique(s: seq<Text>): (r: seq<Text>)
    ensures (forall x :: x in r <==> x in s) && DistinctKeys(r, Itself)
  {
    if s == [] then []
    else
      var before := Unique(s[..|s| - 1]);
      assert s == s[..|s| - 1] + [s[|s| - 1]];
      if s[|s| - 1] in before then before else before + [s[|s| - 1]]
  }

  function NormalRoots(roots: seq<Text>): seq<Text> { SortBy(Unique(roots), Itself) }

  /** Roots are a set: two lists normalize alike exactly when they hold the same roots. */
  lemma RootsAreASet(a: seq<Text>, b: seq<Text>)
    ensures NormalRoots(a) == NormalRoots(b) <==> SameElements(a, b)
  {
    if SameElements(a, b) { SortForgetsOrder(Unique(a), Unique(b), Itself); }
    if NormalRoots(a) == NormalRoots(b) {
      forall x ensures x in a <==> x in b {
        assert x in a <==> x in NormalRoots(a);
        assert x in b <==> x in NormalRoots(b);
      }
    }
  }

  function NormalItem(i: WatchItem): WatchItem { i.(roots := NormalRoots(i.roots)) }

  function NormalItems(items: seq<WatchItem>): (r: seq<WatchItem>)
    ensures |r| == |items| && forall i :: 0 <= i < |r| ==> r[i] == NormalItem(items[i])
  {
    seq(|items|, i requires 0 <= i < |items| => NormalItem(items[i]))
  }

  function TextsJson(texts: seq<Text>): (r: seq<Json>)
    ensures |r| == |texts| && forall i :: 0 <= i < |r| ==> r[i] == Str(texts[i])
  {
    seq(|texts|, i requires 0 <= i < |texts| => Str(texts[i]))
  }

  function ItemKeys(): (r: seq<Text>)
    ensures |r| == 5
  {
    [Ascii("loopId"), Ascii("artifactDir"), Ascii("workdir"), Ascii("roots"), Ascii("configRevision")]
  }

  function ItemValues(i: WatchItem): (r: seq<Json>)
    ensures |r| == 5
  {
    [Str(i.loopId), Str(i.artifactDir), if i.workdir.Some? then Str(i.workdir.value) else Null, Arr(TextsJson(i.roots)),
     Num(i.configRevision)]
  }

  function ItemJson(i: WatchItem): Json { Obj(Record(ItemKeys(), ItemValues(i))) }

  function ItemsJson(items: seq<WatchItem>): (r: seq<Json>)
    ensures |r| == |items| && forall i :: 0 <= i < |r| ==> r[i] == ItemJson(items[i])
  {
    seq(|items|, i requires 0 <= i < |items| => ItemJson(items[i]))
  }

  function WatchText(items: seq<WatchItem>): Text { Print(Arr(ItemsJson(SortBy(NormalItems(items), LoopOf)))) }

  lemma ItemPrintsItself(a: WatchItem, b: WatchItem)
    requires Canon(ItemJson(a)) == Canon(ItemJson(b))
    ensures a == b
  {
    KeysDistinct();
    var x, y := ItemValues(a), ItemValues(b);
    SameKeysSameValues(ItemKeys(), x, y);
    hide ItemKeys, Record, SortBy, DistinctKeys;
    assert Canon(x[0]) == Canon(y[0]) && Canon(x[1]) == Canon(y[1]) && Canon(x[2]) == Canon(y[2]);
    assert Canon(x[3]) == Canon(y[3]) && Canon(x[4]) == Canon(y[4]);
    RootsPrintThemselves(a.roots, b.roots);
  }

  lemma RootsPrintThemselves(a: seq<Text>, b: seq<Text>)
    requires Canon(Arr(TextsJson(a))) == Canon(Arr(TextsJson(b)))
    ensures a == b
  {
    var x, y := CanonAll(TextsJson(a)), CanonAll(TextsJson(b));
    assert x == y;
    forall i | 0 <= i < |a| ensures a[i] == b[i] { assert x[i] == y[i]; }
  }

  /** The watch text determines the normalized configuration. */
  lemma WatchTextInjective(a: seq<WatchItem>, b: seq<WatchItem>)
    ensures WatchText(a) == WatchText(b) <==> SortBy(NormalItems(a), LoopOf) == SortBy(NormalItems(b), LoopOf)
  {
    if WatchText(a) == WatchText(b) {
      var x, y := SortBy(NormalItems(a), LoopOf), SortBy(NormalItems(b), LoopOf);
      SamePrintSameCanon(Arr(ItemsJson(x)), Arr(ItemsJson(y)));
      var r, q := CanonAll(ItemsJson(x)), CanonAll(ItemsJson(y));
      assert r == q;
      hide SortBy, Print, Canon, ItemJson;
      forall i | 0 <= i < |x| ensures x[i] == y[i] {
        assert r[i] == q[i];
        ItemPrintsItself(x[i], y[i]);
      }
    }
  }

  /** Configurations that name each loop once have equal watch texts exactly when
      they watch the same loops in the same way, in any order of items and roots. */
  lemma SameWatchSameText(a: seq<WatchItem>, b: seq<WatchItem>)
    requires DistinctKeys(a, LoopOf) && DistinctKeys(b, LoopOf)
    ensures WatchText(a) == WatchText(b) <==> SameElements(NormalItems(a), NormalItems(b))
  {
    WatchTextInjective(a, b);
    var x, y := NormalItems(a), NormalItems(b);
    assert DistinctKeys(x, LoopOf) && DistinctKeys(y, LoopOf);
    hide WatchText, NormalItems;
    if SameElements(x, y) { SortForgetsOrder(x, y, LoopOf); }
    if SortBy(x, LoopOf) == SortBy(y, LoopOf) {
      assert forall e :: (e in x <==> e in SortBy(x, LoopOf)) && (e in y <==> e in SortBy(y, LoopOf));
    }
  }
}
