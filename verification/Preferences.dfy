/** The simulator's preference store: a binary image on disk, a map in memory, and sessions that edit both or
    neither. */
module Preferences {
  import opened Selection
  import opened Octets

  const MAX_ENTRIES: nat := 10000
  const MAX_KEY: nat := 1024
  const MAX_VALUE: nat := 16 * 1024 * 1024
  const COLON: byte := 0x3A

  datatype Value = Value(bytes: Bytes, isString: bool)

  type Table = map<Bytes, Value>

  datatype LoadStatus = NotFound | Okay | Broken

  // ----- the image

  /** Sizes are written as 32-bit words, and only that much of a value's bytes. */
  function EncodeEntry(key: Bytes, v: Value): Bytes {
    LittleEndian(|key| % WORDS) + LittleEndian(|v.bytes| % WORDS) + [if v.isString then 1 else 0] + key
      + v.bytes[..|v.bytes| % WORDS]
  }

  function EncodeEntries(order: seq<Bytes>, m: Table): Bytes
    requires forall k :: k in order ==> k in m
  {
    if order == [] then [] else EncodeEntry(order[0], m[order[0]]) + EncodeEntries(order[1..], m)
  }

  function Encode(order: seq<Bytes>, m: Table): Bytes
    requires forall k :: k in order ==> k in m
  {
    LittleEndian(|m| % WORDS) + EncodeEntries(order, m)
  }

  predicate Distinct(order: seq<Bytes>) { forall i, j :: 0 <= i < j < |order| ==> order[i] != order[j] }

  /** `order` lists the keys of the map, each once. */
  ghost predicate Enumerates(order: seq<Bytes>, m: Table) {
    Distinct(order) && (forall k :: k in order <==> k in m) && |order| == |m|
  }

  ghost predicate IsImage(image: Bytes, m: Table) { exists order :: Enumerates(order, m) && image == Encode(order, m) }

  /** The entry loop of loadValues: a key that is already present keeps its first value. */
  function DecodeEntries(s: Bytes, count: nat, m: Table): Option<Table>
    decreases count
  {
    if count == 0 then Some(m)
    else if |s| < 9 then None
    else
      var keySize := ReadLittle(s);
      var valueSize := ReadLittle(s[4..]);
      if keySize > MAX_KEY || valueSize > MAX_VALUE || |s| < 9 + keySize + valueSize then None
      else
        var key := s[9..9 + keySize];
        var value := Value(s[9 + keySize..9 + keySize + valueSize], s[8] != 0);
        DecodeEntries(s[9 + keySize + valueSize..], count - 1, if key in m then m else m[key := value])
  }

  /** loadValues on an image. */
  function Decode(s: Bytes): (LoadStatus, Table) {
    if |s| < 4 || ReadLittle(s) > MAX_ENTRIES then (Broken, map[])
    else match DecodeEntries(s[4..], ReadLittle(s), map[])
      case Some(m) => (Okay, m)
      case None => (Broken, map[])
  }

  predicate EntryFits(key: Bytes, v: Value) { |key| <= MAX_KEY && |v.bytes| <= MAX_VALUE }

  /** What the decoder accepts: at most 10000 entries, keys up to 1 KiB, values up to 16 MiB. */
  predicate Within(m: Table) { |m| <= MAX_ENTRIES && forall k :: k in m ==> EntryFits(k, m[k]) }

  /** The parts of an encoded entry, read back from the front of `s`. */
  predicate HoldsEntry(s: Bytes, key: Bytes, v: Value, tail: Bytes) {
    var n, k := |key|, |v.bytes|;
    && |s| == 9 + n + k + |tail| && ReadLittle(s) == n && ReadLittle(s[4..]) == k && (s[8] != 0 <==> v.isString)
    && s[9..9 + n] == key && s[9 + n..9 + n + k] == v.bytes && s[9 + n + k..] == tail
  }

  lemma EntryLayout(key: Bytes, v: Value, tail: Bytes)
    requires EntryFits(key, v)
    ensures |EncodeEntry(key, v)| == 9 + |key| + |v.bytes| && HoldsEntry(EncodeEntry(key, v) + tail, key, v, tail)
  {
    var n, k := |key|, |v.bytes|;
    hide LittleEndian, ReadLittle;
    WordReads(n);
    WordReads(k);
    EntryParts(key, v, tail);
  }

  lemma EntryParts(key: Bytes, v: Value, tail: Bytes)
    requires EntryFits(key, v)
    requires ReadLittle(LittleEndian(|key|)) == |key| && ReadLittle(LittleEndian(|v.bytes|)) == |v.bytes|
    ensures |EncodeEntry(key, v)| == 9 + |key| + |v.bytes| && HoldsEntry(EncodeEntry(key, v) + tail, key, v, tail)
  {
    var n, k := |key|, |v.bytes|;
    var a, b := LittleEndian(n), LittleEndian(k);
    hide LittleEndian, ReadLittle;
    EncodedParts(key, v);
    hide EncodeEntry;
    var flag: Bytes := [if v.isString then 1 else 0];
    var s := a + b + flag + key + v.bytes + tail;
    SixParts(a, b, flag, key, v.bytes, tail);
    ReadsPrefix(s, a);
    ReadsPrefix(s[4..], b);
  }

  lemma EncodedParts(key: Bytes, v: Value)
    requires EntryFits(key, v)
    ensures EncodeEntry(key, v) ==
              LittleEndian(|key|) + LittleEndian(|v.bytes|) + [if v.isString then 1 else 0] + key + v.bytes
  {
    hide LittleEndian;
    assert v.bytes[..|v.bytes| % WORDS] == v.bytes;
  }

  lemma SixParts(a: Bytes, b: Bytes, flag: Bytes, key: Bytes, v: Bytes, tail: Bytes)
    requires |a| == 4 && |b| == 4 && |flag| == 1
    ensures var s := a + b + flag + key + v + tail; var n, k := |key|, |v|;
            && |s| == 9 + n + k + |tail| && s[..4] == a && s[4..][..4] == b && s[8] == flag[0]
            && s[9..9 + n] == key && s[9 + n..9 + n + k] == v && s[9 + n + k..] == tail
  {
  }

  lemma DecodeStep(s: Bytes, key: Bytes, v: Value, tail: Bytes, count: nat, m: Table)
    requires EntryFits(key, v) && HoldsEntry(s, key, v, tail) && count > 0 && key !in m
    ensures DecodeEntries(s, count, m) == DecodeEntries(tail, count - 1, m[key := v])
  {
    hide ReadLittle;
    var n, k := |key|, |v.bytes|;
    assert s[9..9 + n] == key && Value(s[9 + n..9 + n + k], s[8] != 0) == v;
  }

  /** The part of `m` whose keys are listed. */
  function Listed(order: seq<Bytes>, m: Table): Table { map k | k in m && k in order :: m[k] }

  lemma {:induction false} EntriesRead(order: seq<Bytes>, m: Table, tail: Bytes, known: Table)
    requires Distinct(order) && (forall k :: k in order ==> k in m && EntryFits(k, m[k]) && k !in known)
    ensures DecodeEntries(EncodeEntries(order, m) + tail, |order|, known) == Some(known + Listed(order, m))
    decreases |order|
  {
    if order == [] {
      assert known + Listed(order, m) == known;
    } else {
      var key, rest := order[0], order[1..];
      var v := m[key];
      var more := EncodeEntries(rest, m) + tail;
      hide DecodeEntries, EncodeEntry, HoldsEntry;
      assert EncodeEntries(order, m) + tail == EncodeEntry(key, v) + more;
      EntryLayout(key, v, more);
      DecodeStep(EncodeEntry(key, v) + more, key, v, more, |order|, known);
      RestDistinct(order);
      ListedStep(order, m, known);
      EntriesRead(rest, m, tail, known[key := v]);
    }
  }

  lemma RestDistinct(order: seq<Bytes>)
    requires Distinct(order) && order != []
    ensures Distinct(order[1..]) && forall k :: k in order[1..] ==> k in order && k != order[0]
  {
    assert forall i :: 0 <= i < |order[1..]| ==> order[1..][i] == order[i + 1];
  }

  lemma ListedStep(order: seq<Bytes>, m: Table, known: Table)
    requires order != [] && order[0] in m
    ensures known[order[0] := m[order[0]]] + Listed(order[1..], m) == known + Listed(order, m)
  {
    assert forall k :: k in order <==> k == order[0] || k in order[1..];
  }

  /** What the decoder returns is always within its limits. */
  lemma {:induction false} DecodedEntriesFit(s: Bytes, count: nat, m: Table)
    requires forall k :: k in m ==> EntryFits(k, m[k])
    ensures DecodeEntries(s, count, m).Some? ==>
              var r := DecodeEntries(s, count, m).value;
              |r| <= |m| + count && forall k :: k in r ==> EntryFits(k, r[k])
    decreases count
  {
    hide ReadLittle;
    if count > 0 && |s| >= 9 {
      var keySize, valueSize := ReadLittle(s), ReadLittle(s[4..]);
      if keySize <= MAX_KEY && valueSize <= MAX_VALUE && |s| >= 9 + keySize + valueSize {
        var key := s[9..9 + keySize];
        var value := Value(s[9 + keySize..9 + keySize + valueSize], s[8] != 0);
        DecodedEntriesFit(s[9 + keySize + valueSize..], count - 1, if key in m then m else m[key := value]);
      }
    }
  }

  /** Saving and loading returns the map exactly when the map is within the decoder's limits. */
  lemma ImageReadsIff(order: seq<Bytes>, m: Table)
    requires Enumerates(order, m)
    ensures Decode(Encode(order, m)) == (Okay, m) <==> Within(m)
  {
    hide Encode, Decode;
    if Within(m) { ImageReads(order, m); }
    if Decode(Encode(order, m)) == (Okay, m) { DecodedFits(Encode(order, m)); }
  }

  lemma ImageReads(order: seq<Bytes>, m: Table)
    requires Enumerates(order, m) && Within(m)
    ensures Decode(Encode(order, m)) == (Okay, m)
  {
    hide DecodeEntries, EncodeEntries, ReadLittle, LittleEndian;
    CountReads(order, m);
    EntriesRead(order, m, [], map[]);
    assert EncodeEntries(order, m) + [] == EncodeEntries(order, m);
    assert map[] + Listed(order, m) == m;
  }

  lemma DecodedFits(image: Bytes)
    ensures Within(Decode(image).1)
  {
    hide DecodeEntries, ReadLittle;
    if |image| >= 4 && ReadLittle(image) <= MAX_ENTRIES { DecodedEntriesFit(image[4..], ReadLittle(image), map[]); }
  }

  lemma CountReads(order: seq<Bytes>, m: Table)
    requires (forall k :: k in order ==> k in m) && |m| < WORDS
    ensures var image := Encode(order, m);
            |image| >= 4 && ReadLittle(image) == |m| && image[4..] == EncodeEntries(order, m)
  {
    hide LittleEndian, ReadLittle, EncodeEntries;
    WordReads(|m|);
    var image := Encode(order, m);
    assert image[..4] == LittleEndian(|m|);
    ReadsPrefix(image, LittleEndian(|m|));
  }

  // ----- damaged images

  /** A front part of an entry's bytes decodes as damaged. */
  lemma ShortEntry(s: Bytes, key: Bytes, v: Value, tail: Bytes, p: nat, count: nat, m: Table)
    requires EntryFits(key, v) && HoldsEntry(s, key, v, tail) && p < 9 + |key| + |v.bytes| && count > 0
    ensures DecodeEntries(s[..p], count, m) == None
  {
    if p >= 9 {
      assert s[..p][..4] == s[..4] && s[..p][4..][..4] == s[4..][..4];
      ReadsPrefix(s[..p], s[..4]);
      ReadsPrefix(s, s[..4]);
      ReadsPrefix(s[..p][4..], s[4..][..4]);
      ReadsPrefix(s[4..], s[4..][..4]);
    }
    hide ReadLittle;
  }

  lemma {:induction false} EntriesCut(order: seq<Bytes>, m: Table, p: nat, known: Table)
    requires Distinct(order) && (forall k :: k in order ==> k in m && EntryFits(k, m[k]) && k !in known)
    requires p < |EncodeEntries(order, m)|
    ensures DecodeEntries(EncodeEntries(order, m)[..p], |order|, known) == None
    decreases |order|
  {
    var key, rest := order[0], order[1..];
    var v := m[key];
    var more := EncodeEntries(rest, m);
    var all := EncodeEntries(order, m);
    var size := |EncodeEntry(key, v)|;
    hide DecodeEntries, EncodeEntry, HoldsEntry;
    assert all == EncodeEntry(key, v) + more;
    EntryLayout(key, v, more);
    if p < size {
      ShortEntry(all, key, v, more, p, |order|, known);
    } else {
      assert all[..p] == EncodeEntry(key, v) + more[..p - size];
      EntryLayout(key, v, more[..p - size]);
      DecodeStep(all[..p], key, v, more[..p - size], |order|, known);
      RestDistinct(order);
      EntriesCut(rest, m, p - size, known[key := v]);
    }
  }

  /** Every proper prefix of an image, the empty file included, loads as damaged and leaves the map empty. */
  lemma CutImageIsBroken(order: seq<Bytes>, m: Table, p: nat)
    requires Enumerates(order, m) && Within(m) && p < |Encode(order, m)|
    ensures Decode(Encode(order, m)[..p]) == (Broken, map[])
  {
    hide DecodeEntries, EncodeEntries, ReadLittle, LittleEndian;
    CountReads(order, m);
    var image := Encode(order, m);
    if p >= 4 {
      assert image[..p][..4] == image[..4];
      ReadsPrefix(image[..p], image[..4]);
      ReadsPrefix(image, image[..4]);
      assert image[..p][4..] == EncodeEntries(order, m)[..p - 4];
      EntriesCut(order, m, p - 4, map[]);
    }
  }

  // ----- keys and namespaces

  /** std::to_string of a handle. */
  function Decimal(n: nat): (d: Bytes)
    ensures d != [] && COLON !in d && (n < 10 <==> |d| == 1)
  {
    if n < 10 then [0x30 + n] else Decimal(n / 10) + [0x30 + n % 10]
  }

  /** The number a string of decimal digits denotes. */
  function ReadDecimal(digits: Bytes): int {
    if digits == [] then 0 else 10 * ReadDecimal(digits[..|digits| - 1]) + digits[|digits| - 1] - 0x30
  }

  /** A handle is written as its decimal digits, without leading zeros. */
  lemma {:induction false} DecimalReads(n: nat)
    ensures ReadDecimal(Decimal(n)) == n && forall i :: 0 <= i < |Decimal(n)| ==> 0x30 <= Decimal(n)[i] <= 0x39
    ensures n > 0 ==> Decimal(n)[0] != 0x30
    decreases n
  {
    if n >= 10 {
      DecimalReads(n / 10);
      assert Decimal(n)[..|Decimal(n)| - 1] == Decimal(n / 10);
    } else {
      assert [0x30 + n][..0] == [];
    }
  }

  function FullKey(handle: nat, key: Bytes): Bytes { Decimal(handle) + [COLON] + key }

  function Prefix(handle: nat): Bytes { Decimal(handle) + [COLON] }

  lemma {:induction false} DecimalInjective(a: nat, b: nat)
    requires Decimal(a) == Decimal(b)
    ensures a == b
    decreases a
  {
    if a >= 10 {
      var da, db := Decimal(a), Decimal(b);
      assert da[|da| - 1] == db[|db| - 1] && da[..|da| - 1] == Decimal(a / 10) && db[..|db| - 1] == Decimal(b / 10);
      DecimalInjective(a / 10, b / 10);
      assert a == 10 * (a / 10) + a % 10 && b == 10 * (b / 10) + b % 10;
    }
  }

  /** The digits before the first colon tell the namespace: a full key starts with a namespace's prefix exactly if it is
      that namespace's, and full keys are equal only for equal namespaces and keys. */
  lemma NamespacesApart(h: nat, g: nat, k: Bytes, l: Bytes)
    ensures Prefix(h) <= FullKey(g, l) <==> h == g
    ensures FullKey(h, k) == FullKey(g, l) <==> h == g && k == l
  {
    var dh, dg := Decimal(h), Decimal(g);
    hide Decimal;
    if Prefix(h) <= FullKey(g, l) {
      SameDigits(dh, dg, l);
      DecimalInjective(h, g);
    }
    if FullKey(h, k) == FullKey(g, l) {
      assert Prefix(h) <= FullKey(h, k);
      SameDigits(dh, dg, l);
      assert k == FullKey(h, k)[|dh| + 1..] && l == FullKey(g, l)[|dg| + 1..];
    }
  }

  function FirstColon(s: Bytes): nat { if s == [] || s[0] == COLON then 0 else 1 + FirstColon(s[1..]) }

  lemma {:induction false} FirstColonAfter(a: Bytes, rest: Bytes)
    requires COLON !in a
    ensures FirstColon(a + [COLON] + rest) == |a|
    decreases |a|
  {
    var s := a + [COLON] + rest;
    if a != [] {
      assert s[1..] == a[1..] + [COLON] + rest;
      FirstColonAfter(a[1..], rest);
    }
  }

  lemma SameDigits(a: Bytes, b: Bytes, l: Bytes)
    requires COLON !in a && COLON !in b && a + [COLON] <= b + [COLON] + l
    ensures a == b
  {
    var x, y := a + [COLON], b + [COLON] + l;
    assert y == a + [COLON] + y[|x|..];
    FirstColonAfter(a, y[|x|..]);
    FirstColonAfter(b, l);
    assert a == y[..|a|] && b == y[..|b|];
  }

  /** clear(): every key with the namespace's prefix goes. */
  function Cleared(m: Table, handle: nat): Table { map k | k in m && !(Prefix(handle) <= k) :: m[k] }

  /** It removes exactly the entries of its own namespace and leaves all others as they were. */
  lemma ClearIsExact(m: Table, handle: nat, g: nat, key: Bytes)
    ensures FullKey(g, key) in Cleared(m, handle) <==> FullKey(g, key) in m && g != handle
    ensures FullKey(g, key) in Cleared(m, handle) ==> Cleared(m, handle)[FullKey(g, key)] == m[FullKey(g, key)]
  {
    NamespacesApart(handle, g, key, key);
  }

  // ----- namespace handles

  /** The names in order of first use. */
  function FirstUses(names: seq<Bytes>): seq<Bytes> {
    if names == [] then []
    else
      var front := FirstUses(names[..|names| - 1]);
      if names[|names| - 1] in front then front else front + [names[|names| - 1]]
  }

  function IndexOf(names: seq<Bytes>, name: Bytes): (i: nat)
    requires name in names
    ensures i < |names| && names[i] == name && name !in names[..i]
  {
    if names[0] == name then 0 else 1 + IndexOf(names[1..], name)
  }

  lemma {:induction false} FirstUsesDistinct(names: seq<Bytes>)
    ensures Distinct(FirstUses(names)) && forall n :: n in FirstUses(names) <==> n in names
    decreases |names|
  {
    if names != [] {
      FirstUsesDistinct(names[..|names| - 1]);
      assert names == names[..|names| - 1] + [names[|names| - 1]];
    }
  }

  /** The handle a process gives a name: its place among the first uses. */
  function Handle(names: seq<Bytes>, name: Bytes): nat
    requires name in names
  {
    FirstUsesDistinct(names);
    1 + IndexOf(FirstUses(names), name)
  }

  /** A handle counts the distinct names first used before the name itself. */
  lemma {:induction false} HandleCounts(names: seq<Bytes>, name: Bytes)
    requires name in names
    ensures Handle(names, name) == 1 + |FirstUses(names[..IndexOf(names, name)])|
    decreases |names|
  {
    var front, last := names[..|names| - 1], names[|names| - 1];
    assert names == front + [last];
    HandlesStay(front, last);
    if name in front {
      HandleCounts(front, name);
      IndexStays(front, [last], name);
      assert names[..IndexOf(front, name)] == front[..IndexOf(front, name)];
    } else {
      IndexLast(front, name);
      assert names[..|front|] == front;
    }
  }

  /** Within a process different names have different handles. Two processes agree on a handle exactly when as many
      distinct names came before its first use in the one as in the other, whatever the names. */
  lemma HandlesAgreeIff(names: seq<Bytes>, name: Bytes, others: seq<Bytes>, other: Bytes)
    requires name in names && other in others
    ensures names == others ==> (Handle(names, name) == Handle(others, other) <==> name == other)
    ensures Handle(names, name) == Handle(others, other) <==>
              |FirstUses(names[..IndexOf(names, name)])| == |FirstUses(others[..IndexOf(others, other)])|
  {
    FirstUsesDistinct(names);
    FirstUsesDistinct(others);
    HandleCounts(names, name);
    HandleCounts(others, other);
  }

  /** So a restart that opens namespaces in another order mixes them up: the first name of one run shares its keys with
      the first name of the next. */
  lemma RestartMixesNamespaces(a: Bytes, b: Bytes, key: Bytes)
    ensures FullKey(Handle([a], a), key) == FullKey(Handle([b], b), key)
  {
    assert FirstUses([a][..0]) == [] && FirstUses([b][..0]) == [];
    assert FirstUses([a]) == [a] && FirstUses([b]) == [b];
  }

  // ----- the store

  datatype Disk = Missing | Unreadable | Image(bytes: Bytes)

  datatype Memory = Memory(values: Table, loaded: bool, status: LoadStatus, disk: Disk)

  /** loadValues. */
  function Load(s: Memory): Memory {
    if s.loaded then s
    else match s.disk
      case Missing => s.(loaded := true, status := NotFound)
      case Unreadable => s.(loaded := true, status := Broken)
      case Image(bytes) => s.(loaded := true, status := Decode(bytes).0, values := Decode(bytes).1)
  }

  /** Memory and disk agree: a loaded, healthy store within the limits is what its image decodes to. */
  predicate Agrees(s: Memory) {
    && (!s.loaded || s.status == Broken || s.status == NotFound ==> s.values == map[])
    && (s.loaded && s.status == NotFound ==> s.disk == Missing)
    && (s.loaded && s.status == Okay ==>
          s.disk.Image? && (Within(s.values) ==> Decode(s.disk.bytes) == (Okay, s.values)))
  }

  /** `r` is `s` with the map replaced by `m` in memory and on disk. */
  ghost predicate Commits(s: Memory, m: Table, r: Memory) {
    r.loaded && r.status == Okay && r.values == m && r.disk.Image? && IsImage(r.disk.bytes, m)
  }

  lemma LoadAgrees(s: Memory)
    requires Agrees(s)
    ensures Agrees(Load(s))
  {
  }

  lemma CommitAgrees(s: Memory, m: Table, r: Memory)
    requires Commits(s, m, r)
    ensures Agrees(r)
  {
    var order :| Enumerates(order, m) && r.disk.bytes == Encode(order, m);
    hide Decode, Encode;
    ImageReadsIff(order, m);
  }

  /** A new process finds what the last commit left, as long as it is within the limits. */
  lemma RestartFinds(s: Memory)
    requires Agrees(s) && s.loaded && s.status == Okay && Within(s.values)
    ensures Load(Memory(map[], false, NotFound, s.disk)) == s
  {
  }

  class Store {
    var values: Table
    var loaded: bool
    var status: LoadStatus
    var disk: Disk
    var used: seq<Bytes>             // (history) the names given to handleFor
    var handles: map<Bytes, nat>
    var next: nat

    function View(): Memory
      reads this
    {
      Memory(values, loaded, status, disk)
    }

    ghost predicate Valid()
      reads this
    {
      && Agrees(View())
      && (forall n :: n in handles <==> n in used) && (forall n :: n in handles ==> handles[n] == Handle(used, n))
      && next == 1 + |FirstUses(used)|
    }

    /** A process starts: nothing loaded, nothing used, some file on disk. */
    constructor (disk: Disk)
      ensures Valid() && View() == Memory(map[], false, NotFound, disk) && used == []
    {
      values, loaded, status := map[], false, NotFound;
      this.disk := disk;
      used, handles, next := [], map[], 1;
    }

    static method ReadImage(image: Bytes) returns (result: LoadStatus, m: Table)
      ensures (result, m) == Decode(image)
    {
      hide ReadLittle, DecodeEntries;
      m := map[];
      if |image| < 4 { return Broken, m; }
      var count := ReadLittle(image);
      if count > MAX_ENTRIES { return Broken, m; }
      var at := 4;
      for i := 0 to count
        invariant 4 <= at <= |image|
        invariant DecodeEntries(image[4..], count, map[]) == DecodeEntries(image[at..], count - i, m)
      {
        DecodeAt(image, at, count - i, m);
        if |image| - at < 9 { return Broken, map[]; }
        var keySize, valueSize := ReadLittle(image[at..]), ReadLittle(image[at + 4..]);
        if keySize > MAX_KEY || valueSize > MAX_VALUE { return Broken, map[]; }
        if |image| - at < 9 + keySize + valueSize { return Broken, map[]; }
        var key := image[at + 9..at + 9 + keySize];
        var value := Value(image[at + 9 + keySize..at + 9 + keySize + valueSize], image[at + 8] != 0);
        if key !in m { m := m[key := value]; }
        at := at + 9 + keySize + valueSize;
      }
      NothingLeft(image[at..], m);
      return Okay, m;
    }

    method LoadValues()
      requires Valid()
      modifies this
      ensures View() == Load(old(View())) && Valid()
      ensures used == old(used) && handles == old(handles) && next == old(next)
      ensures loaded && disk == old(disk) && (old(loaded) ==> View() == old(View()))
      ensures !old(loaded) && disk == Missing ==> status == NotFound && values == map[]
      ensures !old(loaded) && disk == Unreadable ==> status == Broken && values == map[]
      ensures !old(loaded) && disk.Image? ==> (status, values) == Decode(disk.bytes)
    {
      LoadAgrees(View());
      if loaded { return; }
      loaded := true;
      match disk
      case Missing => status := NotFound;
      case Unreadable => status := Broken;
      case Image(bytes) => status, values := ReadImage(bytes);
    }

    /** The write loop of saveValues, over the keys in some order. */
    method WriteImage() returns (image: Bytes)
      ensures IsImage(image, values)
    {
      var remaining := values.Keys;
      ghost var order := [];
      var entries: Bytes := [];
      while remaining != {}
        invariant remaining <= values.Keys && Distinct(order) && |order| + |remaining| == |values|
        invariant forall k :: k in order <==> k in values && k !in remaining
        invariant entries == EncodeEntries(order, values)
        decreases |remaining|
      {
        var key :| key in remaining;
        remaining := remaining - {key};
        EntriesSnoc(order, key, values);
        entries := entries + EncodeEntry(key, values[key]);
        order := order + [key];
      }
      image := LittleEndian(|values| % WORDS) + entries;
      assert Enumerates(order, values) && image == Encode(order, values);
    }

    /** saveValues: the temporary file replaces the image, or nothing changes. */
    method SaveValues(succeeds: bool) returns (ok: bool)
      modifies this`disk
      ensures ok == succeeds
      ensures ok ==> disk.Image? && IsImage(disk.bytes, values)
      ensures !ok ==> disk == old(disk)
    {
      if succeeds {
        var image := WriteImage();
        disk := Image(image);
      }
      return succeeds;
    }

    /** handleFor. */
    method HandleFor(name: Bytes) returns (handle: nat)
      requires Valid()
      modifies this
      ensures Valid() && View() == old(View()) && used == old(used) + [name] && handle == Handle(used, name)
    {
      FirstUsesDistinct(used);
      HandlesStay(used, name);
      if name in handles {
        handle := handles[name];
        used := used + [name];
        return;
      }
      handle := next;
      next := next + 1;
      handles := handles[name := handle];
      used := used + [name];
    }

    /** The erase loop of clear. */
    static method EraseNamespace(m: Table, handle: nat) returns (kept: Table)
      ensures kept == Cleared(m, handle)
    {
      var prefix := Prefix(handle);
      kept := m;
      var remaining := m.Keys;
      while remaining != {}
        invariant remaining <= m.Keys
        invariant forall k :: k in kept <==> k in m && (k in remaining || !(prefix <= k))
        invariant forall k :: k in kept ==> kept[k] == m[k]
        decreases |remaining|
      {
        var key :| key in remaining;
        remaining := remaining - {key};
        if prefix <= key { kept := kept - {key}; }
      }
      assert kept == Cleared(m, handle);
    }

    /** The end of clear and remove: the edited map is saved, or the previous one put back. */
    method ReplaceTable(edited: Table, succeeds: bool) returns (ok: bool)
      requires Valid() && loaded && status != Broken
      modifies this
      ensures Valid() && ok == succeeds && used == old(used)
      ensures ok ==> Commits(old(View()), edited, View())
      ensures !ok ==> View() == old(View())
    {
      var previous := values;
      values := edited;
      ok := SaveValues(succeeds);
      if !ok {
        values := previous;
        return;
      }
      status := Okay;
      CommitAgrees(old(View()), values, View());
    }

    /** The common part of every put: store, save, and take it back if the save failed. */
    method PutEntry(name: Bytes, stored: Value, succeeds: bool) returns (ok: bool)
      requires Valid() && loaded && status != Broken
      modifies this
      ensures Valid() && ok == succeeds && used == old(used)
      ensures ok ==> Commits(old(View()), old(values)[name := stored], View())
      ensures !ok ==> View() == old(View())
    {
      var hadPrevious := name in values;
      var oldValue := if hadPrevious then values[name] else stored;
      values := values[name := stored];
      ok := SaveValues(succeeds);
      if !ok {
        if hadPrevious { values := values[name := oldValue]; } else { values := values - {name}; }
        assert values == old(values);
        return;
      }
      status := Okay;
      CommitAgrees(old(View()), values, View());
    }
  }

  lemma NothingLeft(s: Bytes, m: Table)
    ensures DecodeEntries(s, 0, m) == Some(m)
  {
  }

  /** One turn of the entry loop, in positions of the whole image. */
  lemma DecodeAt(image: Bytes, at: nat, count: nat, m: Table)
    requires at <= |image| && count > 0
    ensures DecodeEntries(image[at..], count, m) ==
            if |image| - at < 9 then None
            else
              var keySize := ReadLittle(image[at..]); var valueSize := ReadLittle(image[at + 4..]);
              if keySize > MAX_KEY || valueSize > MAX_VALUE || |image| - at < 9 + keySize + valueSize then None
              else
                var key := image[at + 9..at + 9 + keySize];
                var value := Value(image[at + 9 + keySize..at + 9 + keySize + valueSize], image[at + 8] != 0);
                DecodeEntries(image[at + 9 + keySize + valueSize..], count - 1, if key in m then m else m[key := value])
  {
    hide ReadLittle;
    var s := image[at..];
    if |s| >= 9 {
      assert s[4..] == image[at + 4..] && s[8] == image[at + 8];
      var keySize, valueSize := ReadLittle(s), ReadLittle(s[4..]);
      if keySize <= MAX_KEY && valueSize <= MAX_VALUE && |s| >= 9 + keySize + valueSize {
        assert s[9..9 + keySize] == image[at + 9..at + 9 + keySize];
        assert s[9 + keySize..9 + keySize + valueSize] == image[at + 9 + keySize..at + 9 + keySize + valueSize];
        assert s[9 + keySize + valueSize..] == image[at + 9 + keySize + valueSize..];
      }
    }
  }

  lemma EntriesSnoc(order: seq<Bytes>, key: Bytes, m: Table)
    requires key in m && forall k :: k in order ==> k in m
    ensures forall k :: k in order + [key] ==> k in m
    ensures EncodeEntries(order + [key], m) == EncodeEntries(order, m) + EncodeEntry(key, m[key])
    decreases |order|
  {
    hide EncodeEntry;
    if order == [] {
      assert [key][1..] == [] && order + [key] == [key];
      assert EncodeEntries([key], m) == EncodeEntry(key, m[key]) + EncodeEntries([], m);
    } else {
      assert (order + [key])[1..] == order[1..] + [key];
      EntriesSnoc(order[1..], key, m);
    }
  }

  lemma HandlesStay(names: seq<Bytes>, name: Bytes)
    ensures FirstUses(names + [name]) ==
            if name in FirstUses(names) then FirstUses(names) else FirstUses(names) + [name]
    ensures forall n :: n in names ==> Handle(names + [name], n) == Handle(names, n)
    ensures name !in names ==> Handle(names + [name], name) == 1 + |FirstUses(names)|
  {
    assert (names + [name])[..|names|] == names;
    FirstUsesDistinct(names);
    FirstUsesDistinct(names + [name]);
    forall n | n in names ensures Handle(names + [name], n) == Handle(names, n) {
      IndexStays(FirstUses(names), [name], n);
    }
    if name !in names { IndexLast(FirstUses(names), name); }
  }

  lemma IndexStays(names: seq<Bytes>, more: seq<Bytes>, n: Bytes)
    requires n in names
    ensures IndexOf(names + more, n) == IndexOf(names, n)
    decreases |names|
  {
    if names[0] != n {
      assert (names + more)[1..] == names[1..] + more;
      IndexStays(names[1..], more, n);
    }
  }

  lemma IndexLast(names: seq<Bytes>, n: Bytes)
    requires n !in names
    ensures IndexOf(names + [n], n) == |names|
    decreases |names|
  {
    if names != [] {
      assert (names + [n])[1..] == names[1..] + [n];
      IndexLast(names[1..], n);
    }
  }

  // ----- sessions

  datatype StringResult = StringOk(text: Bytes) | StringNotFound | StringError

  class Session {
    const store: Store
    var handle: nat
    var started: bool
    var readOnly: bool

    constructor (store: Store)
      ensures this.store == store && !started && handle == 0 && !readOnly
    {
      this.store := store;
      handle, started, readOnly := 0, false, false;
    }

    /** begin(): a null name is the empty one. */
    method Begin(name: Option<Bytes>, readOnly: bool) returns (ok: bool)
      requires store.Valid()
      modifies this, store
      ensures store.Valid() && ok == !old(started) && started
      ensures ok ==> this.readOnly == readOnly && store.View() == Load(old(store.View()))
      ensures ok ==> var n := if name.Some? then name.value else [];
                     store.used == old(store.used) + [n] && handle == Handle(store.used, n)
      ensures !ok ==> store.View() == old(store.View()) && handle == old(handle) && this.readOnly == old(this.readOnly)
    {
      if started { return false; }
      handle := store.HandleFor(if name.Some? then name.value else []);
      this.readOnly := readOnly;
      started := true;
      store.LoadValues();
      return true;
    }

    method End()
      modifies this`started
      ensures !started
    {
      started := false;
    }

    /** What a call that edits the map does: it commits the edit in memory and on disk and reports success, or leaves
        both as loading left them and reports failure. */
    ghost predicate Edited(before: Memory, m: Table, ok: bool)
      reads store
    {
      if ok then Commits(Load(before), m, store.View()) else store.View() == before || store.View() == Load(before)
    }

    method Clear(succeeds: bool) returns (ok: bool)
      requires store.Valid()
      modifies store
      ensures store.Valid() && Edited(old(store.View()), Cleared(Load(old(store.View())).values, handle), ok)
      ensures ok <==> started && !readOnly && Load(old(store.View())).status != Broken && succeeds
    {
      if !started || readOnly { return false; }
      store.LoadValues();
      if store.status == Broken { return false; }
      var kept := Store.EraseNamespace(store.values, handle);
      ok := store.ReplaceTable(kept, succeeds);
    }

    method Remove(key: Option<Bytes>, succeeds: bool) returns (ok: bool)
      requires store.Valid()
      modifies store
      ensures store.Valid()
      ensures key.Some? ==> Edited(old(store.View()), Load(old(store.View())).values - {FullKey(handle, key.value)}, ok)
      ensures ok <==> started && !readOnly && key.Some? && Load(old(store.View())).status != Broken && succeeds
      ensures key.None? ==> store.View() == old(store.View())
    {
      if !started || readOnly || key.None? { return false; }
      store.LoadValues();
      if store.status == Broken { return false; }
      ok := store.ReplaceTable(store.values - {FullKey(handle, key.value)}, succeeds);
    }

    /** putString of a C string: its characters and the terminator. */
    method PutString(key: Option<Bytes>, text: Option<Bytes>, succeeds: bool) returns (ok: bool)
      requires store.Valid() && (text.Some? ==> 0 !in text.value)
      modifies store
      ensures store.Valid()
      ensures key.Some? && text.Some? ==>
                Edited(old(store.View()),
                       Load(old(store.View())).values[FullKey(handle, key.value) := Value(text.value + [0], true)], ok)
      ensures ok <==>
                started && !readOnly && key.Some? && text.Some? && Load(old(store.View())).status != Broken && succeeds
      ensures key.None? || text.None? ==> store.View() == old(store.View())
    {
      if !started || readOnly || key.None? || text.None? { return false; }
      store.LoadValues();
      if store.status == Broken { return false; }
      ok := store.PutEntry(FullKey(handle, key.value), Value(text.value + [0], true), succeeds);
    }

    /** put of raw bytes: the number stored. */
    method PutBytes(key: Option<Bytes>, data: Option<Bytes>, succeeds: bool) returns (stored: nat)
      requires store.Valid()
      modifies store
      ensures store.Valid()
      ensures key.Some? && data.Some? ==>
                Edited(old(store.View()),
                  Load(old(store.View())).values[FullKey(handle, key.value) := Value(data.value, false)], stored > 0)
      ensures stored == if started && !readOnly && key.Some? && data.Some? && Load(old(store.View())).status != Broken
              && succeeds
                        then |data.value| else 0
      ensures key.None? || data.None? ==> store.View() == old(store.View())
    {
      if !started || readOnly || key.None? || data.None? || data.value == [] { return 0; }
      store.LoadValues();
      if store.status == Broken { return 0; }
      var ok := store.PutEntry(FullKey(handle, key.value), Value(data.value, false), succeeds);
      return if ok then |data.value| else 0;
    }

    /** The typed puts: neither the started nor the read-only flag is tested. */
    method PutTyped(key: Option<Bytes>, data: Bytes, succeeds: bool) returns (stored: nat)
      requires store.Valid() && data != []
      modifies store
      ensures store.Valid()
      ensures key.Some? ==>
                Edited(old(store.View()),
                       Load(old(store.View())).values[FullKey(handle, key.value) := Value(data, false)], stored > 0)
      ensures stored == if key.Some? && Load(old(store.View())).status != Broken && succeeds then |data| else 0
      ensures key.None? ==> store.View() == old(store.View())
    {
      if key.None? { return 0; }
      store.LoadValues();
      if store.status == Broken { return 0; }
      var ok := store.PutEntry(FullKey(handle, key.value), Value(data, false), succeeds);
      return if ok then |data| else 0;
    }

    /** The typed gets: a stored value of another size counts as absent. */
    method GetTyped(key: Option<Bytes>, size: nat) returns (data: Option<Bytes>)
      requires store.Valid()
      modifies store
      ensures store.Valid()
              && (if key.Some? then store.View() == Load(old(store.View())) else store.View() == old(store.View()))
      ensures data.Some? <==>
                && key.Some? && FullKey(handle, key.value) in store.values
                && |store.values[FullKey(handle, key.value)].bytes| == size
      ensures data.Some? ==> data.value == store.values[FullKey(handle, key.value)].bytes
    {
      if key.None? { return None; }
      store.LoadValues();
      var name := FullKey(handle, key.value);
      if name !in store.values || |store.values[name].bytes| != size { return None; }
      return Some(store.values[name].bytes);
    }

    /** getString: the text without its terminator, if the key holds a terminated text. */
    method GetString(key: Option<Bytes>) returns (r: StringResult)
      requires store.Valid()
      modifies store
      ensures store.Valid()
      ensures store.View() == if started && key.Some? then Load(old(store.View())) else old(store.View())
      ensures r == StringNotFound <==>
                started && key.Some? && store.status != Broken && FullKey(handle, key.value) !in store.values
      ensures r.StringOk? ==>
                && started && key.Some? && store.status != Broken && FullKey(handle, key.value) in store.values
                && store.values[FullKey(handle, key.value)] == Value(r.text + [0], true)
      ensures forall text ::
                started && key.Some? && store.status != Broken && FullKey(handle, key.value) in store.values
                && store.values[FullKey(handle, key.value)] == Value(text + [0], true)
                ==> r == StringOk(text)
    {
      if !started || key.None? { return StringError; }
      store.LoadValues();
      if store.status == Broken { return StringError; }
      var name := FullKey(handle, key.value);
      if name !in store.values { return StringNotFound; }
      var v := store.values[name];
      if !v.isString || v.bytes == [] || v.bytes[|v.bytes| - 1] != 0 { return StringError; }
      r := StringOk(v.bytes[..|v.bytes| - 1]);
      assert v.bytes == r.text + [0];
      forall text: Bytes | v.bytes == text + [0] ensures r.text == text { assert v.bytes[..|v.bytes| - 1] == text; }
    }
  }

  /** After a commit of a put the handle and key hold the value, in this process and in the next one, and every other
      handle and key hold what they held before. */
  lemma PutIsRead(s: Memory, handle: nat, key: Bytes, v: Value, r: Memory, g: nat, other: Bytes)
    requires Commits(s, s.values[FullKey(handle, key) := v], r)
    ensures r.loaded && r.status == Okay && FullKey(handle, key) in r.values && r.values[FullKey(handle, key)] == v
    ensures g != handle || other != key ==>
              && (FullKey(g, other) in r.values <==> FullKey(g, other) in s.values)
              && (FullKey(g, other) in r.values ==> r.values[FullKey(g, other)] == s.values[FullKey(g, other)])
    ensures Within(r.values) ==> Load(Memory(map[], false, NotFound, r.disk)) == r
  {
    hide Decode, FullKey;
    NamespacesApart(g, handle, other, key);
    CommitAgrees(s, r.values, r);
    if Within(r.values) { RestartFinds(r); }
  }
}
