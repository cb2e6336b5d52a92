/** Which files load, stated on their bytes: a count, then that many entries, and the first entry of a key counts. */
module PreferenceImage {
  import opened Selection
  import opened Octets
  import opened Preferences

  /** One entry of a file. Entries of the same key may follow each other. */
  datatype Entry = Entry(key: Bytes, flag: byte, bytes: Bytes)

  /** The four bytes at `at`, low byte first, are the number n. */
  predicate IsWord(s: Bytes, at: nat, n: nat) {
    at + 4 <= |s|
    && n == s[at] as int + 0x100 * (s[at + 1] as int) + 0x1_0000 * (s[at + 2] as int) + 0x100_0000 * (s[at + 3] as int)
  }

  /** `s` starts with the entry: the sizes of its key and value, its text flag, its key, its value. */
  predicate StartsWith(s: Bytes, e: Entry) {
    var k, n := |e.key|, |e.bytes|;
    && k <= 1024 && n <= 16777216 && |s| >= 9 + k + n
    && IsWord(s, 0, k) && IsWord(s, 4, n) && s[8] == e.flag && s[9..9 + k] == e.key && s[9 + k..9 + k + n] == e.bytes
  }

  /** `s` starts with these entries, one behind the other. */
  predicate Lists(s: Bytes, entries: seq<Entry>)
    decreases |entries|
  {
    entries == []
    || (StartsWith(s, entries[0]) && Lists(s[9 + |entries[0].key| + |entries[0].bytes|..], entries[1..]))
  }

  /** Each key with the value of its first entry. */
  function Firsts(entries: seq<Entry>): Table {
    if entries == [] then map[]
    else Firsts(entries[1..])[entries[0].key := Value(entries[0].bytes, entries[0].flag != 0)]
  }

  lemma SizeRead(s: Bytes, at: nat, n: nat)
    requires at + 4 <= |s|
    ensures IsWord(s, at, n) <==> ReadLittle(s[at..]) == n
  {
  }

  /** One turn of the entry loop reads one entry. */
  lemma TurnReads(s: Bytes, e: Entry, count: nat, m: Table)
    requires StartsWith(s, e) && count > 0
    ensures |s| >= 9 + |e.key| + |e.bytes|
    ensures DecodeEntries(s, count, m) ==
            DecodeEntries(s[9 + |e.key| + |e.bytes|..], count - 1,
                          if e.key in m then m else m[e.key := Value(e.bytes, e.flag != 0)])
  {
    SizeRead(s, 0, |e.key|);
    SizeRead(s, 4, |e.bytes|);
    assert s[0..] == s;
    hide IsWord, ReadLittle;
  }

  lemma FirstsStep(entries: seq<Entry>, m: Table)
    requires entries != []
    ensures var e := entries[0]; var v := Value(e.bytes, e.flag != 0);
            Firsts(entries) + m == Firsts(entries[1..]) + (if e.key in m then m else m[e.key := v])
  {
  }

  lemma {:induction false} EntriesDecode(s: Bytes, entries: seq<Entry>, m: Table)
    requires Lists(s, entries)
    ensures DecodeEntries(s, |entries|, m) == Some(Firsts(entries) + m)
    decreases |entries|
  {
    hide DecodeEntries, StartsWith, Firsts;
    if entries == [] {
      NothingLeft(s, m);
      NoFirsts(m);
    } else {
      var e := entries[0];
      TurnReads(s, e, |entries|, m);
      FirstsStep(entries, m);
      EntriesDecode(s[9 + |e.key| + |e.bytes|..], entries[1..],
                    if e.key in m then m else m[e.key := Value(e.bytes, e.flag != 0)]);
    }
  }

  lemma NoFirsts(m: Table)
    ensures Firsts([]) + m == m
  {
  }

  lemma {:induction false} DecodedEntries(s: Bytes, count: nat, m: Table) returns (entries: seq<Entry>)
    requires DecodeEntries(s, count, m).Some?
    ensures |entries| == count && Lists(s, entries)
    decreases count
  {
    hide DecodeEntries, StartsWith, Lists;
    if count == 0 {
      entries := [];
      NothingListed(s);
    } else {
      var e := FirstEntry(s, count, m);
      TurnReads(s, e, count, m);
      var rest := DecodedEntries(s[9 + |e.key| + |e.bytes|..], count - 1,
                                 if e.key in m then m else m[e.key := Value(e.bytes, e.flag != 0)]);
      entries := [e] + rest;
      ListedFirst(s, e, rest);
    }
  }

  lemma NothingListed(s: Bytes)
    ensures Lists(s, [])
  {
  }

  lemma ListedFirst(s: Bytes, e: Entry, rest: seq<Entry>)
    requires StartsWith(s, e) && |s| >= 9 + |e.key| + |e.bytes| && Lists(s[9 + |e.key| + |e.bytes|..], rest)
    ensures Lists(s, [e] + rest)
  {
    hide StartsWith;
    assert ([e] + rest)[1..] == rest;
  }

  lemma FirstEntry(s: Bytes, count: nat, m: Table) returns (e: Entry)
    requires DecodeEntries(s, count, m).Some? && count > 0
    ensures StartsWith(s, e)
  {
    assert s[0..] == s;
    var k, n := ReadLittle(s), ReadLittle(s[4..]);
    SizeRead(s, 0, k);
    SizeRead(s, 4, n);
    hide ReadLittle, IsWord;
    e := Entry(s[9..9 + k], s[8], s[9 + k..9 + k + n]);
  }

  /** A file loads exactly if it starts with a count of at most 10000 and that many entries with keys up to 1 KiB and
      values up to 16 MiB; what follows them is ignored, and a key has the value of its first entry. Any other file is
      damaged and yields nothing. */
  lemma LoadsIff(image: Bytes, m: Table)
    ensures Decode(image) == (Okay, m) <==>
              exists entries :: && |entries| <= 10000 && IsWord(image, 0, |entries|) && Lists(image[4..], entries)
                                && m == Firsts(entries)
    ensures Decode(image).0 == Okay || Decode(image) == (Broken, map[])
  {
    hide Lists, DecodeEntries, Firsts, ReadLittle, IsWord;
    assert image[0..] == image;
    if |image| >= 4 {
      var count := ReadLittle(image);
      SizeRead(image, 0, count);
      if Decode(image) == (Okay, m) {
        var entries := DecodedEntries(image[4..], count, map[]);
        EntriesDecode(image[4..], entries, map[]);
        assert Firsts(entries) + map[] == Firsts(entries);
      }
      forall entries | IsWord(image, 0, |entries|) && Lists(image[4..], entries)
        ensures |entries| == count && DecodeEntries(image[4..], count, map[]) == Some(Firsts(entries)) {
        SizeRead(image, 0, |entries|);
        EntriesDecode(image[4..], entries, map[]);
        assert Firsts(entries) + map[] == Firsts(entries);
      }
    } else {
      NoWord(image);
    }
  }

  lemma NoWord(image: Bytes)
    requires |image| < 4
    ensures forall n :: !IsWord(image, 0, n)
  {
  }
}
