/** The boot-surviving crash record as its memory image: finalize seals it, and damage to it is detected. */
module CrashRecord {
  import opened Crc

  const SIZE: nat := 484
  const COVERED: nat := 480  // offset of the crc field: the checksum covers everything before it
  const TASK_END: nat := 47
  const LOG_AT: nat := 48
  const LOG_LINE_BYTES: nat := 96
  const LOG_LINES: nat := 4
  const ALLOC_TASK_END: nat := 455
  const ALLOC_FUNCTION_END: nat := 479

  const MAGIC_BYTES: seq<bv8> := [0x48, 0x43, 0x52, 0x46]  // 0x46524348, little-endian
  const VERSION_BYTES: seq<bv8> := [2, 0]
  const SIZE_BYTES: seq<bv8> := [0xE4, 0x01]

  /** A 32-bit word as it is stored. */
  function Stored(w: bv32): seq<bv8> {
    [(w & 0xFF) as bv8, ((w >> 8) & 0xFF) as bv8, ((w >> 16) & 0xFF) as bv8, ((w >> 24) & 0xFF) as bv8]
  }

  lemma StoredWord(w: bv32)
    ensures Word(Stored(w)) == w
  {
  }

  /** The test every reader applies before trusting a record. */
  predicate Valid(m: seq<bv8>)
    requires |m| == SIZE
  {
    && m[0..4] == MAGIC_BYTES && m[4..6] == VERSION_BYTES && m[6..8] == SIZE_BYTES
    && Word(m[COVERED..]) == Crc32(m[..COVERED])
  }

  /** The last byte of a text field. */
  predicate Terminator(i: nat) {
    || i == TASK_END || i == ALLOC_TASK_END || i == ALLOC_FUNCTION_END
    || i == LOG_AT + 95 || i == LOG_AT + 191 || i == LOG_AT + 287 || i == LOG_AT + 383
  }

  /** `r` is `m` with its header written, its texts terminated and its checksum computed, and otherwise unchanged. */
  predicate Seals(m: seq<bv8>, r: seq<bv8>) {
    && |m| == |r| == SIZE
    && r[0..4] == MAGIC_BYTES && r[4..6] == VERSION_BYTES && r[6..8] == SIZE_BYTES
    && (forall i :: 8 <= i < COVERED ==> r[i] == if Terminator(i) then 0 else m[i])
    && r[COVERED..] == Stored(Crc32(r[..COVERED]))
  }

  /** The terminator writes of finalize. */
  method TerminateTexts(record: array<bv8>)
    requires record.Length == SIZE
    modifies record
    ensures forall i :: 0 <= i < SIZE ==> record[i] == if Terminator(i) then 0 else old(record[i])
  {
    record[TASK_END] := 0;
    for line := 0 to LOG_LINES
      invariant forall i :: 0 <= i < SIZE ==>
                  record[i] ==
                  if i == TASK_END || (LOG_AT <= i < LOG_AT + line * LOG_LINE_BYTES && Terminator(i)) then 0
                  else old(record[i])
    {
      record[LOG_AT + line * LOG_LINE_BYTES + LOG_LINE_BYTES - 1] := 0;
    }
    record[ALLOC_TASK_END] := 0;
    record[ALLOC_FUNCTION_END] := 0;
  }

  method StoreChecksum(record: array<bv8>, crc: bv32)
    requires record.Length == SIZE
    modifies record
    ensures record[..COVERED] == old(record[..COVERED]) && record[COVERED..] == Stored(crc)
  {
    var bytes := Stored(crc);
    assert |bytes| == 4;
    hide Stored;
    record[480], record[481], record[482], record[483] := bytes[0], bytes[1], bytes[2], bytes[3];
    assert record[COVERED..] == [record[480], record[481], record[482], record[483]] == bytes;
  }

  method WriteHeader(record: array<bv8>)
    requires record.Length == SIZE
    modifies record
    ensures record[0..4] == MAGIC_BYTES && record[4..6] == VERSION_BYTES && record[6..8] == SIZE_BYTES
    ensures forall i :: 8 <= i < SIZE ==> record[i] == old(record[i])
  {
    record[0], record[1], record[2], record[3] := 0x48, 0x43, 0x52, 0x46;
    record[4], record[5], record[6], record[7] := 2, 0, 0xE4, 0x01;
  }

  /** finalize, on the record in memory. */
  method Finalize(record: array<bv8>)
    requires record.Length == SIZE
    modifies record
    ensures Seals(old(record[..]), record[..]) && Valid(record[..])
    ensures record[..8] == [0x48, 0x43, 0x52, 0x46, 2, 0, 0xE4, 0x01]
    ensures forall i :: 8 <= i < 480 ==>
              record[i] == if i in {47, 143, 239, 335, 431, 455, 479} then 0 else old(record[i])
  {
    hide Crc32, Stored, Word, Valid;
    WriteHeader(record);
    ghost var headed := record[..];
    TerminateTexts(record);
    ghost var before := record[..];
    var crc := Compute(record[..COVERED]);
    StoreChecksum(record, crc);
    SealedParts(old(record[..]), headed, before, record[..]);
    SealedIsValid(old(record[..]), record[..]);
    assert record[..8] == record[0..4] + record[4..6] + record[6..8];
  }

  /** The three writes of finalize, put together. */
  lemma SealedParts(m: seq<bv8>, headed: seq<bv8>, before: seq<bv8>, r: seq<bv8>)
    requires |m| == |headed| == |before| == |r| == SIZE
    requires headed[0..4] == MAGIC_BYTES && headed[4..6] == VERSION_BYTES && headed[6..8] == SIZE_BYTES
    requires forall i :: 8 <= i < SIZE ==> headed[i] == m[i]
    requires forall i :: 0 <= i < SIZE ==> before[i] == if Terminator(i) then 0 else headed[i]
    requires r[..COVERED] == before[..COVERED] && r[COVERED..] == Stored(Crc32(before[..COVERED]))
    ensures Seals(m, r)
  {
    hide Crc32, Stored;
    assert forall i :: 0 <= i < COVERED ==> r[..COVERED][i] == r[i] && before[..COVERED][i] == before[i];
    assert r[0..4] == headed[0..4] && r[4..6] == headed[4..6] && r[6..8] == headed[6..8];
  }

  method IsValid(record: array<bv8>) returns (ok: bool)
    requires record.Length == SIZE
    ensures ok == Valid(record[..])
  {
    hide Crc32;
    var crc := Compute(record[..COVERED]);
    assert record[..][..COVERED] == record[..COVERED] && record[..][COVERED..] == record[COVERED..];
    assert record[..][0..4] == record[0..4] && record[..][4..6] == record[4..6] && record[..][6..8] == record[6..8];
    ok := record[0..4] == MAGIC_BYTES && record[4..6] == VERSION_BYTES && record[6..8] == SIZE_BYTES
          && Word(record[COVERED..]) == crc;
  }

  /** Whatever was in memory, a sealed record is valid. */
  lemma SealedIsValid(m: seq<bv8>, r: seq<bv8>)
    requires Seals(m, r)
    ensures Valid(r)
  {
    StoredWord(Crc32(r[..COVERED]));
    hide Crc32, Stored, Word;
  }

  /** Sealing has one result, and sealing a sealed record changes nothing. */
  lemma SealingIsIdempotent(m: seq<bv8>, r: seq<bv8>, again: seq<bv8>)
    requires Seals(m, r)
    ensures Seals(m, again) <==> again == r
    ensures Seals(r, again) <==> again == r
  {
    hide Crc32, Stored, Word;
    SealingIsUnique(m, r, r);
    if Seals(m, again) { SealingIsUnique(m, again, r); }
    if Seals(r, again) { SealingIsUnique(r, again, r); }
  }

  lemma SealingIsUnique(m: seq<bv8>, r: seq<bv8>, s: seq<bv8>)
    requires Seals(m, r) && |s| == SIZE && (Seals(m, s) || Seals(s, s))
    requires forall i :: 8 <= i < COVERED ==> s[i] == if Terminator(i) then 0 else m[i]
    ensures r == s && Seals(s, s)
  {
    hide Crc32, Stored, Word;
    forall i | 0 <= i < COVERED ensures r[i] == s[i] {
      if i < 4 { assert r[0..4][i] == s[0..4][i]; }
      else if i < 6 { assert r[4..6][i - 4] == s[4..6][i - 4]; }
      else if i < 8 { assert r[6..8][i - 6] == s[6..8][i - 6]; }
    }
    assert r[..COVERED] == s[..COVERED];
    assert r == r[..COVERED] + r[COVERED..] && s == s[..COVERED] + s[COVERED..];
  }

  /** Damage confined to four consecutive bytes anywhere in the record, the stored checksum included, is always
      detected, whatever it writes there. */
  lemma DamageDetected(m: seq<bv8>, damaged: seq<bv8>, at: nat)
    requires |m| == |damaged| == SIZE && Valid(m) && AlteredWithin(m, damaged, at)
    ensures Valid(damaged) <==> damaged == m
  {
    ValidResidue(m);
    if Valid(damaged) {
      ValidResidue(damaged);
      BurstChangesCrc(m, damaged, at);
    }
  }

  /** The checksum over a whole valid record, its own checksum included, is always the same. */
  lemma ValidResidue(m: seq<bv8>)
    requires |m| == SIZE && Valid(m)
    ensures Crc32(m) == Xor(BitSteps(ONES, 32), ONES)
  {
    hide BitSteps, Word, Xor, Update;
    ResidueIff(m[..COVERED], m[COVERED..]);
    assert m[..COVERED] + m[COVERED..] == m;
  }
}
