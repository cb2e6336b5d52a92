/** Whole histories of the preference store: edits, saves that fail and restarts, in any order. A read returns what was
    last committed under its handle and key. */
module PreferenceHistory {
  import opened Selection
  import opened Octets
  import opened Preferences

  /** What happens to the store. `saves` tells whether the image could be replaced on disk. */
  datatype Event =
    | Put(handle: nat, key: Bytes, value: Value, saves: bool)
    | Erase(handle: nat, key: Bytes, saves: bool)
    | Wipe(handle: nat, saves: bool)
    | Look
    | Restart

  predicate Edits(e: Event) { e.Put? || e.Erase? || e.Wipe? }

  /** Sessions store either a text with its terminator, which is its only zero, or some bytes. */
  predicate Storable(e: Event) {
    e.Put? ==>
      var bytes := e.value.bytes;
      bytes != [] && (e.value.isString ==> bytes[|bytes| - 1] == 0 && 0 !in bytes[..|bytes| - 1])
  }

  function Edit(m: Table, e: Event): Table {
    match e
    case Put(handle, key, value, _) => m[FullKey(handle, key) := value]
    case Erase(handle, key, _) => m - {FullKey(handle, key)}
    case Wipe(handle, _) => Cleared(m, handle)
    case _ => m
  }

  /** A new process knows only the disk. */
  function Reborn(s: Memory): Memory { Memory(map[], false, NotFound, s.disk) }

  /** What one call may do to memory and disk. */
  ghost predicate Happens(s: Memory, e: Event, r: Memory) {
    if e.Restart? then r == Reborn(s)
    else if e.Look? then r == Load(s)
    else if e.saves && Load(s).status != Broken then Commits(Load(s), Edit(Load(s).values, e), r)
    else r == s || r == Load(s)
  }

  ghost predicate IsHistory(states: seq<Memory>, events: seq<Event>) {
    && |states| == |events| + 1 && states[0] == Memory(map[], false, NotFound, Missing)
    && forall i :: 0 <= i < |events| ==> Happens(states[i], events[i], states[i + 1])
  }

  // ----- what was committed

  /** All committed edits, applied in order. */
  function Committed(events: seq<Event>): Table {
    if events == [] then map[]
    else
      var before, last := Committed(events[..|events| - 1]), events[|events| - 1];
      if Edits(last) && last.saves then Edit(before, last) else before
  }

  /** The last committed edit of this handle and key: the value it put, or nothing if it removed the key. */
  function LastCommitted(events: seq<Event>, handle: nat, key: Bytes): Option<Value> {
    if events == [] then None
    else
      var before, last := LastCommitted(events[..|events| - 1], handle, key), events[|events| - 1];
      if !Edits(last) || !last.saves || last.handle != handle || (!last.Wipe? && last.key != key) then before
      else if last.Put? then Some(last.value)
      else None
  }

  function Lookup(m: Table, handle: nat, key: Bytes): Option<Value> {
    if FullKey(handle, key) in m then Some(m[FullKey(handle, key)]) else None
  }

  /** The committed map holds under each handle and key what was last committed there, because keys of different
      namespaces never meet. */
  lemma {:induction false} CommittedHoldsLast(events: seq<Event>, handle: nat, key: Bytes)
    ensures Lookup(Committed(events), handle, key) == LastCommitted(events, handle, key)
    decreases |events|
  {
    hide FullKey, Prefix;
    if events != [] {
      var front, last := events[..|events| - 1], events[|events| - 1];
      CommittedHoldsLast(front, handle, key);
      if last.Put? || last.Erase? { NamespacesApart(handle, last.handle, key, last.key); }
      if last.Wipe? { ClearIsExact(Committed(front), last.handle, handle, key); }
    }
  }

  // ----- what is found

  /** Loading finds the map `m`, now and as long as nothing else happens to the disk. */
  ghost predicate Holds(s: Memory, m: Table) {
    && Load(s).status != Broken && Load(s).values == m
    && ((s.disk == Missing && m == map[]) || (s.disk.Image? && IsImage(s.disk.bytes, m)))
  }

  lemma HappensKeeps(s: Memory, e: Event, r: Memory, m: Table)
    requires Holds(s, m) && Happens(s, e, r) && (e.Restart? ==> Within(m))
    ensures Holds(r, if Edits(e) && e.saves then Edit(m, e) else m)
  {
    hide Edit, IsImage, Decode;
    if e.Restart? && s.disk.Image? { ImageLoads(s.disk.bytes, m); }
  }

  lemma ImageLoads(image: Bytes, m: Table)
    requires IsImage(image, m)
    ensures Decode(image) == (Okay, m) <==> Within(m)
  {
    var order :| Enumerates(order, m) && image == Encode(order, m);
    ImageReadsIff(order, m);
  }

  /** Whenever the process ends, what was committed is within the limits of the decoder. */
  predicate RestartsWithin(events: seq<Event>) {
    forall i :: 0 <= i < |events| && events[i].Restart? ==> Within(Committed(events[..i]))
  }

  lemma {:induction false} HistoryHolds(states: seq<Memory>, events: seq<Event>)
    requires IsHistory(states, events) && RestartsWithin(events)
    ensures Holds(states[|events|], Committed(events))
    decreases |events|
  {
    hide Happens, Holds, Within, Edit;
    if events == [] {
      StartHolds();
    } else {
      var n := |events| - 1;
      var front := events[..n];
      assert forall i :: 0 <= i < n ==> front[..i] == events[..i];
      HistoryHolds(states[..n + 1], front);
      HappensKeeps(states[n], events[n], states[n + 1], Committed(front));
    }
  }

  lemma StartHolds()
    ensures Holds(Memory(map[], false, NotFound, Missing), map[])
  {
  }

  /** After any history of edits, failed saves and restarts from an empty disk, a read of any handle and key finds
      exactly what was last committed there, and the store is not in error. */
  lemma ReadsLastCommitted(states: seq<Memory>, events: seq<Event>, handle: nat, key: Bytes)
    requires IsHistory(states, events) && RestartsWithin(events)
    ensures Load(states[|events|]).status != Broken
    ensures Lookup(Load(states[|events|]).values, handle, key) == LastCommitted(events, handle, key)
  {
    HistoryHolds(states, events);
    CommittedHoldsLast(events, handle, key);
  }

  /** The limits are the exact condition: the next restart finds what was committed if and only if that is within
      them. */
  lemma RestartFindsCommittedIff(states: seq<Memory>, events: seq<Event>)
    requires IsHistory(states, events) && RestartsWithin(events)
    ensures var r := Load(Reborn(states[|events|]));
            r.status != Broken && r.values == Committed(events) <==> Within(Committed(events))
  {
    HistoryHolds(states, events);
    var s := states[|events|];
    hide IsImage, Decode;
    if s.disk.Image? {
      ImageLoads(s.disk.bytes, Committed(events));
      LoadedIsOkay(s.disk.bytes);
    }
  }

  lemma LoadedIsOkay(image: Bytes)
    ensures Decode(image).0 == Okay || Decode(image).0 == Broken
  {
    hide DecodeEntries, ReadLittle;
  }

  // ----- the calls that make a history

  /** One event is one call on the store. */
  method Perform(store: Store, e: Event) returns (next: Store)
    requires store.Valid() && Storable(e)
    modifies store
    ensures next.Valid() && Happens(old(store.View()), e, next.View())
    ensures next == store || fresh(next)
  {
    hide Decode, FullKey, IsImage;
    next := store;
    match e {
      case Restart => next := new Store(store.disk);
      case Look => store.LoadValues();
      case Put(handle, key, value, saves) =>
        var session := Opened(store, handle);
        if value.isString {
          var text := value.bytes[..|value.bytes| - 1];
          assert text + [0] == value.bytes;
          var _ := session.PutString(Some(key), Some(text), saves);
        } else {
          var _ := session.PutTyped(Some(key), value.bytes, saves);
        }
        session.End();
      case Erase(handle, key, saves) =>
        var session := Opened(store, handle);
        var _ := session.Remove(Some(key), saves);
        session.End();
      case Wipe(handle, saves) =>
        var session := Opened(store, handle);
        var _ := session.Clear(saves);
        session.End();
    }
  }

  /** A session that was begun for writing and got this handle. */
  method Opened(store: Store, handle: nat) returns (session: Session)
    ensures fresh(session) && session.store == store && session.handle == handle && session.started && !session.readOnly
  {
    session := new Session(store);
    session.handle, session.started := handle, true;
  }

  /** The calls of a whole history, then one look at a handle and key. */
  method PerformAll(events: seq<Event>, handle: nat, key: Bytes) returns (found: Option<Value>)
    requires RestartsWithin(events) && forall i :: 0 <= i < |events| ==> Storable(events[i])
    ensures found == LastCommitted(events, handle, key)
  {
    hide Happens, RestartsWithin, LastCommitted, Committed, FullKey;
    var store := new Store(Missing);
    ghost var states := [store.View()];
    for i := 0 to |events|
      invariant store.Valid() && fresh(store) && |states| == i + 1 && states[i] == store.View()
      invariant states[0] == Memory(map[], false, NotFound, Missing)
      invariant forall j :: 0 <= j < i ==> Happens(states[j], events[j], states[j + 1])
    {
      store := Perform(store, events[i]);
      states := states + [store.View()];
    }
    ReadsLastCommitted(states, events, handle, key);
    store.LoadValues();
    var name := FullKey(handle, key);
    found := if name in store.values then Some(store.values[name]) else None;
  }
}
