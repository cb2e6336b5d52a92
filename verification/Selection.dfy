/** The selection rule shared by the dispatcher, the queue wake-up and the mutex hand-off:
    highest priority first, and among equal priorities the earliest order stamp. */
module Selection {

  datatype Option<+T> = None | Some(value: T)

  /** A candidate of one selection: out of the running, or in it with a priority and an order stamp. */
  datatype Entry = Out | In(priority: nat, order: nat)

  predicate Beats(a: Entry, b: Entry) {
    a.In? && (b.Out? || a.priority > b.priority || (a.priority == b.priority && a.order < b.order))
  }

  /** The scan every selection loop performs, as a fold: a later entry replaces the kept one only if it beats it. */
  function Select(es: seq<Entry>): (r: Option<nat>)
    ensures r.Some? ==> r.value < |es| && es[r.value].In?
    ensures r.Some? ==> forall j :: 0 <= j < |es| ==> !Beats(es[j], es[r.value])
    ensures r.None? ==> forall j :: 0 <= j < |es| ==> es[j].Out?
  {
    if |es| == 0 then None
    else
      var last := |es| - 1;
      var kept := Select(es[..last]);
      assert forall j :: 0 <= j < last ==> es[..last][j] == es[j];
      if kept.None? then (if es[last].In? then Some(last) else None)
      else if Beats(es[last], es[kept.value]) then Some(last)
      else kept
  }

  /** No two entries in the running carry the same stamp. */
  ghost predicate DistinctOrders(es: seq<Entry>) {
    forall i, j :: 0 <= i < j < |es| && es[i].In? && es[j].In? ==> es[i].order != es[j].order
  }

  /** `best` beats every other entry. */
  ghost predicate IsBest(es: seq<Entry>, best: nat) {
    best < |es| && es[best].In? && forall j :: 0 <= j < |es| && j != best ==> Beats(es[best], es[j])
  }

  /** With distinct stamps the selection is the one entry that beats all others, and conversely. */
  lemma SelectIsBest(es: seq<Entry>, best: nat)
    requires DistinctOrders(es)
    ensures Select(es) == Some(best) <==> IsBest(es, best)
  {
    var r := Select(es);
    if r.Some? {
      forall j | 0 <= j < |es| && j != r.value ensures Beats(es[r.value], es[j]) {
        assert !Beats(es[j], es[r.value]);
      }
    }
  }

  /** `permuted` lists the candidates of `es`: entry i stands at place[i] of `es`, entry k of `es` at spot[k]. */
  ghost predicate Permutes(es: seq<Entry>, permuted: seq<Entry>, place: seq<nat>, spot: seq<nat>) {
    && |permuted| == |es| == |place| == |spot|
    && (forall i :: 0 <= i < |place| ==> place[i] < |es| && permuted[i] == es[place[i]])
    && (forall k :: 0 <= k < |spot| ==> spot[k] < |es| && place[spot[k]] == k)
  }

  /** Scanning the same candidates in any other order keeps the same one. */
  lemma SelectIgnoresScanOrder(es: seq<Entry>, permuted: seq<Entry>, place: seq<nat>, spot: seq<nat>)
    requires DistinctOrders(es) && Permutes(es, permuted, place, spot)
    ensures Select(es) == (if Select(permuted).Some? then Some(place[Select(permuted).value]) else None)
  {
    var r := Select(permuted);
    if r.Some? {
      var best := place[r.value];
      forall j | 0 <= j < |es| && j != best ensures Beats(es[best], es[j]) {
        assert !Beats(permuted[spot[j]], permuted[r.value]);
      }
      SelectIsBest(es, best);
    } else {
      forall j | 0 <= j < |es| ensures es[j].Out? {
        assert permuted[spot[j]].Out?;
      }
    }
  }
}
