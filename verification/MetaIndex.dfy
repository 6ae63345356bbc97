/** Records of conditionals by key, and the index of those a worker has to watch. */
module MetaIndex {
  import opened Prelude
  import opened Keys

  const KEY_BYTES := 32

  datatype Status = Active | WantClose | Closed | WantRemove | Removed | Pending

  /** One side of a record; a link of the wrong length does not count. */
  datatype MetaSide = MetaSide(channel: Bytes, linked: Bytes)

  datatype Meta = Meta(key: Bytes, status: Status, incoming: Option<MetaSide>, outgoing: Option<MetaSide>,
                       special: bool, updatedAt: int)

  /** Active, incoming and with special details. */
  predicate Watched(m: Meta) { m.incoming.Some? && m.status.Active? && m.special }

  /** The key on the other side of a pair: through the incoming side first. */
  function LinkOf(m: Meta): Option<Bytes> {
    if m.incoming.Some? && |m.incoming.value.linked| == KEY_BYTES then Some(m.incoming.value.linked)
    else if m.outgoing.Some? && |m.outgoing.value.linked| == KEY_BYTES then Some(m.outgoing.value.linked)
    else None
  }

  type Metas = map<Bytes, Meta>

  ghost predicate StoredByKey(metas: Metas) { forall k :: k in metas ==> metas[k].key == k }

  ghost function WatchedKeys(metas: Metas): set<Bytes> { set k | k in metas && Watched(metas[k]) }

  function Restamped(m: Meta, status: Status, now: int): Meta { m.(status := status, updatedAt := now) }

  /** The record linked to `key`, when there is one other than itself. */
  function Partner(metas: Metas, key: Bytes): Option<Bytes>
    requires key in metas
  {
    match LinkOf(metas[key])
    case None => None
    case Some(l) => if l == key || l !in metas then None else Some(l)
  }

  /** A side that names `l` as its link. */
  predicate Names(side: Option<MetaSide>, l: Bytes) { side.Some? && |side.value.linked| == 32
                                                     && side.value.linked == l }

  predicate NamesNobody(side: Option<MetaSide>) { side.None? || |side.value.linked| != 32 }

  /** The partner is whom the incoming side names, or else whom the outgoing side names, if recorded and not itself. */
  lemma PartnerExactly(metas: Metas, key: Bytes, l: Bytes)
    requires key in metas
    ensures Partner(metas, key) == Some(l) <==>
              (&& l in metas && l != key
               && (Names(metas[key].incoming, l)
                   || (NamesNobody(metas[key].incoming) && Names(metas[key].outgoing, l))))
  {
  }

  /** Two records that point at each other. */
  ghost predicate Paired(metas: Metas, a: Bytes, b: Bytes) {
    a in metas && b in metas && Partner(metas, a) == Some(b) && Partner(metas, b) == Some(a)
  }

  /** Closing changes `key` and its partner, and nothing else. */
  function PairClosed(metas: Metas, key: Bytes, status: Status, now: int): Metas
    requires key in metas
  {
    var one := metas[key := Restamped(metas[key], status, now)];
    match Partner(metas, key)
    case None => one
    case Some(l) => one[l := Restamped(metas[l], status, now)]
  }

  /** Closing either record of a pair gives the same table, and both the same status, and they stay a pair. */
  lemma ClosingEitherSideIsTheSame(metas: Metas, a: Bytes, b: Bytes, status: Status, now: int)
    requires Paired(metas, a, b)
    ensures PairClosed(metas, a, status, now) == PairClosed(metas, b, status, now)
    ensures
      var after := PairClosed(metas, a, status, now);
      && Paired(after, a, b) && after[a].status == status && after[b].status == status
      && (forall k :: k in metas && k != a && k != b ==> k in after && after[k] == metas[k])
  {
  }

  /** A pair with one status keeps one status, whatever pairs are closed and however often. */
  lemma {:induction false} PairsStayEqual(metas: Metas, a: Bytes, b: Bytes, closes: seq<(Bytes, Status, int)>)
    requires Paired(metas, a, b) && metas[a].status == metas[b].status
    requires Mutual(metas)
    ensures
      var after := AllClosed(metas, closes);
      Paired(after, a, b) && after[a].status == after[b].status
    decreases |closes|
  {
    if closes != [] {
      var (k, s, now) := closes[0];
      if k in metas {
        var next := PairClosed(metas, k, s, now);
        ClosingKeepsMutual(metas, k, s, now);
        ClosingKeepsEqual(metas, a, b, k, s, now);
        PairsStayEqual(next, a, b, closes[1..]);
      } else {
        PairsStayEqual(metas, a, b, closes[1..]);
      }
    }
  }

  /** Every link to an existing record is returned. */
  ghost predicate Mutual(metas: Metas) {
    forall k :: k in metas && Partner(metas, k).Some? ==> Partner(metas, Partner(metas, k).value) == Some(k)
  }

  function AllClosed(metas: Metas, closes: seq<(Bytes, Status, int)>): Metas
    decreases |closes|
  {
    if closes == [] then metas
    else
      var (k, s, now) := closes[0];
      AllClosed(if k in metas then PairClosed(metas, k, s, now) else metas, closes[1..])
  }

  ghost predicate SameLinks(metas: Metas, after: Metas) {
    after.Keys == metas.Keys && forall k :: k in metas ==> Partner(after, k) == Partner(metas, k)
  }

  lemma RestampKeepsLinks(metas: Metas, key: Bytes, m: Meta)
    requires key in metas && LinkOf(m) == LinkOf(metas[key])
    ensures SameLinks(metas, metas[key := m])
  {
  }

  lemma ClosingKeepsLinks(metas: Metas, key: Bytes, s: Status, now: int)
    requires key in metas
    ensures SameLinks(metas, PairClosed(metas, key, s, now))
  {
    var m := Restamped(metas[key], s, now);
    assert LinkOf(m) == LinkOf(metas[key]);
    RestampKeepsLinks(metas, key, m);
    var p := Partner(metas, key);
    if p.Some? {
      var l := Restamped(metas[p.value], s, now);
      assert LinkOf(l) == LinkOf(metas[p.value]);
      RestampKeepsLinks(metas[key := m], p.value, l);
    }
  }

  lemma ClosingKeepsMutual(metas: Metas, key: Bytes, s: Status, now: int)
    requires key in metas && Mutual(metas)
    ensures Mutual(PairClosed(metas, key, s, now))
  {
    ClosingKeepsLinks(metas, key, s, now);
  }

  lemma ClosingKeepsEqual(metas: Metas, a: Bytes, b: Bytes, key: Bytes, s: Status, now: int)
    requires key in metas && Mutual(metas) && Paired(metas, a, b) && metas[a].status == metas[b].status
    ensures
      var after := PairClosed(metas, key, s, now);
      Paired(after, a, b) && after[a].status == after[b].status
  {
    ClosingKeepsLinks(metas, key, s, now);
  }

  class MetaDb {
    var metas: Metas
    var index: set<Bytes>

    /** The index holds exactly the watched records. */
    ghost predicate Valid()
      reads this
    {
      StoredByKey(metas) && index == WatchedKeys(metas)
    }

    /** What a worker finds in the index: the active records with an incoming side and special details. */
    lemma IndexSays(k: Bytes)
      requires Valid()
      ensures k in index <==>
                k in metas && metas[k].status == Active && metas[k].incoming.Some? && metas[k].special
    {
    }

    constructor ()
      ensures Valid() && metas == map[]
    {
      metas, index := map[], {};
    }

    /** `syncActiveSpecialMetasIndex`. */
    method SyncIndex(prev: Option<Meta>, next: Meta)
      modifies this`index
      ensures forall k :: k in index <==>
        if k == next.key && Watched(next) then true
        else if prev.Some? && k == prev.value.key && Watched(prev.value) then false
        else k in old(index)
    {
      if prev.Some? && Watched(prev.value) && (!Watched(next) || prev.value.key != next.key) {
        index := index - {prev.value.key};
      }
      if Watched(next) {
        index := index + {next.key};
      }
    }

    method CreateVirtualChannelMeta(m: Meta) returns (ok: bool)
      requires Valid()
      modifies this
      ensures Valid() && (ok <==> m.key !in old(metas))
      ensures metas == if ok then old(metas)[m.key := m] else old(metas)
    {
      if m.key in metas {
        return false;
      }
      metas := metas[m.key := m];
      SyncIndex(None, m);
      return true;
    }

    method UpdateVirtualChannelMeta(m: Meta) returns (ok: bool)
      requires Valid()
      modifies this
      ensures Valid() && (ok <==> m.key in old(metas))
      ensures metas == if ok then old(metas)[m.key := m] else old(metas)
    {
      if m.key !in metas {
        return false;
      }
      var prev := metas[m.key];
      metas := metas[m.key := m];
      SyncIndex(Some(prev), m);
      return true;
    }

    /** `ClosePairMeta`: the record and its partner, if it exists, get the status. */
    method ClosePairMeta(key: Bytes, status: Status, now: int) returns (ok: bool)
      requires Valid()
      modifies this
      ensures Valid() && (ok <==> key in old(metas))
      ensures metas == if ok then PairClosed(old(metas), key, status, now) else old(metas)
    {
      if key !in metas {
        return false;
      }
      var prev := metas[key];
      var meta := Restamped(prev, status, now);
      metas := metas[key := meta];
      SyncIndex(Some(prev), meta);
      ok := true;
      var link := LinkOf(meta);
      if link.None? || link.value == meta.key {
        return;
      }
      if link.value !in metas {
        return;
      }
      var prevLinked := metas[link.value];
      var linked := Restamped(prevLinked, status, now);
      metas := metas[link.value := linked];
      SyncIndex(Some(prevLinked), linked);
    }
  }
}
