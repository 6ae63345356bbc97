/** The meta records two nodes write for their conditionals, each on its own and some never matched by the other,
    and why both are still led to the same linked conditional. */
module Links {
  import opened Prelude
  import opened Payments
  import opened Channel

  type Metas = map<Key, Meta>

  /** One node writes: the record of a plain conditional, or its half of a derivative pair. An initiator writes its half
      before it offers the derivative, and keeps it when the offer is denied; it may stop after the first record.
      The other node of a conditional may be a third one. */
  datatype Write =
    | Single(at: Party, key: Key, meta: Meta)
    | Half(at: Party, cond: Conditional, initiator: bool)
    | FirstRecord(at: Party, cond: Conditional)

  datatype Stores = Stores(left: Metas, right: Metas) {
    function At(p: Party): Metas { if p.Left? then left else right }

    function With(p: Party, m: Metas): Stores { if p.Left? then this.(left := m) else this.(right := m) }
  }

  predicate Unlinked(m: Meta) { LinkKey(m.incoming).None? && LinkKey(m.outgoing).None? }

  function OutRecord(c: Conditional, linked: Key): Meta { Meta(None, Some(MetaSide(c, Some(linked))), None) }

  function InRecord(c: Conditional, linked: Key): Meta { Meta(Some(MetaSide(c, Some(linked))), None, None) }

  /** The initiator of a derivative holds it as outgoing and the linked one as incoming; the acceptor the other way. */
  function PrimaryRecord(c: Conditional, initiator: bool): Meta {
    if initiator then OutRecord(c, LinkedTo(c.key)) else InRecord(c, LinkedTo(c.key))
  }

  function LinkedRecord(c: Conditional, initiator: bool): Meta
    requires c.Resolvable?
  {
    if initiator then InRecord(LinkedOf(c), c.key) else OutRecord(LinkedOf(c), c.key)
  }

  function WithHalf(m: Metas, c: Conditional, initiator: bool): Metas
    requires c.Resolvable?
  {
    m[c.key := PrimaryRecord(c, initiator)][LinkedTo(c.key) := LinkedRecord(c, initiator)]
  }

  /** A record is the same but for its known resolve. */
  predicate SameSides(m: Meta, n: Meta) { m.incoming == n.incoming && m.outgoing == n.outgoing }

  predicate Holds(m: Metas, k: Key, r: Meta) { k in m && SameSides(m[k], r) }

  predicate HoldsHalf(m: Metas, c: Conditional, initiator: bool)
    requires c.Resolvable?
  {
    Holds(m, c.key, PrimaryRecord(c, initiator)) && Holds(m, LinkedTo(c.key), LinkedRecord(c, initiator))
  }

  /** A key is generated for one conditional: the other node knows neither of a derivative's keys, or holds the opposite
      half of that very derivative. */
  predicate OthersFit(other: Metas, c: Conditional, initiator: bool)
    requires c.Resolvable?
  {
    (c.key !in other && LinkedTo(c.key) !in other) || HoldsHalf(other, c, !initiator)
  }

  /** A key in use is not written again, except that an initiator finishes a half it began. */
  predicate Allowed(s: Stores, w: Write) {
    var m, other := s.At(w.at), s.At(w.at.Other());
    match w
    case Single(_, k, r) => k !in m && Unlinked(r) && (k in other ==> Unlinked(other[k]))
    case Half(_, c, initiator) =>
      && c.Resolvable? && LinkedTo(c.key) !in m && OthersFit(other, c, initiator)
      && (c.key !in m || (initiator && Holds(m, c.key, PrimaryRecord(c, true))))
    case FirstRecord(_, c) => c.Resolvable? && c.key !in m && c.key !in other && LinkedTo(c.key) !in other
  }

  function Written(s: Stores, w: Write): Stores {
    if !Allowed(s, w) then s
    else match w
      case Single(p, k, r) => s.With(p, s.At(p)[k := r])
      case Half(p, c, initiator) => s.With(p, WithHalf(s.At(p), c, initiator))
      case FirstRecord(p, c) => s.With(p, s.At(p)[c.key := PrimaryRecord(c, true)])
  }

  function AllWritten(s: Stores, ws: seq<Write>): Stores
    decreases |ws|
  {
    if ws == [] then s else Written(AllWritten(s, ws[..|ws| - 1]), ws[|ws| - 1])
  }

  // ---------- what the stores keep ----------

  /** The linked conditional of a record, when it has one, is a derivative the record's link leads to on both nodes. */
  ghost predicate Linked(mp: Metas, mr: Metas, k: Key)
    requires k in mp && k in mr
  {
    var lk := LinkKey(mp[k].incoming);
    && lk == LinkKey(mr[k].outgoing)
    && (lk.None? ==> LinkKey(mp[k].outgoing).None?)
    && (lk.Some? ==>
          && lk.value in mp && lk.value in mr && mp[lk.value].outgoing.Some?
          && CondOf(mp[lk.value].outgoing) == CondOf(mr[lk.value].incoming)
          && CondOf(mp[lk.value].outgoing).value.Resolvable?)
  }

  /** Whatever one node holds as incoming and the other as outgoing is linked alike. */
  ghost predicate LinkedAlike(mp: Metas, mr: Metas) {
    forall k :: k in mp && k in mr && mp[k].incoming.Some? && mr[k].outgoing.Some? ==> Linked(mp, mr, k)
  }

  ghost predicate StoresOk(s: Stores) { LinkedAlike(s.left, s.right) && LinkedAlike(s.right, s.left) }

  /** More of the same: nothing that was there is lost but a known resolve. */
  ghost predicate Grew(m: Metas, m': Metas) { forall k :: k in m ==> Holds(m', k, m[k]) }

  lemma LinkedStays(mp: Metas, mr: Metas, mp': Metas, mr': Metas, k: Key)
    requires k in mp && k in mr && Linked(mp, mr, k) && Grew(mp, mp') && Grew(mr, mr')
    ensures Linked(mp', mr', k)
  {
  }

  /** Only new keys have to be looked at. */
  lemma NewKeysDecide(mp: Metas, mr: Metas, mp': Metas)
    requires LinkedAlike(mp, mr) && LinkedAlike(mr, mp) && Grew(mp, mp')
    requires forall k :: k in mp' && k !in mp && k in mr ==>
      && (mp'[k].incoming.Some? && mr[k].outgoing.Some? ==> Linked(mp', mr, k))
      && (mr[k].incoming.Some? && mp'[k].outgoing.Some? ==> Linked(mr, mp', k))
    ensures LinkedAlike(mp', mr) && LinkedAlike(mr, mp')
  {
    assert Grew(mr, mr);
    forall k | k in mp' && k in mr && mp'[k].incoming.Some? && mr[k].outgoing.Some? ensures Linked(mp', mr, k) {
      if k in mp {
        assert SameSides(mp'[k], mp[k]) && Linked(mp, mr, k);
        LinkedStays(mp, mr, mp', mr, k);
      }
    }
    forall k | k in mr && k in mp' && mr[k].incoming.Some? && mp'[k].outgoing.Some? ensures Linked(mr, mp', k) {
      if k in mp {
        assert SameSides(mp'[k], mp[k]) && Linked(mr, mp, k);
        LinkedStays(mr, mp, mr, mp', k);
      }
    }
  }

  lemma HalfKeeps(m: Metas, other: Metas, c: Conditional, initiator: bool)
    requires LinkedAlike(m, other) && LinkedAlike(other, m) && c.Resolvable?
    requires LinkedTo(c.key) !in m && OthersFit(other, c, initiator)
    requires c.key !in m || Holds(m, c.key, PrimaryRecord(c, initiator))
    ensures LinkedAlike(WithHalf(m, c, initiator), other) && LinkedAlike(other, WithHalf(m, c, initiator))
  {
    NeverItsOwnLink(c.key);
    NewKeysDecide(m, other, WithHalf(m, c, initiator));
  }

  lemma WriteKeeps(s: Stores, w: Write)
    requires StoresOk(s)
    ensures StoresOk(Written(s, w))
  {
    if Allowed(s, w) {
      var m, other := s.At(w.at), s.At(w.at.Other());
      match w
      case Single(_, k, r) => NewKeysDecide(m, other, m[k := r]);
      case Half(_, c, initiator) => HalfKeeps(m, other, c, initiator);
      case FirstRecord(_, c) => NewKeysDecide(m, other, m[c.key := PrimaryRecord(c, true)]);
    }
  }

  lemma {:induction false} WritesKeep(s: Stores, ws: seq<Write>)
    requires StoresOk(s)
    ensures StoresOk(AllWritten(s, ws))
    decreases |ws|
  {
    if ws != [] {
      WritesKeep(s, ws[..|ws| - 1]);
      WriteKeeps(AllWritten(s, ws[..|ws| - 1]), ws[|ws| - 1]);
    }
  }

  // ---------- two nodes of a channel ----------

  const NO_RECORDS := Stores(map[], map[])

  ghost predicate SameRecords(a: Metas, b: Metas) { Grew(a, b) && Grew(b, a) }

  ghost predicate RecordedBy(mp: Metas, mr: Metas, p: Party, ws: seq<Write>) {
    var s := AllWritten(NO_RECORDS, ws);
    SameRecords(mp, s.At(p)) && SameRecords(mr, s.At(p.Other()))
  }

  /** The stores of two nodes after any series of writes; known resolves may have been added since. */
  ghost predicate Recorded(mp: Metas, mr: Metas, p: Party) { exists ws :: RecordedBy(mp, mr, p, ws) }

  lemma RecordedIsAlike(mp: Metas, mr: Metas, p: Party)
    requires Recorded(mp, mr, p)
    ensures LinkedAlike(mp, mr)
  {
    var ws :| RecordedBy(mp, mr, p, ws);
    WritesKeep(NO_RECORDS, ws);
    var s := AllWritten(NO_RECORDS, ws);
    SameRecordsAlike(s.At(p), s.At(p.Other()), mp, mr);
  }

  lemma SameRecordsAlike(a: Metas, b: Metas, mp: Metas, mr: Metas)
    requires LinkedAlike(a, b) && SameRecords(mp, a) && SameRecords(mr, b)
    ensures LinkedAlike(mp, mr)
  {
    forall k | k in mp && k in mr && mp[k].incoming.Some? && mr[k].outgoing.Some? ensures Linked(mp, mr, k) {
      assert SameSides(a[k], mp[k]) && SameSides(b[k], mr[k]);
      LinkedStays(a, b, mp, mr, k);
    }
  }

  lemma SameHalves(a: Metas, b: Metas, c: Conditional, initiator: bool)
    requires SameRecords(a, b) && c.Resolvable?
    ensures SameRecords(WithHalf(a, c, initiator), WithHalf(b, c, initiator))
  {
  }

  lemma FreeInBoth(a: Metas, b: Metas, k: Key)
    requires SameRecords(a, b)
    ensures k in a <==> k in b
  {
  }

  lemma NextWrite(ws: seq<Write>, w: Write)
    ensures AllWritten(NO_RECORDS, ws + [w]) == Written(AllWritten(NO_RECORDS, ws), w)
  {
    assert (ws + [w])[..|ws|] == ws;
  }

  lemma HalfWritten(s: Stores, p: Party, c: Conditional, initiator: bool)
    requires c.Resolvable? && c.key !in s.At(p) && LinkedTo(c.key) !in s.At(p)
    requires OthersFit(s.At(p.Other()), c, initiator)
    ensures Written(s, Half(p, c, initiator)).At(p) == WithHalf(s.At(p), c, initiator)
    ensures Written(s, Half(p, c, initiator)).At(p.Other()) == s.At(p.Other())
  {
  }

  /** A half the other node never matches, as after a denied offer, is one of these series. */
  lemma DeniedOfferIsRecorded(mp: Metas, mr: Metas, p: Party, c: Conditional) returns (ws: seq<Write>)
    requires Recorded(mp, mr, p) && c.Resolvable?
    requires c.key !in mp && LinkedTo(c.key) !in mp && c.key !in mr && LinkedTo(c.key) !in mr
    ensures RecordedBy(WithHalf(mp, c, true), mr, p, ws)
  {
    var before :| RecordedBy(mp, mr, p, before);
    var s := AllWritten(NO_RECORDS, before);
    FreeInBoth(mp, s.At(p), c.key);
    FreeInBoth(mp, s.At(p), LinkedTo(c.key));
    FreeInBoth(mr, s.At(p.Other()), c.key);
    FreeInBoth(mr, s.At(p.Other()), LinkedTo(c.key));
    HalfWritten(s, p, c, true);
    SameHalves(mp, s.At(p), c, true);
    ws := before + [Half(p, c, true)];
    NextWrite(before, Half(p, c, true));
  }

  /** So is the other node's half, when the offer is accepted after all. */
  lemma AcceptedOfferIsRecorded(mp: Metas, mr: Metas, p: Party, c: Conditional)
    requires Recorded(mp, mr, p) && c.Resolvable?
    requires c.key !in mp && LinkedTo(c.key) !in mp && c.key !in mr && LinkedTo(c.key) !in mr
    ensures Recorded(WithHalf(mp, c, true), WithHalf(mr, c, false), p)
  {
    var before := DeniedOfferIsRecorded(mp, mr, p, c);
    var s, q := AllWritten(NO_RECORDS, before), p.Other();
    FreeInBoth(mr, s.At(q), c.key);
    FreeInBoth(mr, s.At(q), LinkedTo(c.key));
    HalfIsHeld(mp, s.At(p), c, true);
    HalfWritten(s, q, c, false);
    SameHalves(mr, s.At(q), c, false);
    NextWrite(before, Half(q, c, false));
    assert RecordedBy(WithHalf(mp, c, true), WithHalf(mr, c, false), p, before + [Half(q, c, false)]);
  }

  lemma HalfIsHeld(m: Metas, b: Metas, c: Conditional, initiator: bool)
    requires c.Resolvable? && SameRecords(WithHalf(m, c, initiator), b)
    ensures HoldsHalf(b, c, initiator)
  {
    NeverItsOwnLink(c.key);
    assert c.key in WithHalf(m, c, initiator) && LinkedTo(c.key) in WithHalf(m, c, initiator);
  }

  /** So, with the records the nodes write, the two ends of a removal or an execution find the same linked
      conditional, and it is a derivative. */
  lemma RecordedLinksAgree(p: Chan, r: Chan, act: Action, lp: Local, lr: Local)
    requires Mirror(p, r) && Recorded(lp.metas, lr.metas, p.us)
    requires (act.RemoveCond? || act.ExecuteCond?) && act.id in p.their.data.conds
    requires
      var k := p.their.data.conds[act.id].key;
      k in lp.metas && k in lr.metas && lp.metas[k].incoming.Some? && lr.metas[k].outgoing.Some?
    ensures SameFound(p, r, act, lp, lr)
    ensures
      var k := p.their.data.conds[act.id].key;
      && ReceiverLink(lr.metas, k).Ok?
      && RemoveLink(lp.metas, k) == ExecuteLink(lp.metas, k) == ReceiverLink(lr.metas, k).value
      && (ExecuteLink(lp.metas, k).Some? ==> ExecuteLink(lp.metas, k).value.Resolvable?)
  {
    RecordedIsAlike(lp.metas, lr.metas, p.us);
    assert Linked(lp.metas, lr.metas, p.their.data.conds[act.id].key);
  }

  /** Hence an execution or a removal both nodes carry out, of a derivative or of anything else they recorded, leaves
      the channels mirrored. */
  lemma RecordedStepKeepsMirror(p: Chan, r: Chan, act: Action, w: World, lp: Local, lr: Local)
    requires Mirror(p, r) && Recorded(lp.metas, lr.metas, p.us)
    requires (act.RemoveCond? || act.ExecuteCond?) && act.id in p.their.data.conds
    requires
      var k := p.their.data.conds[act.id].key;
      k in lp.metas && k in lr.metas && lp.metas[k].incoming.Some? && lr.metas[k].outgoing.Some?
    requires ProposeStep(p, act, w, lp).Changed? && ReceiveStep(r, act, w, lr).Ok?
    ensures MirroredState(ProposeStep(p, act, w, lp).ch, ReceiveStep(r, act, w, lr).value)
  {
    RecordedLinksAgree(p, r, act, lp, lr);
    StepsKeepMirror(p, r, act, w, lp, lr);
  }

  /** A recorded derivative really is linked: its acceptor executes it together with the initiator's other half. */
  lemma PairIsLinked(initiator: Metas, acceptor: Metas, c: Conditional)
    requires c.Resolvable?
    ensures
      && ExecuteLink(WithHalf(acceptor, c, false), c.key) == Some(LinkedOf(c))
      && ExecuteLink(WithHalf(initiator, c, true), LinkedTo(c.key)) == Some(c)
  {
    NeverItsOwnLink(c.key);
  }

  lemma {:induction false} NeverItsOwnLink(k: Key)
    ensures k != LinkedTo(k)
    decreases k
  {
    if k.LinkedTo? {
      NeverItsOwnLink(k.base);
    }
  }
}
