/**
 * The browser-side deck store: a list of saved decks kept under one key and a
 * single in-progress draft kept under another.  The key/value storage is an
 * object with one field per key; a key that was never written (or was
 * removed) is `None`.
 */
module Storage {
  import opened Wrappers
  import opened DeckTypes

  /** A draft: the step records the wizard has filled in so far. */
  datatype PartialDeck = PartialDeck(
    step1: Option<Basics>, step2: Option<Narrative>, step3: Option<MarketInfo>,
    step4: Option<Monetization>, step5: Option<Traction>)

  /** The position of the first deck with the given id, or -1 when there is none (`findIndex`). */
  function IndexOf(ds: seq<DeckData>, id: string): (r: int)
    ensures -1 <= r < |ds|
    ensures r >= 0 ==> ds[r].id == id && forall j :: 0 <= j < r ==> ds[j].id != id
    ensures r == -1 <==> forall j :: 0 <= j < |ds| ==> ds[j].id != id
  {
    if ds == [] then -1
    else if ds[0].id == id then 0
    else
      var k := IndexOf(ds[1..], id);
      if k < 0 then -1 else k + 1
  }

  /** The first deck with the given id, if any (`find(...) || null`). */
  function Find(ds: seq<DeckData>, id: string): (r: Option<DeckData>)
    ensures r.None? <==> forall j :: 0 <= j < |ds| ==> ds[j].id != id
    ensures r.Some? ==> r.value.id == id && r.value in ds
  {
    var i := IndexOf(ds, id);
    if i >= 0 then Some(ds[i]) else None
  }

  /** Replaces the first deck with the same id, or appends when there is none. */
  function Upsert(ds: seq<DeckData>, d: DeckData): (r: seq<DeckData>)
    ensures d in r
    ensures |r| == |ds| || |r| == |ds| + 1
  {
    var i := IndexOf(ds, d.id);
    if i >= 0 then
      var r := ds[i := d];
      assert r[i] == d;
      r
    else
      var r := ds + [d];
      assert r[|ds|] == d;
      r
  }

  /** The decks whose id differs from `id`, in their original order (`filter`). */
  function RemoveId(ds: seq<DeckData>, id: string): (r: seq<DeckData>)
    ensures |r| <= |ds|
    ensures forall j :: 0 <= j < |r| ==> r[j].id != id && r[j] in ds
  {
    if ds == [] then []
    else (if ds[0].id == id then [] else [ds[0]]) + RemoveId(ds[1..], id)
  }

  predicate DistinctIds(ds: seq<DeckData>) {
    forall i, j :: 0 <= i < j < |ds| ==> ds[i].id != ds[j].id
  }

  /** When the id is stored at `i`, saving keeps the length, puts the deck at `i` and leaves every other slot alone. */
  lemma UpsertReplaces(ds: seq<DeckData>, d: DeckData)
    requires IndexOf(ds, d.id) >= 0
    ensures var i := IndexOf(ds, d.id); var r := Upsert(ds, d);
      |r| == |ds| && r[i] == d && forall j :: 0 <= j < |ds| && j != i ==> r[j] == ds[j]
  {
  }

  /** When the id is not stored, saving appends the deck after the unchanged earlier entries. */
  lemma UpsertAppends(ds: seq<DeckData>, d: DeckData)
    requires forall j :: 0 <= j < |ds| ==> ds[j].id != d.id
    ensures Upsert(ds, d) == ds + [d]
  {
  }

  /** Looking up a saved deck's id finds exactly that deck. */
  lemma FindAfterUpsert(ds: seq<DeckData>, d: DeckData)
    ensures Find(Upsert(ds, d), d.id) == Some(d)
  {
    var i := IndexOf(ds, d.id);
    var r := Upsert(ds, d);
    if i >= 0 {
      assert r[i] == d;
      assert forall j :: 0 <= j < i ==> r[j] == ds[j];
      assert IndexOf(r, d.id) == i;
    } else {
      assert r[|ds|] == d;
      assert IndexOf(r, d.id) == |ds|;
    }
  }

  /** Saving a deck does not change what any other id finds. */
  lemma FindOtherAfterUpsert(ds: seq<DeckData>, d: DeckData, id: string)
    requires id != d.id
    ensures Find(Upsert(ds, d), id) == Find(ds, id)
  {
    var i := IndexOf(ds, d.id);
    var r := Upsert(ds, d);
    var k := IndexOf(ds, id);
    if i >= 0 {
      assert forall j :: 0 <= j < |ds| && j != i ==> r[j] == ds[j];
      assert forall j :: 0 <= j < |ds| ==> (r[j].id == id <==> ds[j].id == id);
      if k >= 0 {
        assert IndexOf(r, id) == k;
      } else {
        assert IndexOf(r, id) == -1;
      }
    } else {
      assert r[..|ds|] == ds;
      if k >= 0 {
        assert IndexOf(r, id) == k;
      } else {
        assert forall j :: 0 <= j < |r| ==> r[j].id != id;
      }
    }
  }

  /** Saving keeps stored ids distinct. */
  lemma UpsertKeepsDistinct(ds: seq<DeckData>, d: DeckData)
    requires DistinctIds(ds)
    ensures DistinctIds(Upsert(ds, d))
  {
    var i := IndexOf(ds, d.id);
    var r := Upsert(ds, d);
    if i >= 0 {
      forall a, b | 0 <= a < b < |r| ensures r[a].id != r[b].id {
        if a == i {
          assert r[b] == ds[b];
        } else if b == i {
          assert r[a] == ds[a];
        } else {
          assert r[a] == ds[a] && r[b] == ds[b];
        }
      }
    } else {
      forall a, b | 0 <= a < b < |r| ensures r[a].id != r[b].id {
        if b == |ds| {
          assert r[a] == ds[a];
        } else {
          assert r[a] == ds[a] && r[b] == ds[b];
        }
      }
    }
  }

  /** Saving the same deck twice stores the same list as saving it once. */
  lemma UpsertIdempotent(ds: seq<DeckData>, d: DeckData)
    ensures Upsert(Upsert(ds, d), d) == Upsert(ds, d)
  {
    var r := Upsert(ds, d);
    var i := IndexOf(ds, d.id);
    if i >= 0 {
      assert r[i] == d;
      assert forall j :: 0 <= j < i ==> r[j] == ds[j];
      assert IndexOf(r, d.id) == i;
    } else {
      assert r[|ds|] == d;
      assert forall j :: 0 <= j < |ds| ==> r[j] == ds[j];
      assert IndexOf(r, d.id) == |ds|;
    }
  }

  /** Filtering distributes over concatenation, so the survivors keep their order. */
  lemma {:induction false} RemoveIdConcat(a: seq<DeckData>, b: seq<DeckData>, id: string)
    ensures RemoveId(a + b, id) == RemoveId(a, id) + RemoveId(b, id)
  {
    if a == [] {
      assert a + b == b;
    } else {
      assert (a + b)[0] == a[0];
      assert (a + b)[1..] == a[1..] + b;
      RemoveIdConcat(a[1..], b, id);
    }
  }

  /** Deleting an id that is not stored leaves the list as it was. */
  lemma {:induction false} RemoveAbsent(ds: seq<DeckData>, id: string)
    requires forall j :: 0 <= j < |ds| ==> ds[j].id != id
    ensures RemoveId(ds, id) == ds
  {
    if ds != [] {
      RemoveAbsent(ds[1..], id);
      assert [ds[0]] + ds[1..] == ds;
    }
  }

  /** Deleting twice is deleting once. */
  lemma RemoveIdempotent(ds: seq<DeckData>, id: string)
    ensures RemoveId(RemoveId(ds, id), id) == RemoveId(ds, id)
  {
    RemoveAbsent(RemoveId(ds, id), id);
  }

  /** Deleting removes every deck with the id and keeps every other deck. */
  lemma {:induction false} RemoveKeepsOthers(ds: seq<DeckData>, id: string, d: DeckData)
    ensures d in RemoveId(ds, id) <==> d in ds && d.id != id
  {
    if ds != [] {
      RemoveKeepsOthers(ds[1..], id, d);
      assert ds == [ds[0]] + ds[1..];
      assert d in ds <==> d == ds[0] || d in ds[1..];
    }
  }

  /** A lookup in a list with a first element either stops there or goes on with the rest. */
  lemma FindCons(ds: seq<DeckData>, id: string)
    requires ds != []
    ensures Find(ds, id) == if ds[0].id == id then Some(ds[0]) else Find(ds[1..], id)
  {
  }

  /** After deleting an id nothing with that id is found. */
  lemma FindAfterRemove(ds: seq<DeckData>, id: string)
    ensures Find(RemoveId(ds, id), id) == None
  {
  }

  /** Deleting one id does not change what any other id finds. */
  lemma {:induction false} FindOtherAfterRemove(ds: seq<DeckData>, id: string, other: string)
    requires other != id
    ensures Find(RemoveId(ds, id), other) == Find(ds, other)
  {
    if ds != [] {
      FindOtherAfterRemove(ds[1..], id, other);
      FindCons(ds, other);
      var rest := RemoveId(ds[1..], id);
      if ds[0].id == id {
        assert RemoveId(ds, id) == [] + rest == rest;
      } else {
        var r := RemoveId(ds, id);
        assert r == [ds[0]] + rest;
        assert r[0] == ds[0] && r[1..] == rest;
        FindCons(r, other);
      }
    }
  }

  /** The two storage slots: the saved decks and the wizard's draft. */
  class DeckStore {
    /** The decks slot; `None` until something is saved. */
    var decks: Option<seq<DeckData>>
    /** The draft slot; `None` when no draft is kept. */
    var draft: Option<PartialDeck>

    constructor ()
      ensures decks == None && draft == None
    {
      decks := None;
      draft := None;
    }

    /** The stored decks, reading a missing slot as the empty list. */
    function AllDecks(): seq<DeckData>
      reads this
    {
      if decks.Some? then decks.value else []
    }

    method GetAllDecks() returns (r: seq<DeckData>)
      ensures decks.None? ==> r == []
      ensures decks.Some? ==> r == decks.value
    {
      r := if decks.Some? then decks.value else [];
    }

    method GetDeck(id: string) returns (r: Option<DeckData>)
      ensures r == Find(AllDecks(), id)
      ensures r.Some? ==> r.value.id == id && r.value in AllDecks()
      ensures r.None? <==> forall d :: d in AllDecks() ==> d.id != id
    {
      var all := GetAllDecks();
      r := Find(all, id);
    }

    /** Stamps the deck with `now` and stores it in place of the first deck with its id, or at the end. */
    method SaveDeck(deck: DeckData, now: string) returns (saved: DeckData)
      modifies this
      ensures saved == deck.(updatedAt := now)
      ensures decks == Some(Upsert(old(AllDecks()), saved)) && draft == old(draft)
      ensures Find(AllDecks(), deck.id) == Some(saved)
    {
      var all := GetAllDecks();
      var idx := IndexOf(all, deck.id);
      saved := deck.(updatedAt := now);
      if idx >= 0 {
        all := all[idx := saved];
      } else {
        all := all + [saved];
      }
      decks := Some(all);
      FindAfterUpsert(old(AllDecks()), saved);
    }

    /** Keeps only the decks whose id differs from `id`. */
    method DeleteDeck(id: string)
      modifies this
      ensures decks == Some(RemoveId(old(AllDecks()), id)) && draft == old(draft)
      ensures Find(AllDecks(), id) == None
    {
      var all := GetAllDecks();
      decks := Some(RemoveId(all, id));
      FindAfterRemove(all, id);
    }

    method SaveDraft(data: PartialDeck)
      modifies this
      ensures draft == Some(data) && decks == old(decks)
    {
      draft := Some(data);
    }

    method GetDraft() returns (r: Option<PartialDeck>)
      ensures r == draft
    {
      r := draft;
    }

    method ClearDraft()
      modifies this
      ensures draft == None && decks == old(decks)
    {
      draft := None;
    }
  }
}
