/** How the two backends compare where their code differs (card update and
    card deletion), what card update does to referential integrity, and the
    end-to-end walk-through of a sprint board on each backend. */
module Backends {
  import opened Kanban
  import InMemory
  import Repository

  /** The update of a client that sends every field, the status possibly
      excepted, as it reaches the relational backend: every field but the
      identifier is supplied, and the status when the request carried one. */
  function FullPatch(d: CardDraft): CardPatch {
    CardPatch(None, Some(d.listId), Some(d.title), Some(d.description), Some(d.assignee), d.status)
  }

  /** When the request carries a status, replacing the card (snapshot
      backend) and merging the supplied fields (relational backend) give
      the same card. */
  lemma UpdateBackendsAgreeOnFullRequest(c: Card, d: CardDraft)
    requires d.status.Some?
    ensures Merge(c, FullPatch(d)) == Materialize(d, c.id)
  {
  }

  /** When the request omits the status, the snapshot backend resets it to
      the default while the relational backend keeps the stored one. */
  lemma UpdateBackendsDivergeOnOmittedStatus(c: Card, d: CardDraft)
    requires d.status.None? && c.status != DefaultStatus
    ensures Materialize(d, c.id).status == DefaultStatus
    ensures Merge(c, FullPatch(d)).status == c.status
    ensures Merge(c, FullPatch(d)) != Materialize(d, c.id)
  {
  }

  /** Under distinct identifiers the relational backend, which deletes the
      one row found, removes the same cards as the snapshot backend, which
      removes every card with the identifier. */
  lemma DeleteBackendsAgree(cs: seq<Card>, id: int)
    requires DistinctIds(Ids(cs, CardId))
    ensures (match FirstCardIndex(cs, id)
             case None => cs
             case Some(i) => RemoveAt(cs, i)) == WithoutCard(cs, id)
  {
    match FirstCardIndex(cs, id)
    case None =>
      FilterKeepsAll(cs, IdIsNot(id));
    case Some(i) =>
      RemoveAtIsWithoutCard(cs, i);
  }

  /** Neither backend checks the list named by an update, so an update can
      leave a card pointing at a list that does not exist. */
  lemma UpdateMayOrphanCard()
    ensures var ls := [ListKanban(1, 1, "Todo")];
            var cs := [Card(1, 1, "Fix bug", None, None, "todo")];
            var d := CardDraft(99, "Fix bug", None, None, None);
            && CardsReferenceLists(ls, cs)
            && !CardsReferenceLists(ls, cs[0 := Materialize(d, 1)])
            && !CardsReferenceLists(ls, cs[0 := Merge(cs[0], FullPatch(d))])
  {
    var ls := [ListKanban(1, 1, "Todo")];
    var cs := [Card(1, 1, "Fix bug", None, None, "todo")];
    assert HasId(ls, ListId, cs[0].listId) by {
      assert ls[0].id == 1;
    }
    assert CardsReferenceLists(ls, cs);
    var d := CardDraft(99, "Fix bug", None, None, None);
    var replaced, merged := cs[0 := Materialize(d, 1)], cs[0 := Merge(cs[0], FullPatch(d))];
    assert replaced[0].listId == 99 && merged[0].listId == 99;
    assert !HasId(ls, ListId, 99);
  }

  /** A board, a list and a card on the snapshot backend; the card is moved
      to a missing list, then updated with a new status; then deleted twice. */
  method SprintScenarioInMemory()
  {
    var store := new InMemory.Store();
    var board := store.CreateBoard("Sprint1");
    assert board.id == 1;
    var list := store.CreateList(1, "Todo");
    assert store.boards[0].id == 1;
    assert list == InMemory.Ok(ListKanban(1, 1, "Todo"));
    var card := store.CreateCard(CardDraft(1, "Fix bug", None, None, None));
    assert store.lists[0].id == 1;
    assert card == InMemory.Ok(Card(1, 1, "Fix bug", None, None, "todo"));

    var moved := store.MoveCard(1, 99);
    assert moved == InMemory.NotFound(InMemory.TargetListMissing);
    assert store.cards == [Card(1, 1, "Fix bug", None, None, "todo")];

    // The body repeats the title and list: this backend replaces the card whole.
    var updated := store.UpdateCard(1, CardDraft(1, "Fix bug", None, None, Some("done")));
    assert store.cards[0].id == 1;
    assert updated.Ok? && updated.value.status == "done" && updated.value.title == "Fix bug";

    store.DeleteCard(1);
    var afterFirst := store.cards;
    store.DeleteCard(1);
    WithoutCardIdempotent(afterFirst, 1);
    assert store.cards == afterFirst;
  }

  /** The same walk-through on the relational backend, where the update
      supplies only the status. */
  method SprintScenarioRepository()
  {
    var db := new Repository.Tables();
    var board := db.CreateBoard("Sprint1");
    assert board.id == 1;
    var list := db.CreateList(1, "Todo");
    assert db.boards[0].id == 1;
    assert list == Some(ListKanban(1, 1, "Todo"));
    var card := db.CreateCard(CardDraft(1, "Fix bug", None, None, None));
    assert db.lists[0].id == 1;
    assert card == Some(Card(1, 1, "Fix bug", None, None, "todo"));

    var moved := db.MoveCard(1, 99);
    assert moved.None?;
    assert db.cards == [Card(1, 1, "Fix bug", None, None, "todo")];

    var updated := db.UpdateCard(1, CardPatch(None, None, None, None, None, Some("done")));
    assert db.cards[0].id == 1;
    assert updated == Some(Card(1, 1, "Fix bug", None, None, "done"));
  }

  /** On the relational backend, deleting the newest card makes the next
      card created receive its identifier again. */
  method IdReuseScenarioRepository()
  {
    var db := new Repository.Tables();
    var board := db.CreateBoard("Sprint1");
    var list := db.CreateList(board.id, "Todo");
    assert db.boards[0].id == 1;
    var first := db.CreateCard(CardDraft(1, "Fix bug", None, None, None));
    assert db.lists[0].id == 1;
    assert first.Some? && first.value.id == 1;
    var second := db.CreateCard(CardDraft(1, "Write docs", None, Some("ann"), None));
    assert second.Some? && second.value.id == 2;
    db.DeleteCard(2);
    assert db.cards[..1] == [Card(1, 1, "Fix bug", None, None, "todo")];
    var third := db.CreateCard(CardDraft(1, "Review", None, None, None));
    assert third.Some? && third.value.id == 2;
  }
}
