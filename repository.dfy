/** The relational backend (app/repository.py) with the database session
    taken out: the three tables are three collections of rows. Identifiers
    are primary keys, so within a table they are distinct. A query that
    returns "no row" is `None`. Row order is not part of any contract here,
    because the relational engine promises none. The foreign keys of the
    schema are taken as not enforced: only the parent checks the code itself
    makes are modelled. */
module Repository {
  import opened Kanban

  class Tables {
    var boards: seq<Board>
    var lists: seq<ListKanban>
    var cards: seq<Card>

    /** The primary-key constraint of each table. */
    ghost predicate Valid()
      reads this
    {
      && DistinctIds(Ids(boards, BoardId))
      && DistinctIds(Ids(lists, ListId))
      && DistinctIds(Ids(cards, CardId))
    }

    /** Every row's parent exists. */
    ghost predicate Integrity()
      reads this
    {
      ListsReferenceBoards(boards, lists) && CardsReferenceLists(lists, cards)
    }

    /** Freshly created, empty tables. */
    constructor ()
      ensures boards == [] && lists == [] && cards == []
      ensures Valid() && Integrity()
    {
      boards, lists, cards := [], [], [];
    }

    method CreateBoard(name: string) returns (board: Board)
      requires Valid()
      modifies this
      ensures Valid()
      ensures board.id == NextId(Ids(old(boards), BoardId)) && board.name == name
      ensures boards == old(boards) + [board]
      ensures lists == old(lists) && cards == old(cards)
      ensures old(Integrity()) ==> Integrity()
    {
      board := Board(NextId(Ids(boards, BoardId)), name);
      assert Ids(boards + [board], BoardId) == Ids(boards, BoardId) + [board.id];
      FreshIdKeepsDistinct(Ids(boards, BoardId));
      ghost var wasIntact := Integrity();
      ghost var before := boards;
      boards := boards + [board];
      if wasIntact {
        forall i | 0 <= i < |lists| ensures HasId(boards, BoardId, lists[i].boardId) {
          var k :| 0 <= k < |before| && before[k].id == lists[i].boardId;
          assert boards[k] == before[k];
        }
      }
    }

    /** Every board row, in no particular order. */
    function GetBoards(): (r: seq<Board>)
      reads this
      ensures multiset(r) == multiset(boards)
    {
      boards
    }

    method CreateList(boardId: int, name: string) returns (r: Option<ListKanban>)
      requires Valid()
      modifies this
      ensures Valid()
      ensures boards == old(boards) && cards == old(cards)
      ensures !HasId(boards, BoardId, boardId) ==> r.None? && lists == old(lists)
      ensures HasId(boards, BoardId, boardId) ==>
                && r.Some?
                && r.value == ListKanban(NextId(Ids(old(lists), ListId)), boardId, name)
                && lists == old(lists) + [r.value]
      ensures old(Integrity()) ==> Integrity()
    {
      if !HasId(boards, BoardId, boardId) {
        return None;
      }
      var list := ListKanban(NextId(Ids(lists, ListId)), boardId, name);
      assert Ids(lists + [list], ListId) == Ids(lists, ListId) + [list.id];
      FreshIdKeepsDistinct(Ids(lists, ListId));
      ghost var wasIntact := Integrity();
      ghost var before := lists;
      lists := lists + [list];
      r := Some(list);
      if wasIntact {
        forall i | 0 <= i < |cards| ensures HasId(lists, ListId, cards[i].listId) {
          var k :| 0 <= k < |before| && before[k].id == cards[i].listId;
          assert lists[k] == before[k];
        }
      }
    }

    /** Exactly the list rows whose board is `boardId`; the board itself is
        not looked up. */
    function GetListsByBoard(boardId: int): (r: seq<ListKanban>)
      reads this
      ensures forall l {:trigger multiset(r)[l]} ::
                multiset(r)[l] == if l.boardId == boardId then multiset(lists)[l] else 0
    {
      Filter(lists, OnBoard(boardId))
    }

    method CreateCard(draft: CardDraft) returns (r: Option<Card>)
      requires Valid()
      modifies this
      ensures Valid()
      ensures boards == old(boards) && lists == old(lists)
      ensures !HasId(lists, ListId, draft.listId) ==> r.None? && cards == old(cards)
      ensures HasId(lists, ListId, draft.listId) ==>
                && r.Some?
                && r.value.id == NextId(Ids(old(cards), CardId))
                && r.value.listId == draft.listId
                && r.value.title == draft.title
                && r.value.description == draft.description
                && r.value.assignee == draft.assignee
                && r.value.status == StatusOrDefault(draft.status)
                && cards == old(cards) + [r.value]
      ensures old(Integrity()) ==> Integrity()
    {
      if !HasId(lists, ListId, draft.listId) {
        return None;
      }
      var card := Card(NextId(Ids(cards, CardId)), draft.listId, draft.title,
                       draft.description, draft.assignee, StatusOrDefault(draft.status));
      assert Ids(cards + [card], CardId) == Ids(cards, CardId) + [card.id];
      FreshIdKeepsDistinct(Ids(cards, CardId));
      cards := cards + [card];
      r := Some(card);
    }

    /** The card row with the identifier, if there is one. */
    function GetCard(cardId: int): (r: Option<Card>)
      reads this
      ensures r.Some? <==> HasId(cards, CardId, cardId)
      ensures r.Some? ==> r.value in cards && r.value.id == cardId
      ensures Valid() ==> forall i :: 0 <= i < |cards| && cards[i].id == cardId ==> r == Some(cards[i])
    {
      match FirstCardIndex(cards, cardId)
      case None => None
      case Some(i) => Some(cards[i])
    }

    /** Exactly the card rows matching every filter that is given and
        non-empty, in no particular order. */
    function GetCards(status: Option<string>, assignee: Option<string>): (r: seq<Card>)
      reads this
      ensures forall c {:trigger multiset(r)[c]} ::
                multiset(r)[c] == if Matches(c, status, assignee) then multiset(cards)[c] else 0
    {
      SelectCardsIsConjunction(cards, status, assignee);
      SelectCards(cards, status, assignee)
    }

    /** Overwrites the supplied fields of the card, except its identifier.
        The new list is not checked. */
    method UpdateCard(cardId: int, patch: CardPatch) returns (r: Option<Card>)
      requires Valid()
      modifies this
      ensures Valid()
      ensures boards == old(boards) && lists == old(lists)
      ensures !HasId(old(cards), CardId, cardId) ==> r.None? && cards == old(cards)
      ensures HasId(old(cards), CardId, cardId) ==>
                var i := FirstCardIndex(old(cards), cardId).value;
                && r == Some(Merge(old(cards)[i], patch))
                && PatchApplied(old(cards)[i], patch, r.value)
                && r.value.id == cardId
                && cards == old(cards)[i := r.value]
      ensures old(ListsReferenceBoards(boards, lists)) ==> ListsReferenceBoards(boards, lists)
    {
      match FirstCardIndex(cards, cardId)
      case None =>
        r := None;
      case Some(i) =>
        var card := Merge(cards[i], patch);
        assert Ids(cards[i := card], CardId) == Ids(cards, CardId);
        cards := cards[i := card];
        r := Some(card);
    }

    /** Deletes the card row with the identifier, if there is one, and no
        other row. */
    method DeleteCard(cardId: int)
      requires Valid()
      modifies this
      ensures Valid()
      ensures boards == old(boards) && lists == old(lists)
      ensures !HasId(old(cards), CardId, cardId) ==> cards == old(cards)
      ensures HasId(old(cards), CardId, cardId) ==>
                cards == RemoveAt(old(cards), FirstCardIndex(old(cards), cardId).value)
      ensures cards == WithoutCard(old(cards), cardId)
      ensures old(Integrity()) ==> Integrity()
    {
      ghost var before := cards;
      match FirstCardIndex(cards, cardId)
      case None =>
        FilterKeepsAll(cards, IdIsNot(cardId));
      case Some(i) =>
        RemoveAtIsWithoutCard(cards, i);
        cards := RemoveAt(cards, i);
      FilteredIdsDistinct(before, IdIsNot(cardId));
      forall i | 0 <= i < |cards| ensures cards[i] in before {
        assert cards[i] in cards;
      }
    }

    /** Points the card at the target list, once that list is known to
        exist and the card is found. */
    method MoveCard(cardId: int, targetListId: int) returns (r: Option<Card>)
      requires Valid()
      modifies this
      ensures Valid()
      ensures boards == old(boards) && lists == old(lists)
      ensures !HasId(lists, ListId, targetListId) || !HasId(old(cards), CardId, cardId) ==>
                r.None? && cards == old(cards)
      ensures HasId(lists, ListId, targetListId) && HasId(old(cards), CardId, cardId) ==>
                var i := FirstCardIndex(old(cards), cardId).value;
                && r == Some(old(cards)[i].(listId := targetListId))
                && cards == old(cards)[i := r.value]
      ensures old(Integrity()) ==> Integrity()
    {
      if !HasId(lists, ListId, targetListId) {
        return None;
      }
      match FirstCardIndex(cards, cardId)
      case None =>
        r := None;
      case Some(i) =>
        var card := cards[i].(listId := targetListId);
        assert Ids(cards[i := card], CardId) == Ids(cards, CardId);
        cards := cards[i := card];
        r := Some(card);
    }

    function BoardExists(boardId: int): (r: bool)
      reads this
      ensures r <==> boardId in Ids(boards, BoardId)
    {
      HasId(boards, BoardId, boardId)
    }
  }
}
