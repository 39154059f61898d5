/** The snapshot-file backend (main.py): three in-memory collections that
    the endpoint bodies change directly. Every failure the endpoints raise
    as "not found" is a `NotFound` result naming what was missing. */
module InMemory {
  import opened Kanban

  /** What a not-found failure reports as missing. */
  datatype Missing = BoardMissing | ListMissing | TargetListMissing | CardMissing

  datatype Result<+T> = Ok(value: T) | NotFound(missing: Missing)

  class Store {
    var boards: seq<Board>
    var lists: seq<ListKanban>
    var cards: seq<Card>

    /** Every record's parent exists. */
    ghost predicate Integrity()
      reads this
    {
      ListsReferenceBoards(boards, lists) && CardsReferenceLists(lists, cards)
    }

    /** Identifiers are pairwise distinct within each collection. */
    ghost predicate UniqueIds()
      reads this
    {
      && DistinctIds(Ids(boards, BoardId))
      && DistinctIds(Ids(lists, ListId))
      && DistinctIds(Ids(cards, CardId))
    }

    /** A store started without a snapshot file. */
    constructor ()
      ensures boards == [] && lists == [] && cards == []
      ensures Integrity() && UniqueIds()
    {
      boards, lists, cards := [], [], [];
    }

    method CreateBoard(name: string) returns (board: Board)
      modifies this
      ensures board == Board(NextId(Ids(old(boards), BoardId)), name)
      ensures boards == old(boards) + [board]
      ensures lists == old(lists) && cards == old(cards)
      ensures old(UniqueIds()) ==> UniqueIds()
      ensures old(Integrity()) ==> Integrity()
    {
      board := Board(NextId(Ids(boards, BoardId)), name);
      assert Ids(boards + [board], BoardId) == Ids(boards, BoardId) + [board.id];
      if UniqueIds() {
        FreshIdKeepsDistinct(Ids(boards, BoardId));
      }
      ghost var wasIntact := Integrity();
      ghost var before := boards;
      boards := boards + [board];
      if wasIntact {
        forall i | 0 <= i < |lists| ensures HasId(boards, BoardId, lists[i].boardId) {
          var k :| 0 <= k < |before| && before[k].id == lists[i].boardId;
          assert boards[k] == before[k];
        }
      }
    }

    method ListBoards() returns (r: seq<Board>)
      ensures r == boards
    {
      r := boards;
    }

    method CreateList(boardId: int, name: string) returns (r: Result<ListKanban>)
      modifies this
      ensures boards == old(boards) && cards == old(cards)
      ensures !HasId(boards, BoardId, boardId) ==>
                r == NotFound(BoardMissing) && lists == old(lists)
      ensures HasId(boards, BoardId, boardId) ==>
                && r == Ok(ListKanban(NextId(Ids(old(lists), ListId)), boardId, name))
                && lists == old(lists) + [r.value]
      ensures old(UniqueIds()) ==> UniqueIds()
      ensures old(Integrity()) ==> Integrity()
    {
      if !HasId(boards, BoardId, boardId) {
        return NotFound(BoardMissing);
      }
      var list := ListKanban(NextId(Ids(lists, ListId)), boardId, name);
      assert Ids(lists + [list], ListId) == Ids(lists, ListId) + [list.id];
      if UniqueIds() {
        FreshIdKeepsDistinct(Ids(lists, ListId));
      }
      ghost var wasIntact := Integrity();
      ghost var before := lists;
      lists := lists + [list];
      r := Ok(list);
      if wasIntact {
        forall i | 0 <= i < |cards| ensures HasId(lists, ListId, cards[i].listId) {
          var k :| 0 <= k < |before| && before[k].id == cards[i].listId;
          assert lists[k] == before[k];
        }
      }
    }

    /** The lists of an existing board, in insertion order. */
    function GetListsByBoard(boardId: int): (r: Result<seq<ListKanban>>)
      reads this
      ensures r.NotFound? <==> !HasId(boards, BoardId, boardId)
      ensures r.NotFound? ==> r.missing == BoardMissing
      ensures r.Ok? ==> Subseq(r.value, lists)
      ensures r.Ok? ==> forall l {:trigger multiset(r.value)[l]} ::
                multiset(r.value)[l] == if l.boardId == boardId then multiset(lists)[l] else 0
    {
      if HasId(boards, BoardId, boardId) then Ok(Filter(lists, OnBoard(boardId)))
      else NotFound(BoardMissing)
    }

    method CreateCard(draft: CardDraft) returns (r: Result<Card>)
      modifies this
      ensures boards == old(boards) && lists == old(lists)
      ensures !HasId(lists, ListId, draft.listId) ==>
                r == NotFound(ListMissing) && cards == old(cards)
      ensures HasId(lists, ListId, draft.listId) ==>
                && r == Ok(Materialize(draft, NextId(Ids(old(cards), CardId))))
                && cards == old(cards) + [r.value]
      ensures r.Ok? && draft.status.None? ==> r.value.status == DefaultStatus
      ensures old(UniqueIds()) ==> UniqueIds()
      ensures old(Integrity()) ==> Integrity()
    {
      if !HasId(lists, ListId, draft.listId) {
        return NotFound(ListMissing);
      }
      var card := Materialize(draft, NextId(Ids(cards, CardId)));
      assert Ids(cards + [card], CardId) == Ids(cards, CardId) + [card.id];
      if UniqueIds() {
        FreshIdKeepsDistinct(Ids(cards, CardId));
      }
      cards := cards + [card];
      r := Ok(card);
    }

    /** The cards matching every filter that is given and non-empty, in
        insertion order. */
    function GetCards(status: Option<string>, assignee: Option<string>): (r: seq<Card>)
      reads this
      ensures Subseq(r, cards)
      ensures forall c {:trigger multiset(r)[c]} ::
                multiset(r)[c] == if Matches(c, status, assignee) then multiset(cards)[c] else 0
    {
      SelectCardsIsConjunction(cards, status, assignee);
      SelectCards(cards, status, assignee)
    }

    /** The first card with the identifier. */
    method GetCard(cardId: int) returns (r: Result<Card>)
      ensures !HasId(cards, CardId, cardId) ==> r == NotFound(CardMissing)
      ensures HasId(cards, CardId, cardId) ==>
                exists i :: 0 <= i < |cards| && r == Ok(cards[i])
      ensures r.Ok? ==> r.value.id == cardId
      ensures r.Ok? ==> r == Ok(cards[FirstCardIndex(cards, cardId).value])
    {
      var i := 0;
      while i < |cards|
        invariant 0 <= i <= |cards|
        invariant forall j :: 0 <= j < i ==> cards[j].id != cardId
      {
        if cards[i].id == cardId {
          return Ok(cards[i]);
        }
        i := i + 1;
      }
      return NotFound(CardMissing);
    }

    /** Replaces the first card with the identifier by the request, whose
        identifier is forced to `cardId`; omitted optional fields take their
        declared defaults. The new list is not checked. */
    method UpdateCard(cardId: int, updated: CardDraft) returns (r: Result<Card>)
      modifies this
      ensures boards == old(boards) && lists == old(lists)
      ensures |cards| == |old(cards)|
      ensures !HasId(old(cards), CardId, cardId) ==>
                r == NotFound(CardMissing) && cards == old(cards)
      ensures HasId(old(cards), CardId, cardId) ==>
                var i := FirstCardIndex(old(cards), cardId).value;
                && r == Ok(Materialize(updated, cardId))
                && cards == old(cards)[i := r.value]
      ensures old(UniqueIds()) ==> UniqueIds()
      ensures old(ListsReferenceBoards(boards, lists)) ==> ListsReferenceBoards(boards, lists)
    {
      var i := 0;
      while i < |cards|
        invariant 0 <= i <= |cards|
        invariant cards == old(cards)
        invariant forall j :: 0 <= j < i ==> cards[j].id != cardId
      {
        if cards[i].id == cardId {
          var card := Materialize(updated, cardId);
          assert Ids(cards[i := card], CardId) == Ids(cards, CardId);
          cards := cards[i := card];
          return Ok(card);
        }
        i := i + 1;
      }
      return NotFound(CardMissing);
    }

    /** Removes every card with the identifier; never fails. */
    method DeleteCard(cardId: int)
      modifies this
      ensures boards == old(boards) && lists == old(lists)
      ensures cards == WithoutCard(old(cards), cardId)
      ensures forall c :: c in cards <==> c in old(cards) && c.id != cardId
      ensures Subseq(cards, old(cards))
      ensures !HasId(old(cards), CardId, cardId) ==> cards == old(cards)
      ensures old(UniqueIds()) ==> UniqueIds()
      ensures old(Integrity()) ==> Integrity()
    {
      ghost var before := cards;
      if !HasId(cards, CardId, cardId) {
        FilterKeepsAll(cards, IdIsNot(cardId));
      }
      cards := WithoutCard(cards, cardId);
      if DistinctIds(Ids(before, CardId)) {
        FilteredIdsDistinct(before, IdIsNot(cardId));
      }
      forall i | 0 <= i < |cards| ensures cards[i] in before {
        assert cards[i] in cards;
      }
    }

    /** Points the first card with the identifier at the target list, once
        that list is known to exist. */
    method MoveCard(cardId: int, targetListId: int) returns (r: Result<Card>)
      modifies this
      ensures boards == old(boards) && lists == old(lists)
      ensures !HasId(lists, ListId, targetListId) ==>
                r == NotFound(TargetListMissing) && cards == old(cards)
      ensures HasId(lists, ListId, targetListId) && !HasId(old(cards), CardId, cardId) ==>
                r == NotFound(CardMissing) && cards == old(cards)
      ensures HasId(lists, ListId, targetListId) && HasId(old(cards), CardId, cardId) ==>
                var i := FirstCardIndex(old(cards), cardId).value;
                && r == Ok(old(cards)[i].(listId := targetListId))
                && cards == old(cards)[i := r.value]
      ensures old(UniqueIds()) ==> UniqueIds()
      ensures old(Integrity()) ==> Integrity()
    {
      if !HasId(lists, ListId, targetListId) {
        return NotFound(TargetListMissing);
      }
      var i := 0;
      while i < |cards|
        invariant 0 <= i <= |cards|
        invariant cards == old(cards)
        invariant forall j :: 0 <= j < i ==> cards[j].id != cardId
      {
        if cards[i].id == cardId {
          var card := cards[i].(listId := targetListId);
          assert Ids(cards[i := card], CardId) == Ids(cards, CardId);
          cards := cards[i := card];
          return Ok(card);
        }
        i := i + 1;
      }
      return NotFound(CardMissing);
    }
  }
}
