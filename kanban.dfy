/** Records of the Kanban entity store and the pure rules both storage
    backends share: identifier assignment, parent-existence tests, card
    lookup, the order-preserving filter behind every listing, the card
    filters of the listing endpoint and the field merge of a card update. */
module Kanban {

  datatype Option<+T> = None | Some(value: T)

  // ---------------------------------------------------------------------------
  // Records (main.py:13-28, app/models.py:4-22, app/schemas.py:4-28)
  // ---------------------------------------------------------------------------

  /** A stored board: the root entity, it has no parent. */
  datatype Board = Board(id: int, name: string)

  /** A stored list (a column of a board). */
  datatype ListKanban = ListKanban(id: int, boardId: int, name: string)

  /** A stored card. `description` and `assignee` may be null. */
  datatype Card = Card(id: int, listId: int, title: string,
                       description: Option<string>, assignee: Option<string>,
                       status: string)

  /** The body of a card request after request parsing, before an id is
      assigned: an omitted `description` or `assignee` is null, an omitted
      `status` is `None` here and takes the declared default. */
  datatype CardDraft = CardDraft(listId: int, title: string,
                                 description: Option<string>, assignee: Option<string>,
                                 status: Option<string>)

  /** The fields a client explicitly supplied in a card update, each `Some`
      exactly when it was supplied. A supplied `description` or `assignee`
      may itself be null, hence the nested option. */
  datatype CardPatch = CardPatch(id: Option<int>, listId: Option<int>, title: Option<string>,
                                 description: Option<Option<string>>,
                                 assignee: Option<Option<string>>,
                                 status: Option<string>)

  /** The declared default of a card's status. */
  const DefaultStatus: string := "todo"

  function StatusOrDefault(s: Option<string>): string {
    if s.Some? then s.value else DefaultStatus
  }

  /** The card a request describes, once it is given identifier `id`: every
      field comes from the request, and the status is the requested one or,
      when none was given, the declared default. */
  function Materialize(d: CardDraft, id: int): (c: Card)
    ensures c.id == id
    ensures c.listId == d.listId && c.title == d.title
    ensures c.description == d.description && c.assignee == d.assignee
    ensures d.status.Some? ==> c.status == d.status.value
    ensures d.status.None? ==> c.status == DefaultStatus
  {
    Card(id, d.listId, d.title, d.description, d.assignee, StatusOrDefault(d.status))
  }

  lemma CardWithoutStatusIsTodo(d: CardDraft, id: int)
    requires d.status.None?
    ensures Materialize(d, id).status == "todo"
    ensures Materialize(d, id).id == id && Materialize(d, id).listId == d.listId
  {
  }

  // ---------------------------------------------------------------------------
  // Identifiers
  // ---------------------------------------------------------------------------

  /** The key of each kind of record. */
  function BoardId(b: Board): int { b.id }
  function ListId(l: ListKanban): int { l.id }
  function CardId(c: Card): int { c.id }

  /** The identifiers of a collection, in order. */
  function Ids<T>(s: seq<T>, key: T -> int): (ids: seq<int>)
    ensures |ids| == |s| && forall i :: 0 <= i < |s| ==> ids[i] == key(s[i])
  {
    seq(|s|, i requires 0 <= i < |s| => key(s[i]))
  }

  ghost predicate DistinctIds(ids: seq<int>) {
    forall i, j :: 0 <= i < j < |ids| ==> ids[i] != ids[j]
  }

  /** The largest identifier of a non-empty collection. */
  function Max(ids: seq<int>): (m: int)
    requires |ids| > 0
    ensures forall i :: 0 <= i < |ids| ==> ids[i] <= m
    ensures exists i :: 0 <= i < |ids| && ids[i] == m
  {
    if |ids| == 1 then ids[0]
    else
      var rest := Max(ids[1..]);
      assert forall i :: 1 <= i < |ids| ==> ids[i] == ids[1..][i - 1];
      if ids[0] >= rest then ids[0] else rest
  }

  /** The identifier the next created record receives: 1 in an empty
      collection, otherwise one more than the largest identifier present. */
  function NextId(ids: seq<int>): (r: int)
    ensures |ids| == 0 ==> r == 1
    ensures forall i :: 0 <= i < |ids| ==> ids[i] < r
    ensures |ids| > 0 ==> exists i :: 0 <= i < |ids| && ids[i] + 1 == r
  {
    if |ids| == 0 then 1 else Max(ids) + 1
  }

  /** Appending the identifier NextId chose keeps identifiers pairwise distinct. */
  lemma FreshIdKeepsDistinct(ids: seq<int>)
    requires DistinctIds(ids)
    ensures DistinctIds(ids + [NextId(ids)])
  {
  }

  /** The identifiers 1, 2, ..., n. */
  function Iota(n: nat): (r: seq<int>)
    ensures |r| == n && forall i :: 0 <= i < n ==> r[i] == i + 1
  {
    seq(n, i => i + 1)
  }

  /** The identifiers present after `n` more creations, each of which
      appends the identifier NextId chooses. */
  function AfterCreations(ids: seq<int>, n: nat): (r: seq<int>)
    ensures |r| == |ids| + n && r[..|ids|] == ids
    decreases n
  {
    if n == 0 then ids else AfterCreations(ids + [NextId(ids)], n - 1)
  }

  lemma NextIdAfterIota(k: nat)
    ensures NextId(Iota(k)) == k + 1
  {
    if k > 0 {
      assert Iota(k)[k - 1] == k;
    }
  }

  lemma {:induction false} CreationsContinueIota(k: nat, n: nat)
    ensures AfterCreations(Iota(k), n) == Iota(k + n)
    decreases n
  {
    if n > 0 {
      NextIdAfterIota(k);
      assert Iota(k) + [NextId(Iota(k))] == Iota(k + 1);
      CreationsContinueIota(k + 1, n - 1);
    }
  }

  /** n creations in an empty collection assign the identifiers 1..n, in order. */
  lemma {:induction false} CreationsFromEmpty(n: nat)
    ensures AfterCreations([], n) == Iota(n)
    ensures DistinctIds(AfterCreations([], n))
  {
    assert Iota(0) == [];
    CreationsContinueIota(0, n);
  }

  /** Deleting the record with the largest identifier hands that identifier
      to the next creation whenever the identifier just below it is present:
      identifiers are computed from what is stored, not from a counter. */
  lemma ReuseAfterDeletingMax(ids: seq<int>, i: nat)
    requires i < |ids| && DistinctIds(ids)
    requires forall k :: 0 <= k < |ids| ==> ids[k] <= ids[i]
    requires exists j :: 0 <= j < |ids| && ids[j] == ids[i] - 1
    ensures NextId(RemoveAt(ids, i)) == ids[i]
  {
    var r := RemoveAt(ids, i);
    var j :| 0 <= j < |ids| && ids[j] == ids[i] - 1;
    var w := if j < i then j else j - 1;
    assert r[w] == ids[i] - 1;
    forall k | 0 <= k < |r| ensures r[k] < ids[i] {
      if k < i {
        assert r[k] == ids[k];
      } else {
        assert r[k] == ids[k + 1];
      }
    }
  }

  /** After n creations from empty, deleting the newest record makes the next
      creation reuse its identifier n. */
  lemma ReuseAfterSequentialCreations(n: nat)
    requires n >= 1
    ensures NextId(RemoveAt(AfterCreations([], n), n - 1)) == n
  {
    CreationsFromEmpty(n);
    assert RemoveAt(Iota(n), n - 1) == Iota(n - 1);
    NextIdAfterIota(n - 1);
  }

  // ---------------------------------------------------------------------------
  // Parent existence and referential integrity
  // ---------------------------------------------------------------------------

  /** Some record of the collection has identifier `id`. */
  predicate HasId<T>(s: seq<T>, key: T -> int, id: int) {
    exists i :: 0 <= i < |s| && key(s[i]) == id
  }

  /** Every list names an existing board. */
  ghost predicate ListsReferenceBoards(bs: seq<Board>, ls: seq<ListKanban>) {
    forall i :: 0 <= i < |ls| ==> HasId(bs, BoardId, ls[i].boardId)
  }

  /** Every card names an existing list. */
  ghost predicate CardsReferenceLists(ls: seq<ListKanban>, cs: seq<Card>) {
    forall i :: 0 <= i < |cs| ==> HasId(ls, ListId, cs[i].listId)
  }

  // ---------------------------------------------------------------------------
  // Card lookup
  // ---------------------------------------------------------------------------

  /** The position of the first card with identifier `id`, if any. */
  function FirstCardIndex(cs: seq<Card>, id: int): (r: Option<nat>)
    ensures r.None? <==> !HasId(cs, CardId, id)
    ensures r.Some? ==> r.value < |cs| && cs[r.value].id == id
    ensures r.Some? ==> forall j :: 0 <= j < r.value ==> cs[j].id != id
  {
    if |cs| == 0 then None
    else if cs[0].id == id then Some(0)
    else
      match FirstCardIndex(cs[1..], id)
      case None =>
        assert forall j :: 1 <= j < |cs| ==> cs[j] == cs[1..][j - 1];
        None
      case Some(k) =>
        assert cs[k + 1] == cs[1..][k];
        assert forall j :: 1 <= j < k + 1 ==> cs[j] == cs[1..][j - 1];
        Some(k + 1)
  }

  /** `cs` without the element at position `i`. */
  function RemoveAt<T>(s: seq<T>, i: nat): (r: seq<T>)
    requires i < |s|
    ensures |r| == |s| - 1
    ensures forall j :: 0 <= j < i ==> r[j] == s[j]
    ensures forall j :: i <= j < |r| ==> r[j] == s[j + 1]
  {
    s[..i] + s[i + 1..]
  }

  // ---------------------------------------------------------------------------
  // Order-preserving filter
  // ---------------------------------------------------------------------------

  /** `a` can be obtained from `b` by dropping elements (order is kept). */
  ghost predicate Subseq<T>(a: seq<T>, b: seq<T>)
    decreases |b|
  {
    |a| == 0 || (|b| > 0 && if a[0] == b[0] then Subseq(a[1..], b[1..]) else Subseq(a, b[1..]))
  }

  /** The elements of `s` satisfying `p`, in their original order. */
  function Filter<T(!new)>(s: seq<T>, p: T -> bool): (r: seq<T>)
    ensures forall x :: x in r <==> x in s && p(x)
    ensures forall x {:trigger multiset(r)[x]} :: multiset(r)[x] == if p(x) then multiset(s)[x] else 0
    ensures Subseq(r, s)
  {
    if |s| == 0 then []
    else
      var rest := Filter(s[1..], p);
      assert s == [s[0]] + s[1..];
      if p(s[0]) then
        assert ([s[0]] + rest)[1..] == rest;
        [s[0]] + rest
      else
        rest
  }

  lemma {:induction false} FilterAppend<T(!new)>(a: seq<T>, b: seq<T>, p: T -> bool)
    ensures Filter(a + b, p) == Filter(a, p) + Filter(b, p)
  {
    if |a| > 0 {
      assert (a + b)[1..] == a[1..] + b;
      FilterAppend(a[1..], b, p);
    } else {
      assert a + b == b;
    }
  }

  /** Filtering by a predicate every element satisfies changes nothing. */
  lemma {:induction false} FilterKeepsAll<T(!new)>(s: seq<T>, p: T -> bool)
    requires forall i :: 0 <= i < |s| ==> p(s[i])
    ensures Filter(s, p) == s
  {
    if |s| > 0 {
      FilterKeepsAll(s[1..], p);
      assert s == [s[0]] + s[1..];
    }
  }

  /** Filters that agree on every element produce the same result. */
  lemma {:induction false} FilterExt<T(!new)>(s: seq<T>, p: T -> bool, q: T -> bool)
    requires forall i :: 0 <= i < |s| ==> p(s[i]) == q(s[i])
    ensures Filter(s, p) == Filter(s, q)
  {
    if |s| > 0 {
      FilterExt(s[1..], p, q);
    }
  }

  function Both<T>(p: T -> bool, q: T -> bool): T -> bool {
    x => p(x) && q(x)
  }

  /** Filtering twice is filtering once by the conjunction. */
  lemma {:induction false} FilterFilter<T(!new)>(s: seq<T>, p: T -> bool, q: T -> bool)
    ensures Filter(Filter(s, p), q) == Filter(s, Both(p, q))
  {
    if |s| > 0 {
      FilterFilter(s[1..], p, q);
    }
  }

  /** A second pass of the same filter changes nothing. */
  lemma {:induction false} FilterIdempotent<T(!new)>(s: seq<T>, p: T -> bool)
    ensures Filter(Filter(s, p), p) == Filter(s, p)
  {
    if |s| > 0 {
      FilterIdempotent(s[1..], p);
    }
  }

  lemma DistinctIdsTail(cs: seq<Card>)
    requires |cs| > 0 && DistinctIds(Ids(cs, CardId))
    ensures DistinctIds(Ids(cs[1..], CardId))
  {
    var ids, tail := Ids(cs, CardId), Ids(cs[1..], CardId);
    forall i, j | 0 <= i < j < |tail| ensures tail[i] != tail[j] {
      assert tail[i] == ids[i + 1] && tail[j] == ids[j + 1];
    }
  }

  lemma DistinctIdsCons(c: Card, rest: seq<Card>)
    requires DistinctIds(Ids(rest, CardId))
    requires forall k :: 0 <= k < |rest| ==> rest[k].id != c.id
    ensures DistinctIds(Ids([c] + rest, CardId))
  {
    var ids, tail := Ids([c] + rest, CardId), Ids(rest, CardId);
    forall i, j | 0 <= i < j < |ids| ensures ids[i] != ids[j] {
      assert ids[j] == tail[j - 1];
      if i > 0 {
        assert ids[i] == tail[i - 1];
      }
    }
  }

  /** Dropping elements keeps the remaining identifiers distinct. */
  lemma {:induction false} FilteredIdsDistinct(cs: seq<Card>, p: Card -> bool)
    requires DistinctIds(Ids(cs, CardId))
    ensures DistinctIds(Ids(Filter(cs, p), CardId))
  {
    if |cs| > 0 {
      DistinctIdsTail(cs);
      FilteredIdsDistinct(cs[1..], p);
      var rest := Filter(cs[1..], p);
      if p(cs[0]) {
        forall k | 0 <= k < |rest| ensures rest[k].id != cs[0].id {
          assert rest[k] in cs[1..];
          var m :| 0 <= m < |cs[1..]| && cs[1..][m] == rest[k];
          assert Ids(cs, CardId)[m + 1] == rest[k].id;
        }
        DistinctIdsCons(cs[0], rest);
      }
    }
  }

  /** When exactly the element at position `i` fails the test, filtering
      removes that element and nothing else. */
  lemma {:induction false} FilterDropsOnlyAt<T(!new)>(s: seq<T>, i: nat, p: T -> bool)
    requires i < |s| && !p(s[i])
    requires forall j :: 0 <= j < |s| && j != i ==> p(s[j])
    ensures Filter(s, p) == RemoveAt(s, i)
  {
    forall j | 0 <= j < |s| - 1 && j != i - 1 ensures p(s[1..][j]) {
      assert s[1..][j] == s[j + 1];
    }
    if i == 0 {
      FilterKeepsAll(s[1..], p);
      assert Filter(s, p) == Filter(s[1..], p);
      assert RemoveAt(s, 0) == s[1..];
    } else {
      FilterDropsOnlyAt(s[1..], i - 1, p);
      assert Filter(s, p) == [s[0]] + Filter(s[1..], p);
      assert RemoveAt(s, i) == [s[0]] + RemoveAt(s[1..], i - 1);
    }
  }

  /** With distinct identifiers, removing the card at one position is
      removing every card with that card's identifier. */
  lemma RemoveAtIsWithoutCard(cs: seq<Card>, i: nat)
    requires i < |cs| && DistinctIds(Ids(cs, CardId))
    ensures RemoveAt(cs, i) == WithoutCard(cs, cs[i].id)
  {
    var ids := Ids(cs, CardId);
    forall j | 0 <= j < |cs| && j != i ensures IdIsNot(cs[i].id)(cs[j]) {
      assert ids[j] == cs[j].id && ids[i] == cs[i].id;
      if j < i { assert ids[j] != ids[i]; } else { assert ids[i] != ids[j]; }
    }
    FilterDropsOnlyAt(cs, i, IdIsNot(cs[i].id));
  }

  // ---------------------------------------------------------------------------
  // Filters used by the listing endpoints and by card deletion
  // ---------------------------------------------------------------------------

  function OnBoard(boardId: int): ListKanban -> bool {
    (l: ListKanban) => l.boardId == boardId
  }

  function IdIsNot(id: int): Card -> bool {
    (c: Card) => c.id != id
  }

  function StatusIs(s: string): Card -> bool {
    (c: Card) => c.status == s
  }

  function AssigneeIs(a: string): Card -> bool {
    (c: Card) => c.assignee == Some(a)
  }

  /** A query filter takes part only when it is given and non-empty. */
  predicate Active(f: Option<string>) {
    f.Some? && f.value != ""
  }

  /** A card satisfies every filter that takes part, and no other is applied. */
  predicate Matches(c: Card, status: Option<string>, assignee: Option<string>) {
    && (Active(status) ==> c.status == status.value)
    && (Active(assignee) ==> c.assignee == Some(assignee.value))
  }

  function MatchesFilters(status: Option<string>, assignee: Option<string>): Card -> bool {
    (c: Card) => Matches(c, status, assignee)
  }

  /** The card listing as both backends compute it: narrow by status when
      that filter takes part, then by assignee when that one does. */
  function SelectCards(cs: seq<Card>, status: Option<string>, assignee: Option<string>): (r: seq<Card>)
    ensures forall c :: c in r <==> c in cs && Matches(c, status, assignee)
    ensures forall c {:trigger multiset(r)[c]} ::
              multiset(r)[c] == if Matches(c, status, assignee) then multiset(cs)[c] else 0
  {
    var byStatus := if Active(status) then Filter(cs, StatusIs(status.value)) else cs;
    if Active(assignee) then Filter(byStatus, AssigneeIs(assignee.value)) else byStatus
  }

  /** The two successive filters select exactly the cards matching the
      AND of the filters that take part; an omitted filter drops only its
      own predicate. */
  lemma SelectCardsIsConjunction(cs: seq<Card>, status: Option<string>, assignee: Option<string>)
    ensures SelectCards(cs, status, assignee) == Filter(cs, MatchesFilters(status, assignee))
  {
    var m := MatchesFilters(status, assignee);
    if Active(status) && Active(assignee) {
      var ps, pa := StatusIs(status.value), AssigneeIs(assignee.value);
      FilterFilter(cs, ps, pa);
      FilterExt(cs, Both(ps, pa), m);
    } else if Active(status) {
      FilterExt(cs, StatusIs(status.value), m);
    } else if Active(assignee) {
      FilterExt(cs, AssigneeIs(assignee.value), m);
    } else {
      FilterKeepsAll(cs, m);
    }
  }

  /** A card appended to the collection appears at the end of the listing
      when it matches the filters, and the earlier part is unchanged. */
  lemma ListingAfterAppend(cs: seq<Card>, c: Card, status: Option<string>, assignee: Option<string>)
    ensures SelectCards(cs + [c], status, assignee)
            == SelectCards(cs, status, assignee) + (if Matches(c, status, assignee) then [c] else [])
  {
    var m := MatchesFilters(status, assignee);
    SelectCardsIsConjunction(cs + [c], status, assignee);
    SelectCardsIsConjunction(cs, status, assignee);
    FilterAppend(cs, [c], m);
    assert [c][1..] == [];
  }

  /** The cards left after removing every card with identifier `id`. */
  function WithoutCard(cs: seq<Card>, id: int): (r: seq<Card>)
    ensures forall c :: c in r <==> c in cs && c.id != id
  {
    Filter(cs, IdIsNot(id))
  }

  lemma WithoutCardIdempotent(cs: seq<Card>, id: int)
    ensures WithoutCard(WithoutCard(cs, id), id) == WithoutCard(cs, id)
  {
    FilterIdempotent(cs, IdIsNot(id));
  }

  // ---------------------------------------------------------------------------
  // Field merge of a card update
  // ---------------------------------------------------------------------------

  function Pick<T>(supplied: Option<T>, prior: T): T {
    if supplied.Some? then supplied.value else prior
  }

  /** `after` is `before` with every supplied field other than the
      identifier overwritten: a supplied field takes the new value, an
      omitted one keeps its prior value, and the identifier never changes. */
  ghost predicate PatchApplied(before: Card, p: CardPatch, after: Card) {
    && after.id == before.id
    && after.listId == (if p.listId.Some? then p.listId.value else before.listId)
    && after.title == (if p.title.Some? then p.title.value else before.title)
    && after.description == (if p.description.Some? then p.description.value else before.description)
    && after.assignee == (if p.assignee.Some? then p.assignee.value else before.assignee)
    && after.status == (if p.status.Some? then p.status.value else before.status)
  }

  /** The card after an update that overwrites only the supplied fields
      and never the identifier. */
  function Merge(c: Card, p: CardPatch): (r: Card)
    ensures PatchApplied(c, p, r)
  {
    Card(c.id, Pick(p.listId, c.listId), Pick(p.title, c.title),
         Pick(p.description, c.description), Pick(p.assignee, c.assignee),
         Pick(p.status, c.status))
  }

  const NothingSupplied: CardPatch := CardPatch(None, None, None, None, None, None)

  /** The identifier survives every update, even one that supplies an `id`. */
  lemma MergeKeepsId(c: Card, p: CardPatch)
    ensures Merge(c, p).id == c.id
  {
  }

  /** An update that supplies nothing leaves the card as it was. */
  lemma MergeNothingIsIdentity(c: Card)
    ensures Merge(c, NothingSupplied) == c
  {
  }

  /** Applying the same update twice is applying it once. */
  lemma MergeIdempotent(c: Card, p: CardPatch)
    ensures Merge(Merge(c, p), p) == Merge(c, p)
  {
  }
}
