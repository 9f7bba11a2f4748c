/**
 * The set mutations (src/graphql/mutations/set.rs). A set is created for the
 * caller, whatever deck and cards it names: no ownership check is made on
 * either. Its cards are linked through one `set_cards` row per card id.
 *
 * Update authorizes by comparing the caller with the set's own id, not with
 * its owner (set.rs selects `sets::id` for the check); `HandleUpdate` models
 * that as written and `HandleUpdateIntended` the owner check evidently meant.
 * Delete checks the owner and removes the set row alone.
 */
module SetMutations {
  import opened Wrappers
  import opened Errors
  import opened Schema
  import opened Query
  import opened Database

  datatype NewSet = NewSet(name: string, deck: int, cards: seq<int>)

  datatype SetChangeset = SetChangeset(id: int, name: string)

  const LoginToCreateSet: string := "You must be logged in to create a set."
  const LoginToCreateSets: string := "You must be logged in to create sets."
  const ForeignSetUpdate: string := "Updating other users' sets is forbidden."
  const LoginToUpdateSet: string := "You must be logged in to update a set."
  const ForeignSetDeletion: string := "Deleting other users' sets is forbidden."
  const LoginToDeleteSet: string := "You must be logged in to delete a set."

  /** The `sets` row of an input: the owner is always the caller. */
  function NewSetRow(input: NewSet, owner: int, time: int): SetRow {
    SetRow(time, input.name, input.deck, owner)
  }

  function NewSetRows(items: seq<NewSet>, owner: int, time: int): (rows: seq<SetRow>)
    ensures |rows| == |items| && forall i :: 0 <= i < |items| ==> rows[i] == NewSetRow(items[i], owner, time)
  {
    seq(|items|, i requires 0 <= i < |items| => NewSetRow(items[i], owner, time))
  }

  /** The join rows linking set `setId` to each of `cards`, in input order. */
  function SetCardRows(cards: seq<int>, setId: int): (rows: seq<SetCardRow>)
    ensures |rows| == |cards| && forall k :: 0 <= k < |cards| ==> rows[k] == SetCardRow(cards[k], setId)
  {
    seq(|cards|, k requires 0 <= k < |cards| => SetCardRow(cards[k], setId))
  }

  /** The join rows of the first `n` items of a batch whose sets received the ids from `first`:
      item i's cards are linked to set `first + i`, item after item. */
  function BatchSetCardRows(items: seq<NewSet>, first: int, n: nat): seq<SetCardRow>
    requires n <= |items|
  {
    if n == 0 then []
    else BatchSetCardRows(items, first, n - 1) + SetCardRows(items[n - 1].cards, first + n - 1)
  }

  /** Every card of every item is linked to that item's set. */
  lemma {:induction false} BatchLinksEveryCard(items: seq<NewSet>, first: int, n: nat, i: nat, k: nat)
    requires n <= |items| && i < n && k < |items[i].cards|
    ensures SetCardRow(items[i].cards[k], first + i) in BatchSetCardRows(items, first, n)
  {
    var last := SetCardRows(items[n - 1].cards, first + n - 1);
    if i < n - 1 {
      BatchLinksEveryCard(items, first, n - 1, i, k);
    } else {
      assert last[k] == SetCardRow(items[i].cards[k], first + i);
    }
  }

  /** Every join row of a batch links a card an item listed to that item's set. */
  lemma {:induction false} BatchLinksOnlyListed(items: seq<NewSet>, first: int, n: nat, row: SetCardRow)
    requires n <= |items| && row in BatchSetCardRows(items, first, n)
    ensures first <= row.setId < first + n && row.cardId in items[row.setId - first].cards
  {
    var last := SetCardRows(items[n - 1].cards, first + n - 1);
    if row in BatchSetCardRows(items, first, n - 1) {
      BatchLinksOnlyListed(items, first, n - 1, row);
    } else {
      assert row in last;
      var k :| 0 <= k < |last| && last[k] == row;
    }
  }

  function LoadSets(t: Tables, ids: seq<int>): seq<Set>
    requires forall i :: 0 <= i < |ids| ==> ids[i] in t.sets
  {
    seq(|ids|, i requires 0 <= i < |ids| => LoadSet(t, ids[i]))
  }

  /** The sets a batch returns: the items in input order, numbered from the first new id, all
      owned by the caller and stamped with the one request time. */
  function BatchSets(items: seq<NewSet>, owner: int, time: int, first: int): (sets: seq<Set>)
    ensures |sets| == |items|
    ensures forall i :: 0 <= i < |items| ==> sets[i] == Set(first + i, time, items[i].name, items[i].deck, owner)
  {
    seq(|items|, i requires 0 <= i < |items| => Set(first + i, time, items[i].name, items[i].deck, owner))
  }

  /** Re-reading the sets of a multi-row insert returns them as written, in input order. */
  lemma LoadBatchSets(t: Tables, before: map<int, SetRow>, first: int, items: seq<NewSet>, owner: int, time: int)
    requires t.sets == Inserted(before, first, NewSetRows(items, owner, time))
    ensures var ids := Consecutive(first, |items|); forall i :: 0 <= i < |ids| ==> ids[i] in t.sets
    ensures LoadSets(t, Consecutive(first, |items|)) == BatchSets(items, owner, time, first)
  {
    InsertedContents(before, first, NewSetRows(items, owner, time));
  }

  /** `HandleInsert for sets::table`: the set row (owned by the caller), then one join row per
      listed card. `time` is the request's clock reading. */
  method HandleInsert(store: Store, caller: Option<int>, input: NewSet, time: int) returns (r: Result<Set, FieldError>)
    requires store.Valid()
    modifies store
    ensures store.Valid()
    ensures caller.None? ==> r == Err(UnauthorizedError(LoginToCreateSet))
    ensures r.Ok? <==> caller.Some?
    ensures r.Ok? ==>
      r.value == Set(old(store.nextSet), time, input.name, input.deck, caller.value)
      && store.Snapshot() == old(store.Snapshot()).(
           sets := old(store.sets)[old(store.nextSet) := NewSetRow(input, caller.value, time)],
           setCards := Inserted(old(store.setCards), old(store.nextSetCard), SetCardRows(input.cards, old(store.nextSet))))
      && store.Sequences() == old(store.Sequences()).(
           sets := old(store.nextSet) + 1, setCards := old(store.nextSetCard) + |input.cards|)
    ensures r.Err? ==> store.Snapshot() == old(store.Snapshot()) && store.Sequences() == old(store.Sequences())
  {
    if caller.None? {
      return Err(UnauthorizedError(LoginToCreateSet));
    }
    var id := store.InsertSet(NewSetRow(input, caller.value, time));
    var links := store.InsertSetCards(SetCardRows(input.cards, id));
    r := Ok(LoadSet(store.Snapshot(), id));
  }

  /** The loop over `card_ids` in the batch handler: the card list of item i, as collected while
      the set rows were built, is linked to the i-th returned set id, one multi-row insert per item. */
  method LinkCards(store: Store, ghost items: seq<NewSet>, cardIds: seq<seq<int>>, inserted: seq<int>, first: int)
    requires store.Valid()
    requires |cardIds| == |items| && forall j :: 0 <= j < |items| ==> cardIds[j] == items[j].cards
    requires inserted == Consecutive(first, |items|)
    modifies store
    ensures store.Valid()
    ensures store.Snapshot() == old(store.Snapshot()).(
      setCards := Inserted(old(store.setCards), old(store.nextSetCard), BatchSetCardRows(items, first, |items|)))
    ensures store.Sequences() == old(store.Sequences()).(
      setCards := old(store.nextSetCard) + |BatchSetCardRows(items, first, |items|)|)
  {
    var i := 0;
    while i < |cardIds|
      invariant 0 <= i <= |items|
      invariant store.Sequences() == old(store.Sequences()).(
        setCards := old(store.nextSetCard) + |BatchSetCardRows(items, first, i)|)
      invariant store.Snapshot() == old(store.Snapshot()).(setCards := store.setCards)
      invariant store.setCards == Inserted(old(store.setCards), old(store.nextSetCard), BatchSetCardRows(items, first, i))
      invariant store.Valid()
    {
      ghost var before := store.setCards;
      var ids := store.InsertSetCards(SetCardRows(cardIds[i], inserted[i]));
      LinkStep(old(store.setCards), old(store.nextSetCard), items, inserted, first, i, before, store.setCards);
      i := i + 1;
    }
  }

  /** One turn of the `card_ids` loop: linking item i's cards to `inserted[i]` extends the join
      rows of the first i items to those of the first i + 1. */
  lemma LinkStep(table: map<int, SetCardRow>, start: int, items: seq<NewSet>, inserted: seq<int>, first: int, i: nat,
                 before: map<int, SetCardRow>, after: map<int, SetCardRow>)
    requires i < |items| && inserted == Consecutive(first, |items|)
    requires before == Inserted(table, start, BatchSetCardRows(items, first, i))
    requires after == Inserted(before, start + |BatchSetCardRows(items, first, i)|, SetCardRows(items[i].cards, inserted[i]))
    ensures after == Inserted(table, start, BatchSetCardRows(items, first, i + 1))
    ensures |BatchSetCardRows(items, first, i + 1)| == |BatchSetCardRows(items, first, i)| + |items[i].cards|
  {
    var linked, rows := BatchSetCardRows(items, first, i), SetCardRows(items[i].cards, inserted[i]);
    assert BatchSetCardRows(items, first, i + 1) == linked + rows;
    InsertedAppend(table, start, linked, rows);
    assert after == Inserted(table, start, linked + rows);
  }

  /** `HandleBatchInsert for sets::table`: every set is owned by the caller and stamped with the
      one request time; then the join rows of each item point at that item's new set. */
  method HandleBatchInsert(store: Store, caller: Option<int>, items: seq<NewSet>, time: int)
    returns (r: Result<seq<Set>, FieldError>)
    requires store.Valid()
    modifies store
    ensures store.Valid()
    ensures caller.None? ==> r == Err(UnauthorizedError(LoginToCreateSets))
    ensures r.Ok? <==> caller.Some?
    ensures r.Ok? ==>
      r.value == BatchSets(items, caller.value, time, old(store.nextSet))
      && store.Snapshot() == old(store.Snapshot()).(
           sets := Inserted(old(store.sets), old(store.nextSet), NewSetRows(items, caller.value, time)),
           setCards := Inserted(old(store.setCards), old(store.nextSetCard), BatchSetCardRows(items, old(store.nextSet), |items|)))
      && store.Sequences() == old(store.Sequences()).(
           sets := old(store.nextSet) + |items|,
           setCards := old(store.nextSetCard) + |BatchSetCardRows(items, old(store.nextSet), |items|)|)
    ensures r.Err? ==> store.Snapshot() == old(store.Snapshot()) && store.Sequences() == old(store.Sequences())
  {
    if caller.None? {
      return Err(UnauthorizedError(LoginToCreateSets));
    }
    // The `map` closure builds the rows and, as a side effect, the list of card lists.
    var rows: seq<SetRow> := [];
    var cardIds: seq<seq<int>> := [];
    var i := 0;
    while i < |items|
      invariant 0 <= i <= |items|
      invariant rows == NewSetRows(items[..i], caller.value, time)
      invariant |cardIds| == i && forall j :: 0 <= j < i ==> cardIds[j] == items[j].cards
    {
      rows := rows + [NewSetRow(items[i], caller.value, time)];
      cardIds := cardIds + [items[i].cards];
      i := i + 1;
    }
    assert items[..|items|] == items;
    ghost var before := store.sets;
    var firstSet := store.nextSet;
    var inserted := store.InsertSets(rows);
    LoadBatchSets(store.Snapshot(), before, firstSet, items, caller.value, time);
    LinkCards(store, items, cardIds, inserted, firstSet);
    r := Ok(LoadSets(store.Snapshot(), inserted));
  }

  /** The lookup of set.rs:167-170, which selects the set's id where its owner was meant. */
  function SetIdLookup(t: Tables, id: int): (found: Option<int>)
    ensures found.Some? <==> id in t.sets
    ensures found.Some? ==> found.value == id
  {
    if id in t.sets then Some(id) else None
  }

  /** `HandleUpdate for sets::table` as written: the caller passes the check exactly when the
      set exists and its id equals the caller's id, whoever owns it. Only the name changes. */
  method HandleUpdate(store: Store, caller: Option<int>, update: SetChangeset) returns (r: Result<Set, FieldError>)
    requires store.Valid()
    modifies store
    ensures store.Valid()
    ensures store.Sequences() == old(store.Sequences())
    ensures caller.None? ==> r == Err(UnauthorizedError(LoginToUpdateSet))
    ensures caller.Some? && update.id !in old(store.sets) ==> r == Err(RecordNotFound)
    ensures caller.Some? && update.id in old(store.sets) && update.id != caller.value ==>
              r == Err(UnauthorizedError(ForeignSetUpdate))
    ensures r.Ok? <==> caller == Some(update.id) && update.id in old(store.sets)
    ensures r.Ok? ==>
      var current := old(store.sets)[update.id];
      r.value == Set(update.id, current.createdAt, update.name, current.deck, current.owner)
      && store.Snapshot() == old(store.Snapshot()).(sets := old(store.sets)[update.id := current.(name := update.name)])
    ensures r.Err? ==> store.Snapshot() == old(store.Snapshot())
  {
    if caller.None? {
      return Err(UnauthorizedError(LoginToUpdateSet));
    }
    var ownerId := SetIdLookup(store.Snapshot(), update.id);
    if ownerId.None? {
      return Err(RecordNotFound);
    }
    if caller.value != ownerId.value {
      return Err(UnauthorizedError(ForeignSetUpdate));
    }
    var current := store.sets[update.id];
    store.ReplaceSet(update.id, current.(name := update.name));
    r := Ok(LoadSet(store.Snapshot(), update.id));
  }

  /** The update the handler evidently means: the caller must own the set. */
  method HandleUpdateIntended(store: Store, caller: Option<int>, update: SetChangeset) returns (r: Result<Set, FieldError>)
    requires store.Valid()
    modifies store
    ensures store.Valid()
    ensures store.Sequences() == old(store.Sequences())
    ensures caller.None? ==> r == Err(UnauthorizedError(LoginToUpdateSet))
    ensures caller.Some? && SetOwner(old(store.Snapshot()), update.id).None? ==> r == Err(RecordNotFound)
    ensures caller.Some? && SetOwner(old(store.Snapshot()), update.id).Some?
            && SetOwner(old(store.Snapshot()), update.id).value != caller.value ==>
              r == Err(UnauthorizedError(ForeignSetUpdate))
    ensures r.Ok? <==> caller.Some? && SetOwner(old(store.Snapshot()), update.id) == caller
    ensures r.Ok? ==>
      var current := old(store.sets)[update.id];
      r.value == Set(update.id, current.createdAt, update.name, current.deck, current.owner)
      && store.Snapshot() == old(store.Snapshot()).(sets := old(store.sets)[update.id := current.(name := update.name)])
    ensures r.Err? ==> store.Snapshot() == old(store.Snapshot())
  {
    if caller.None? {
      return Err(UnauthorizedError(LoginToUpdateSet));
    }
    var owner := SetOwner(store.Snapshot(), update.id);
    if owner.None? {
      return Err(RecordNotFound);
    }
    if caller.value != owner.value {
      return Err(UnauthorizedError(ForeignSetUpdate));
    }
    var current := store.sets[update.id];
    store.ReplaceSet(update.id, current.(name := update.name));
    r := Ok(LoadSet(store.Snapshot(), update.id));
  }

  /** `HandleDelete for sets::table`: the owner must be the caller; the set row is removed and
      its `set_cards` rows are left in place. */
  method HandleDelete(store: Store, caller: Option<int>, id: int) returns (r: Result<int, FieldError>)
    requires store.Valid()
    modifies store
    ensures store.Valid()
    ensures store.Sequences() == old(store.Sequences())
    ensures caller.None? ==> r == Err(UnauthorizedError(LoginToDeleteSet))
    ensures caller.Some? && SetOwner(old(store.Snapshot()), id).None? ==> r == Err(RecordNotFound)
    ensures caller.Some? && SetOwner(old(store.Snapshot()), id).Some?
            && SetOwner(old(store.Snapshot()), id).value != caller.value ==>
              r == Err(UnauthorizedError(ForeignSetDeletion))
    ensures r.Ok? <==> caller.Some? && SetOwner(old(store.Snapshot()), id) == caller
    ensures r.Ok? ==>
      r.value == 1 && store.Snapshot() == old(store.Snapshot()).(sets := old(store.sets) - {id})
    ensures r.Err? ==> store.Snapshot() == old(store.Snapshot())
  {
    if caller.None? {
      return Err(UnauthorizedError(LoginToDeleteSet));
    }
    var owner := SetOwner(store.Snapshot(), id);
    if owner.None? {
      return Err(RecordNotFound);
    }
    if caller.value != owner.value {
      return Err(UnauthorizedError(ForeignSetDeletion));
    }
    var count := store.DeleteSet(id);
    r := Ok(count);
  }
}
