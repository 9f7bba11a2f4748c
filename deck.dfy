/**
 * The deck mutations (src/graphql/mutations/deck.rs). A deck names its owner
 * explicitly; the handlers refuse an owner other than the caller instead of
 * filling it in. Update and delete look the owner up first, so an id that
 * names no deck fails with `NotFound`.
 *
 * Every refusal is a hand-built error tagged UNAUTHORIZED, and each happens
 * before any write, so a refused request changes no table and no sequence.
 */
module DeckMutations {
  import opened Wrappers
  import opened Errors
  import opened Schema
  import opened Query
  import opened Database

  datatype NewDeck = NewDeck(name: string, owner: int, language: int)

  datatype DeckChangeset = DeckChangeset(id: int, name: string)

  const ForeignDeckCreation: string := "Creating decks for other users is forbidden."
  const LoginToCreateDeck: string := "You must be logged in to create a deck."
  const LoginToCreateDecks: string := "You must be logged in to create decks."
  const ForeignDeckUpdate: string := "Updating other users' decks is forbidden."
  const LoginToUpdateDeck: string := "You must be logged in to update a deck."
  const ForeignDeckDeletion: string := "Deleting other users' decks is forbidden."
  const LoginToDeleteDeck: string := "You must be logged in to delete a deck."

  function NewDeckRow(input: NewDeck): DeckRow {
    DeckRow(input.name, input.owner, input.language)
  }

  /** The rows of a multi-row insert, one per item, in input order. */
  function NewDeckRows(items: seq<NewDeck>): (rows: seq<DeckRow>)
    ensures |rows| == |items| && forall i :: 0 <= i < |items| ==> rows[i] == NewDeckRow(items[i])
  {
    seq(|items|, i requires 0 <= i < |items| => NewDeckRow(items[i]))
  }

  /** Every item of a batch names the caller as its owner. */
  predicate AllOwnedBy(items: seq<NewDeck>, caller: int) {
    forall i :: 0 <= i < |items| ==> items[i].owner == caller
  }

  function LoadDecks(t: Tables, ids: seq<int>): seq<Deck>
    requires forall i :: 0 <= i < |ids| ==> ids[i] in t.decks
  {
    seq(|ids|, i requires 0 <= i < |ids| => LoadDeck(t, ids[i]))
  }

  /** The decks a batch returns: the items in input order, numbered from the first new id. */
  function BatchDecks(items: seq<NewDeck>, first: int): (decks: seq<Deck>)
    ensures |decks| == |items|
    ensures forall i :: 0 <= i < |items| ==>
      decks[i] == Deck(first + i, items[i].name, items[i].owner, items[i].language)
  {
    seq(|items|, i requires 0 <= i < |items| => Deck(first + i, items[i].name, items[i].owner, items[i].language))
  }

  /** Re-reading the decks of a multi-row insert returns the items as written, in input order. */
  lemma LoadBatchDecks(t: Tables, before: map<int, DeckRow>, first: int, items: seq<NewDeck>)
    requires t.decks == Inserted(before, first, NewDeckRows(items))
    ensures var ids := Consecutive(first, |items|); forall i :: 0 <= i < |ids| ==> ids[i] in t.decks
    ensures LoadDecks(t, Consecutive(first, |items|)) == BatchDecks(items, first)
  {
    InsertedContents(before, first, NewDeckRows(items));
  }

  /** `HandleInsert for decks::table`: the deck is stored exactly as given, and only when the
      given owner is the caller. */
  method HandleInsert(store: Store, caller: Option<int>, input: NewDeck) returns (r: Result<Deck, FieldError>)
    requires store.Valid()
    modifies store
    ensures store.Valid()
    ensures caller.None? ==> r == Err(UnauthorizedError(LoginToCreateDeck))
    ensures caller.Some? && caller.value != input.owner ==> r == Err(UnauthorizedError(ForeignDeckCreation))
    ensures r.Ok? <==> caller == Some(input.owner)
    ensures r.Ok? ==>
      r.value == Deck(old(store.nextDeck), input.name, input.owner, input.language)
      && store.Snapshot() == old(store.Snapshot()).(decks := old(store.decks)[old(store.nextDeck) := NewDeckRow(input)])
      && store.Sequences() == old(store.Sequences()).(decks := old(store.nextDeck) + 1)
    ensures r.Err? ==> store.Snapshot() == old(store.Snapshot()) && store.Sequences() == old(store.Sequences())
  {
    if caller.None? {
      return Err(UnauthorizedError(LoginToCreateDeck));
    }
    if caller.value != input.owner {
      return Err(UnauthorizedError(ForeignDeckCreation));
    }
    var id := store.InsertDeck(NewDeckRow(input));
    r := Ok(LoadDeck(store.Snapshot(), id));
  }

  /** `HandleBatchInsert for decks::table`: one item owned by someone else refuses the whole
      batch before anything is written; otherwise one multi-row insert. */
  method HandleBatchInsert(store: Store, caller: Option<int>, items: seq<NewDeck>) returns (r: Result<seq<Deck>, FieldError>)
    requires store.Valid()
    modifies store
    ensures store.Valid()
    ensures caller.None? ==> r == Err(UnauthorizedError(LoginToCreateDecks))
    ensures caller.Some? && !AllOwnedBy(items, caller.value) ==> r == Err(UnauthorizedError(ForeignDeckCreation))
    ensures r.Ok? <==> caller.Some? && AllOwnedBy(items, caller.value)
    ensures r.Ok? ==>
      r.value == BatchDecks(items, old(store.nextDeck))
      && store.Snapshot() == old(store.Snapshot()).(decks := Inserted(old(store.decks), old(store.nextDeck), NewDeckRows(items)))
      && store.Sequences() == old(store.Sequences()).(decks := old(store.nextDeck) + |items|)
    ensures r.Err? ==> store.Snapshot() == old(store.Snapshot()) && store.Sequences() == old(store.Sequences())
  {
    if caller.None? {
      return Err(UnauthorizedError(LoginToCreateDecks));
    }
    var i := 0;
    while i < |items|
      invariant 0 <= i <= |items|
      invariant forall j :: 0 <= j < i ==> items[j].owner == caller.value
    {
      if items[i].owner != caller.value {
        return Err(UnauthorizedError(ForeignDeckCreation));
      }
      i := i + 1;
    }
    ghost var before := store.decks;
    var ids := store.InsertDecks(NewDeckRows(items));
    LoadBatchDecks(store.Snapshot(), before, old(store.nextDeck), items);
    r := Ok(LoadDecks(store.Snapshot(), ids));
  }

  /** `HandleUpdate for decks::table`: only the name changes. */
  method HandleUpdate(store: Store, caller: Option<int>, update: DeckChangeset) returns (r: Result<Deck, FieldError>)
    requires store.Valid()
    modifies store
    ensures store.Valid()
    ensures store.Sequences() == old(store.Sequences())
    ensures caller.None? ==> r == Err(UnauthorizedError(LoginToUpdateDeck))
    ensures caller.Some? && DeckOwner(old(store.Snapshot()), update.id).None? ==> r == Err(RecordNotFound)
    ensures caller.Some? && DeckOwner(old(store.Snapshot()), update.id).Some?
            && DeckOwner(old(store.Snapshot()), update.id).value != caller.value ==>
              r == Err(UnauthorizedError(ForeignDeckUpdate))
    ensures r.Ok? <==> caller.Some? && DeckOwner(old(store.Snapshot()), update.id) == caller
    ensures r.Ok? ==>
      var current := old(store.decks)[update.id];
      r.value == Deck(update.id, update.name, current.owner, current.language)
      && store.Snapshot() == old(store.Snapshot()).(decks := old(store.decks)[update.id := current.(name := update.name)])
    ensures r.Err? ==> store.Snapshot() == old(store.Snapshot())
  {
    if caller.None? {
      return Err(UnauthorizedError(LoginToUpdateDeck));
    }
    var owner := DeckOwner(store.Snapshot(), update.id);
    if owner.None? {
      return Err(RecordNotFound);
    }
    if caller.value != owner.value {
      return Err(UnauthorizedError(ForeignDeckUpdate));
    }
    var current := store.decks[update.id];
    store.ReplaceDeck(update.id, current.(name := update.name));
    r := Ok(LoadDeck(store.Snapshot(), update.id));
  }

  /** `HandleDelete for decks::table` as written: the owner check reads `decks`, but the delete
      statement runs on `users` with the deck's id. The deck stays; the user whose id happens to
      equal the deck id is removed, and the count reports whether there was one. */
  method HandleDelete(store: Store, caller: Option<int>, id: int) returns (r: Result<int, FieldError>)
    requires store.Valid()
    modifies store
    ensures store.Valid()
    ensures store.Sequences() == old(store.Sequences())
    ensures caller.None? ==> r == Err(UnauthorizedError(LoginToDeleteDeck))
    ensures caller.Some? && DeckOwner(old(store.Snapshot()), id).None? ==> r == Err(RecordNotFound)
    ensures caller.Some? && DeckOwner(old(store.Snapshot()), id).Some?
            && DeckOwner(old(store.Snapshot()), id).value != caller.value ==>
              r == Err(UnauthorizedError(ForeignDeckDeletion))
    ensures r.Ok? <==> caller.Some? && DeckOwner(old(store.Snapshot()), id) == caller
    ensures r.Ok? ==>
      r.value == (if id in old(store.users) then 1 else 0)
      && store.Snapshot() == old(store.Snapshot()).(users := old(store.users) - {id})
      && id in store.decks
    ensures r.Err? ==> store.Snapshot() == old(store.Snapshot())
  {
    if caller.None? {
      return Err(UnauthorizedError(LoginToDeleteDeck));
    }
    var owner := DeckOwner(store.Snapshot(), id);
    if owner.None? {
      return Err(RecordNotFound);
    }
    if caller.value != owner.value {
      return Err(UnauthorizedError(ForeignDeckDeletion));
    }
    var count := store.DeleteUser(id);
    r := Ok(count);
  }

  /** The delete the handler evidently means: the same checks, then `DELETE FROM decks`. The
      deck is gone, no user row is touched, and the count is 1. */
  method HandleDeleteIntended(store: Store, caller: Option<int>, id: int) returns (r: Result<int, FieldError>)
    requires store.Valid()
    modifies store
    ensures store.Valid()
    ensures store.Sequences() == old(store.Sequences())
    ensures caller.None? ==> r == Err(UnauthorizedError(LoginToDeleteDeck))
    ensures caller.Some? && DeckOwner(old(store.Snapshot()), id).None? ==> r == Err(RecordNotFound)
    ensures caller.Some? && DeckOwner(old(store.Snapshot()), id).Some?
            && DeckOwner(old(store.Snapshot()), id).value != caller.value ==>
              r == Err(UnauthorizedError(ForeignDeckDeletion))
    ensures r.Ok? <==> caller.Some? && DeckOwner(old(store.Snapshot()), id) == caller
    ensures r.Ok? ==>
      r.value == 1
      && store.Snapshot() == old(store.Snapshot()).(decks := old(store.decks) - {id})
      && id !in store.decks && store.users == old(store.users)
    ensures r.Err? ==> store.Snapshot() == old(store.Snapshot())
  {
    if caller.None? {
      return Err(UnauthorizedError(LoginToDeleteDeck));
    }
    var owner := DeckOwner(store.Snapshot(), id);
    if owner.None? {
      return Err(RecordNotFound);
    }
    if caller.value != owner.value {
      return Err(UnauthorizedError(ForeignDeckDeletion));
    }
    var count := store.DeleteDeck(id);
    r := Ok(count);
  }
}
