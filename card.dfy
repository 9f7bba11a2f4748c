/**
 * The card mutations (src/graphql/mutations/card.rs). A card is created
 * together with its back: the back text is resolved to cached audio and an
 * image first, then a `backs` row pointing at both files is inserted, then the
 * `cards` row pointing at that back. Ownership is checked through the card's
 * deck. Every handler runs in one transaction: on an error no table changes.
 *
 * The card handlers turn a missing caller into `TRCError::Unauthorized` with
 * `?`, which juniper renders without a type tag (`Errors.Propagate`), and a
 * wrong owner into `ExecutionResult::from(TRCError::Unauthorized)`, which
 * carries the INTERNAL tag (`Errors.IntoFieldError`).
 */
module CardMutations {
  import opened Wrappers
  import opened Errors
  import opened Schema
  import opened Query
  import opened Database
  import opened Authorization
  import opened Assets

  datatype NewCard = NewCard(front: string, back: string, deck: int, link: Option<string>)

  datatype CardChangeset = CardChangeset(id: int, link: Option<string>)

  /** The caller may write to `deck`: logged in, and the deck (with its language) is theirs. */
  predicate MayWriteDeck(t: Tables, caller: Option<int>, deck: int) {
    caller.Some? && DeckOwnerLanguage(t, deck).Some? && DeckOwnerLanguage(t, deck).value.owner == caller.value
  }

  // ---- Resolving one back: audio first, then the image ----

  /** `get_audio_from_google(abbr, back, sanitized)?` then `get_image_from_google(..)?`: no cached
      file is changed or removed, both files exist when it succeeds, and a failure is never an
      authorization error. */
  method ResolveAssets(host: Host, env: Env, abbr: string, text: string, sanitized: string)
    returns (r: Result<(), TRCError>)
    modifies host
    ensures Extends(old(host.entries), host.entries)
    ensures r.Ok? ==> AudioPath(abbr, sanitized) in host.entries && ImagePath(abbr, sanitized) in host.entries
    ensures r.Err? ==> !r.error.Unauthorized?
  {
    AudioOutcomeSound(host.entries, env, abbr, text, sanitized);
    r := GetAudioFromGoogle(host, env, abbr, text, sanitized);
    if r.Err? {
      return;
    }
    ghost var heard := host.entries;
    ImageOutcomeSound(host.entries, env, abbr, text, sanitized);
    r := GetImageFromGoogle(host, env, abbr, text, sanitized);
    ExtendsTransitive(old(host.entries), heard, host.entries);
  }

  /** The `backs` row of a card whose deck joined to `join`. */
  function NewBack(text: string, join: DeckJoin, sanitized: string): BackRow {
    BackRow(text, join.language, Some(AudioColumn(join.abbreviation, sanitized)), Some(ImageColumn(join.abbreviation, sanitized)))
  }

  // ---- The batch loop ----

  /** `deck_ids`: the deck of every item, in input order. */
  function DeckIdsOf(items: seq<NewCard>): (ids: seq<int>)
    ensures |ids| == |items| && forall i :: 0 <= i < |items| ==> ids[i] == items[i].deck
  {
    seq(|items|, i requires 0 <= i < |items| => items[i].deck)
  }

  /** Why the batch loop stopped early: an asset error (`?`), or `decks_owners_languages[i]`
      indexing past the rows the lookup returned, which panics. */
  datatype BatchFailure = AssetFailure(error: TRCError) | IndexOutOfBounds

  /** The back rows of the first `n` items: item `i` takes its abbreviation and language from
      the `i`-th row of the deck lookup, which need not be the row of its own deck. */
  function BatchBacks(env: Env, items: seq<NewCard>, rows: seq<DeckJoin>, n: nat): (backs: seq<BackRow>)
    requires n <= |items| && n <= |rows|
    ensures |backs| == n
    ensures forall i :: 0 <= i < n ==> backs[i] == NewBack(items[i].back, rows[i], env.sanitize(items[i].back))
  {
    seq(n, i requires 0 <= i < n => NewBack(items[i].back, rows[i], env.sanitize(items[i].back)))
  }

  lemma BatchBacksNext(env: Env, items: seq<NewCard>, rows: seq<DeckJoin>, n: nat)
    requires n < |items| && n < |rows|
    ensures BatchBacks(env, items, rows, n + 1)
         == BatchBacks(env, items, rows, n) + [NewBack(items[n].back, rows[n], env.sanitize(items[n].back))]
  {
    assert BatchBacks(env, items, rows, n + 1)[..n] == BatchBacks(env, items, rows, n);
  }

  /** Both files of item `i` are cached, under the abbreviation of lookup row `i`. */
  predicate ItemCached(entries: map<string, Entry>, env: Env, items: seq<NewCard>, rows: seq<DeckJoin>, i: int)
    requires 0 <= i < |items| && i < |rows|
  {
    AudioPath(rows[i].abbreviation, env.sanitize(items[i].back)) in entries
    && ImagePath(rows[i].abbreviation, env.sanitize(items[i].back)) in entries
  }

  /** The loop of the batch insert: for each item in turn, resolve its back's assets with the
      abbreviation of the item's lookup row and insert the back row. It stops at the first
      failure, leaving the back rows inserted so far for the transaction to roll back; the
      files cached for earlier items stay. */
  method InsertBacks(store: Store, host: Host, env: Env, items: seq<NewCard>, rows: seq<DeckJoin>)
    returns (failure: Option<BatchFailure>)
    requires store.Valid()
    modifies store, host
    ensures store.Valid()
    ensures store.Sequences() == old(store.Sequences()).(backs := store.nextBack) && old(store.nextBack) <= store.nextBack
    ensures store.Snapshot() == old(store.Snapshot()).(backs := store.backs)
    ensures Extends(old(host.entries), host.entries)
    ensures failure == Some(IndexOutOfBounds) ==> |rows| < |items|
    ensures failure.Some? && failure.value.AssetFailure? ==> !failure.value.error.Unauthorized?
    ensures failure.None? ==>
      |items| <= |rows|
      && store.backs == Inserted(old(store.backs), old(store.nextBack), BatchBacks(env, items, rows, |items|))
      && (forall i :: 0 <= i < |items| ==> ItemCached(host.entries, env, items, rows, i))
  {
    var saved, firstBack := store.Snapshot(), store.nextBack;
    var i := 0;
    while i < |items|
      invariant 0 <= i <= |items| && i <= |rows|
      invariant store.Valid()
      invariant store.Sequences() == old(store.Sequences()).(backs := firstBack + i)
      invariant store.Snapshot() == saved.(backs := store.backs)
      invariant store.backs == Inserted(saved.backs, firstBack, BatchBacks(env, items, rows, i))
      invariant Extends(old(host.entries), host.entries)
      invariant forall j :: 0 <= j < i ==> ItemCached(host.entries, env, items, rows, j)
    {
      if i >= |rows| {
        return Some(IndexOutOfBounds);
      }
      var item, join := items[i], rows[i];
      var sanitized := env.sanitize(item.back);
      ghost var entriesBefore := host.entries;
      var assets := ResolveAssets(host, env, join.abbreviation, item.back, sanitized);
      ExtendsTransitive(old(host.entries), entriesBefore, host.entries);
      if assets.Err? {
        return Some(AssetFailure(assets.error));
      }
      forall j | 0 <= j <= i ensures ItemCached(host.entries, env, items, rows, j) {
        if j < i {
          assert ItemCached(entriesBefore, env, items, rows, j);
        }
      }
      ghost var backsBefore := store.backs;
      var back := store.InsertBack(NewBack(item.back, join, sanitized));
      BatchBacksNext(env, items, rows, i);
      InsertedSnoc(saved.backs, firstBack, BatchBacks(env, items, rows, i), NewBack(item.back, join, sanitized), backsBefore, store.backs);
      i := i + 1;
    }
    failure := None;
  }

  /** The `cards` rows of a batch: one per item, all stamped with the request's time, the
      `i`-th pointing at the `i`-th back inserted. */
  function CardRows(items: seq<NewCard>, time: int, firstBack: int): (rows: seq<CardRow>)
    ensures |rows| == |items|
    ensures forall i :: 0 <= i < |items| ==>
      rows[i] == CardRow(time, items[i].front, firstBack + i, items[i].deck, items[i].link)
  {
    seq(|items|, i requires 0 <= i < |items| => CardRow(time, items[i].front, firstBack + i, items[i].deck, items[i].link))
  }

  function LoadCards(t: Tables, ids: seq<int>): seq<Card>
    requires forall i :: 0 <= i < |ids| ==> ids[i] in t.cards
  {
    seq(|ids|, i requires 0 <= i < |ids| => LoadCard(t, ids[i]))
  }

  /** The cards a batch returns: in input order, numbered from the first new card id, each with
      the request's time and the back inserted for it. */
  function BatchCards(items: seq<NewCard>, time: int, firstCard: int, firstBack: int): (cards: seq<Card>)
    ensures |cards| == |items|
    ensures forall i :: 0 <= i < |items| ==>
      cards[i] == Card(firstCard + i, time, items[i].front, firstBack + i, items[i].deck, items[i].link)
  {
    seq(|items|, i requires 0 <= i < |items| => Card(firstCard + i, time, items[i].front, firstBack + i, items[i].deck, items[i].link))
  }

  /** Re-reading the cards of a multi-row insert returns exactly `BatchCards`. */
  lemma LoadBatchCards(t: Tables, before: map<int, CardRow>, firstCard: int, items: seq<NewCard>, time: int, firstBack: int)
    requires t.cards == Inserted(before, firstCard, CardRows(items, time, firstBack))
    ensures var ids := Consecutive(firstCard, |items|); forall i :: 0 <= i < |ids| ==> ids[i] in t.cards
    ensures LoadCards(t, Consecutive(firstCard, |items|)) == BatchCards(items, time, firstCard, firstBack)
  {
    InsertedContents(before, firstCard, CardRows(items, time, firstBack));
  }

  /** What a batch request produces: a response, or a panic that aborts the request. */
  datatype BatchOutcome = Completed(result: Result<seq<Card>, FieldError>) | Panicked

  // ---- Handlers ----

  /** `HandleInsert for cards::table`. `time` is the request's clock reading. */
  method HandleInsert(store: Store, host: Host, env: Env, caller: Option<int>, input: NewCard, time: int)
    returns (r: Result<Card, FieldError>)
    requires store.Valid()
    modifies store, host
    ensures store.Valid()
    ensures CountersAdvanced(old(store.Sequences()), store.Sequences())
    ensures caller.None? ==> r == Err(Propagate(Unauthorized))
    ensures caller.Some? && DeckOwnerLanguage(old(store.Snapshot()), input.deck).None? ==> r == Err(RecordNotFound)
    ensures caller.Some? && DeckOwnerLanguage(old(store.Snapshot()), input.deck).Some?
            && DeckOwnerLanguage(old(store.Snapshot()), input.deck).value.owner != caller.value ==>
              r == Err(IntoFieldError(Unauthorized))
    ensures !MayWriteDeck(old(store.Snapshot()), caller, input.deck) ==>
              host.entries == old(host.entries) && host.requests == old(host.requests)
    ensures Extends(old(host.entries), host.entries)
    ensures MayWriteDeck(old(store.Snapshot()), caller, input.deck) && r.Err? ==>
              exists e :: r.error == Propagate(e) && !e.Unauthorized?
    ensures r.Ok? ==> MayWriteDeck(old(store.Snapshot()), caller, input.deck)
    ensures r.Ok? ==>
      var join := DeckOwnerLanguage(old(store.Snapshot()), input.deck).value;
      var back := NewBack(input.back, join, env.sanitize(input.back));
      r.value == Card(old(store.nextCard), time, input.front, old(store.nextBack), input.deck, input.link)
      && store.Snapshot() == old(store.Snapshot()).(
           backs := old(store.backs)[old(store.nextBack) := back],
           cards := old(store.cards)[old(store.nextCard) := CardRow(time, input.front, old(store.nextBack), input.deck, input.link)])
      && StaticRoot + "/" + back.audio.value in host.entries
      && StaticRoot + "/" + back.image.value in host.entries
    ensures r.Err? ==> store.Snapshot() == old(store.Snapshot())
  {
    if caller.None? {
      return Err(Propagate(Unauthorized));
    }
    var found := DeckOwnerLanguage(store.Snapshot(), input.deck);
    if found.None? {
      return Err(RecordNotFound);
    }
    var join := found.value;
    if caller.value != join.owner {
      return Err(IntoFieldError(Unauthorized));
    }
    var sanitized := env.sanitize(input.back);
    var assets := ResolveAssets(host, env, join.abbreviation, input.back, sanitized);
    if assets.Err? {
      return Err(Propagate(assets.error));
    }
    var back := store.InsertBack(NewBack(input.back, join, sanitized));
    var card := store.InsertCard(CardRow(time, input.front, back, input.deck, input.link));
    r := Ok(LoadCard(store.Snapshot(), card));
  }

  /** The writes of a batch insert once its owners are checked, inside the transaction: the
      backs loop, then one multi-row insert of the cards and their re-read. On a failure the
      transaction rolls every row back; the files already cached stay. */
  method WriteBatch(store: Store, host: Host, env: Env, items: seq<NewCard>, rows: seq<DeckJoin>, time: int)
    returns (r: BatchOutcome)
    requires store.Valid()
    modifies store, host
    ensures store.Valid()
    ensures CountersAdvanced(old(store.Sequences()), store.Sequences())
    ensures Extends(old(host.entries), host.entries)
    ensures r == Panicked ==> |rows| < |items|
    ensures r.Completed? && r.result.Err? ==> exists e :: r.result.error == Propagate(e) && !e.Unauthorized?
    ensures r.Completed? && r.result.Ok? ==>
      |items| <= |rows|
      && store.Snapshot() == old(store.Snapshot()).(
           backs := Inserted(old(store.backs), old(store.nextBack), BatchBacks(env, items, rows, |items|)),
           cards := Inserted(old(store.cards), old(store.nextCard), CardRows(items, time, old(store.nextBack))))
      && (forall i :: 0 <= i < |items| ==> ItemCached(host.entries, env, items, rows, i))
      && r.result.value == BatchCards(items, time, old(store.nextCard), old(store.nextBack))
    ensures !(r.Completed? && r.result.Ok?) ==> store.Snapshot() == old(store.Snapshot())
  {
    var savedBacks := store.backs;
    var firstBack := store.nextBack;
    var failure := InsertBacks(store, host, env, items, rows);
    if failure.Some? {
      store.RollbackBacks(savedBacks);
      if failure.value.IndexOutOfBounds? {
        return Panicked;
      }
      return Completed(Err(Propagate(failure.value.error)));
    }
    var cardRows := CardRows(items, time, firstBack);
    ghost var cardsBefore, firstCard := store.cards, store.nextCard;
    var cards := store.InsertCards(cardRows);
    LoadBatchCards(store.Snapshot(), cardsBefore, firstCard, items, time, firstBack);
    r := Completed(Ok(LoadCards(store.Snapshot(), cards)));
  }

  /** `HandleBatchInsert for cards::table`. `order` lists the decks the lookup returned, in the
      database's order: each referenced deck that has a language, once. */
  method HandleBatchInsert(store: Store, host: Host, env: Env, caller: Option<int>, items: seq<NewCard>, order: seq<int>, time: int)
    returns (r: BatchOutcome)
    requires store.Valid()
    requires ListsMatchedDecks(store.Snapshot(), DeckIdsOf(items), order)
    modifies store, host
    ensures store.Valid()
    ensures CountersAdvanced(old(store.Sequences()), store.Sequences())
    ensures caller.None? ==> r == Completed(Err(Propagate(Unauthorized)))
    ensures caller.Some? && !ExistingDecksOwnedBy(old(store.Snapshot()), DeckIdsOf(items), caller.value) ==>
              r == Completed(Err(IntoFieldError(Unauthorized)))
    ensures !(caller.Some? && ExistingDecksOwnedBy(old(store.Snapshot()), DeckIdsOf(items), caller.value)) ==>
              host.entries == old(host.entries) && host.requests == old(host.requests)
    ensures Extends(old(host.entries), host.entries)
    ensures r == Panicked ==> |order| < |items|
    ensures caller.Some? && ExistingDecksOwnedBy(old(store.Snapshot()), DeckIdsOf(items), caller.value)
            && r.Completed? && r.result.Err? ==>
              exists e :: r.result.error == Propagate(e) && !e.Unauthorized?
    ensures r.Completed? && r.result.Ok? ==>
      caller.Some? && ExistingDecksOwnedBy(old(store.Snapshot()), DeckIdsOf(items), caller.value)
      && |items| <= |order|
      && var rows := DeckRows(old(store.Snapshot()), order);
      store.Snapshot() == old(store.Snapshot()).(
        backs := Inserted(old(store.backs), old(store.nextBack), BatchBacks(env, items, rows, |items|)),
        cards := Inserted(old(store.cards), old(store.nextCard), CardRows(items, time, old(store.nextBack))))
      && (forall i :: 0 <= i < |items| ==> ItemCached(host.entries, env, items, rows, i))
      && r.result.value == BatchCards(items, time, old(store.nextCard), old(store.nextBack))
    ensures !(r.Completed? && r.result.Ok?) ==> store.Snapshot() == old(store.Snapshot())
  {
    if caller.None? {
      return Completed(Err(Propagate(Unauthorized)));
    }
    var rows, owned := AuthorizeBatch(store, caller.value, items, order);
    if !owned {
      return Completed(Err(IntoFieldError(Unauthorized)));
    }
    r := WriteBatch(store, host, env, items, rows, time);
  }

  /** The read phase of the card batch: collect the items' deck ids, load the joined deck rows
      and check every owner they name. The check passes exactly when every listed deck that
      exists belongs to the caller; deck ids that match no row are not checked here. */
  method AuthorizeBatch(store: Store, caller: int, items: seq<NewCard>, order: seq<int>)
    returns (rows: seq<DeckJoin>, owned: bool)
    requires ListsMatchedDecks(store.Snapshot(), DeckIdsOf(items), order)
    ensures rows == DeckRows(store.Snapshot(), order)
    ensures owned <==> ExistingDecksOwnedBy(store.Snapshot(), DeckIdsOf(items), caller)
  {
    var deckIds: seq<int> := [];
    var i := 0;
    while i < |items|
      invariant 0 <= i <= |items|
      invariant deckIds == DeckIdsOf(items[..i])
    {
      deckIds := deckIds + [items[i].deck];
      i := i + 1;
    }
    assert items[..|items|] == items;
    rows := DeckRows(store.Snapshot(), order);
    owned := CheckOwners(JoinOwners(rows), caller);
    DeckRowsCheckExisting(store.Snapshot(), deckIds, order, caller);
  }

  /** `HandleUpdate for cards::table`: `update.link.or(current_link)`, so an absent link keeps
      the stored one and a link can be replaced but never cleared. */
  method HandleUpdate(store: Store, caller: Option<int>, update: CardChangeset)
    returns (r: Result<Card, FieldError>)
    requires store.Valid()
    modifies store
    ensures store.Valid()
    ensures store.Sequences() == old(store.Sequences())
    ensures caller.None? ==> r == Err(Propagate(Unauthorized))
    ensures caller.Some? && CardOwner(old(store.Snapshot()), update.id).None? ==> r == Err(RecordNotFound)
    ensures caller.Some? && CardOwner(old(store.Snapshot()), update.id).Some?
            && CardOwner(old(store.Snapshot()), update.id).value != caller.value ==>
              r == Err(IntoFieldError(Unauthorized))
    ensures caller.Some? && CardOwner(old(store.Snapshot()), update.id) == Some(caller.value) ==>
      var current := old(store.cards)[update.id];
      var link := if update.link.Some? then update.link else current.link;
      r == Ok(Card(update.id, current.createdAt, current.front, current.back, current.deck, link))
      && store.Snapshot() == old(store.Snapshot()).(cards := old(store.cards)[update.id := current.(link := link)])
    ensures r.Ok? && old(store.cards)[update.id].link.Some? ==> r.value.link.Some?
    ensures r.Err? ==> store.Snapshot() == old(store.Snapshot())
  {
    if caller.None? {
      return Err(Propagate(Unauthorized));
    }
    var owner := CardOwner(store.Snapshot(), update.id);
    if owner.None? {
      return Err(RecordNotFound);
    }
    var current := store.cards[update.id];
    if caller.value != owner.value {
      return Err(IntoFieldError(Unauthorized));
    }
    var link := if update.link.Some? then update.link else current.link;
    store.ReplaceCard(update.id, current.(link := link));
    r := Ok(LoadCard(store.Snapshot(), update.id));
  }

  /** `HandleDelete for cards::table`: the count is 1, since the row was found first; a card that
      is not there (including one already deleted) fails the lookup with `NotFound`. */
  method HandleDelete(store: Store, caller: Option<int>, id: int)
    returns (r: Result<int, FieldError>)
    requires store.Valid()
    modifies store
    ensures store.Valid()
    ensures store.Sequences() == old(store.Sequences())
    ensures caller.None? ==> r == Err(Propagate(Unauthorized))
    ensures caller.Some? && CardOwner(old(store.Snapshot()), id).None? ==> r == Err(RecordNotFound)
    ensures caller.Some? && CardOwner(old(store.Snapshot()), id).Some? && CardOwner(old(store.Snapshot()), id).value != caller.value ==>
              r == Err(IntoFieldError(Unauthorized))
    ensures caller.Some? && CardOwner(old(store.Snapshot()), id) == Some(caller.value) ==>
              r == Ok(1) && store.Snapshot() == old(store.Snapshot()).(cards := old(store.cards) - {id})
    ensures r.Ok? ==> id !in store.cards
    ensures r.Err? ==> store.Snapshot() == old(store.Snapshot())
  {
    if caller.None? {
      return Err(Propagate(Unauthorized));
    }
    var owner := CardOwner(store.Snapshot(), id);
    if owner.None? {
      return Err(RecordNotFound);
    }
    if caller.value != owner.value {
      return Err(IntoFieldError(Unauthorized));
    }
    var count := store.DeleteCard(id);
    r := Ok(count);
  }
}
