/**
 * The score mutations (src/graphql/mutations/score.rs). A score belongs to
 * whoever owns the deck of its card: insert and update follow that chain to
 * the owner and refuse any other caller. The value is written through
 * `Query.ToSql` and read back through `Query.FromSql`. There is no delete for
 * scores.
 *
 * Every refusal is a hand-built error tagged UNAUTHORIZED and happens before
 * any write.
 */
module ScoreMutations {
  import opened Wrappers
  import opened Errors
  import opened Schema
  import opened Query
  import opened Database
  import opened Authorization

  datatype NewScore = NewScore(card: int, value: ScoreValue)

  datatype ScoreChangeset = ScoreChangeset(id: int, value: ScoreValue)

  const ForeignStudy: string := "Studying other users' cards is forbidden."
  const LoginToStudy: string := "You must be logged in to study."
  /** The batch handler's message, which speaks of cards although it creates scores. */
  const LoginToCreateCards: string := "You must be logged in to create cards."
  const ForeignScores: string := "Submitting scores for other users' cards is forbidden."
  const ForeignScoreUpdate: string := "Updating other users' scores is forbidden."
  const LoginToUpdateScore: string := "You must be logged in to update a score."

  /** The row of one score: its card, the encoded value and the request's time. */
  function NewScoreRow(input: NewScore, time: int): (row: ScoreRow)
    ensures 0 <= row.value <= 5 && FromSql(row.value) == input.value
  {
    ScoreRoundTrip(input.value);
    ScoreRow(time, input.card, ToSql(input.value))
  }

  function NewScoreRows(items: seq<NewScore>, time: int): (rows: seq<ScoreRow>)
    ensures |rows| == |items| && forall i :: 0 <= i < |items| ==> rows[i] == NewScoreRow(items[i], time)
  {
    seq(|items|, i requires 0 <= i < |items| => NewScoreRow(items[i], time))
  }

  /** The card ids a batch refers to, in input order. */
  function CardIdsOf(items: seq<NewScore>): (ids: seq<int>)
    ensures |ids| == |items| && forall i :: 0 <= i < |items| ==> ids[i] == items[i].card
  {
    seq(|items|, i requires 0 <= i < |items| => items[i].card)
  }

  function LoadScores(t: Tables, ids: seq<int>): seq<Score>
    requires forall i :: 0 <= i < |ids| ==> ids[i] in t.scores && 0 <= t.scores[ids[i]].value <= 5
  {
    seq(|ids|, i requires 0 <= i < |ids| => LoadScore(t, ids[i]))
  }

  /** The scores a batch returns: the items in input order, numbered from the first new id,
      all carrying the one timestamp of the request. */
  function BatchScores(items: seq<NewScore>, time: int, first: int): (scores: seq<Score>)
    ensures |scores| == |items|
    ensures forall i :: 0 <= i < |items| ==> scores[i] == Score(first + i, time, items[i].card, items[i].value)
  {
    seq(|items|, i requires 0 <= i < |items| => Score(first + i, time, items[i].card, items[i].value))
  }

  /** Re-reading the scores of a multi-row insert decodes every value to the one submitted. */
  lemma LoadBatchScores(t: Tables, before: map<int, ScoreRow>, first: int, items: seq<NewScore>, time: int)
    requires t.scores == Inserted(before, first, NewScoreRows(items, time))
    ensures var ids := Consecutive(first, |items|);
      forall i :: 0 <= i < |ids| ==> ids[i] in t.scores && 0 <= t.scores[ids[i]].value <= 5
    ensures LoadScores(t, Consecutive(first, |items|)) == BatchScores(items, time, first)
  {
    InsertedContents(before, first, NewScoreRows(items, time));
  }

  /** The read phase of the batch: collect the card ids (score.rs builds `card_ids` in a loop),
      look up the owners of their decks and check each one. It passes exactly when every
      referenced card that exists belongs to the caller. */
  method AuthorizeScores(store: Store, caller: int, items: seq<NewScore>) returns (owned: bool)
    ensures owned <==> ExistingCardsOwnedBy(store.Snapshot(), CardIdsOf(items), caller)
  {
    var cardIds: seq<int> := [];
    var i := 0;
    while i < |items|
      invariant 0 <= i <= |items|
      invariant cardIds == CardIdsOf(items[..i])
    {
      cardIds := cardIds + [items[i].card];
      i := i + 1;
    }
    assert items[..|items|] == items;
    owned := CheckOwners(CardOwners(store.Snapshot(), cardIds), caller);
    CardOwnersChecksExisting(store.Snapshot(), cardIds, caller);
  }

  /** `HandleInsert for scores::table`. `time` is the request's clock reading. */
  method HandleInsert(store: Store, caller: Option<int>, input: NewScore, time: int) returns (r: Result<Score, FieldError>)
    requires store.Valid()
    modifies store
    ensures store.Valid()
    ensures caller.None? ==> r == Err(UnauthorizedError(LoginToStudy))
    ensures caller.Some? && CardOwner(old(store.Snapshot()), input.card).None? ==> r == Err(RecordNotFound)
    ensures caller.Some? && CardOwner(old(store.Snapshot()), input.card).Some?
            && CardOwner(old(store.Snapshot()), input.card).value != caller.value ==>
              r == Err(UnauthorizedError(ForeignStudy))
    ensures r.Ok? <==> caller.Some? && CardOwner(old(store.Snapshot()), input.card) == caller
    ensures r.Ok? ==>
      r.value == Score(old(store.nextScore), time, input.card, input.value)
      && store.Snapshot() == old(store.Snapshot()).(scores := old(store.scores)[old(store.nextScore) := NewScoreRow(input, time)])
      && store.Sequences() == old(store.Sequences()).(scores := old(store.nextScore) + 1)
    ensures r.Err? ==> store.Snapshot() == old(store.Snapshot()) && store.Sequences() == old(store.Sequences())
  {
    if caller.None? {
      return Err(UnauthorizedError(LoginToStudy));
    }
    var owner := CardOwner(store.Snapshot(), input.card);
    if owner.None? {
      return Err(RecordNotFound);
    }
    if caller.value != owner.value {
      return Err(UnauthorizedError(ForeignStudy));
    }
    var id := store.InsertScore(NewScoreRow(input, time));
    r := Ok(LoadScore(store.Snapshot(), id));
  }

  /** `HandleBatchInsert for scores::table`: one foreign card refuses the whole batch before
      anything is written; otherwise one multi-row insert sharing one timestamp. */
  method HandleBatchInsert(store: Store, caller: Option<int>, items: seq<NewScore>, time: int)
    returns (r: Result<seq<Score>, FieldError>)
    requires store.Valid()
    modifies store
    ensures store.Valid()
    ensures caller.None? ==> r == Err(UnauthorizedError(LoginToCreateCards))
    ensures caller.Some? && !ExistingCardsOwnedBy(old(store.Snapshot()), CardIdsOf(items), caller.value) ==>
              r == Err(UnauthorizedError(ForeignScores))
    ensures r.Ok? <==> caller.Some? && ExistingCardsOwnedBy(old(store.Snapshot()), CardIdsOf(items), caller.value)
    ensures r.Ok? ==>
      r.value == BatchScores(items, time, old(store.nextScore))
      && store.Snapshot() == old(store.Snapshot()).(scores := Inserted(old(store.scores), old(store.nextScore), NewScoreRows(items, time)))
      && store.Sequences() == old(store.Sequences()).(scores := old(store.nextScore) + |items|)
    ensures r.Err? ==> store.Snapshot() == old(store.Snapshot()) && store.Sequences() == old(store.Sequences())
  {
    if caller.None? {
      return Err(UnauthorizedError(LoginToCreateCards));
    }
    var owned := AuthorizeScores(store, caller.value, items);
    if !owned {
      return Err(UnauthorizedError(ForeignScores));
    }
    ghost var before := store.scores;
    var ids := store.InsertScores(NewScoreRows(items, time));
    LoadBatchScores(store.Snapshot(), before, old(store.nextScore), items, time);
    r := Ok(LoadScores(store.Snapshot(), ids));
  }

  /** `HandleUpdate for scores::table`: the owner is found through score, card and deck; only
      the value changes. */
  method HandleUpdate(store: Store, caller: Option<int>, update: ScoreChangeset) returns (r: Result<Score, FieldError>)
    requires store.Valid()
    modifies store
    ensures store.Valid()
    ensures store.Sequences() == old(store.Sequences())
    ensures caller.None? ==> r == Err(UnauthorizedError(LoginToUpdateScore))
    ensures caller.Some? && ScoreOwner(old(store.Snapshot()), update.id).None? ==> r == Err(RecordNotFound)
    ensures caller.Some? && ScoreOwner(old(store.Snapshot()), update.id).Some?
            && ScoreOwner(old(store.Snapshot()), update.id).value != caller.value ==>
              r == Err(UnauthorizedError(ForeignScoreUpdate))
    ensures r.Ok? <==> caller.Some? && ScoreOwner(old(store.Snapshot()), update.id) == caller
    ensures r.Ok? ==>
      var current := old(store.scores)[update.id];
      r.value == Score(update.id, current.createdAt, current.card, update.value)
      && store.Snapshot() == old(store.Snapshot()).(scores := old(store.scores)[update.id := current.(value := ToSql(update.value))])
    ensures r.Err? ==> store.Snapshot() == old(store.Snapshot())
  {
    if caller.None? {
      return Err(UnauthorizedError(LoginToUpdateScore));
    }
    var owner := ScoreOwner(store.Snapshot(), update.id);
    if owner.None? {
      return Err(RecordNotFound);
    }
    if caller.value != owner.value {
      return Err(UnauthorizedError(ForeignScoreUpdate));
    }
    var current := store.scores[update.id];
    ScoreRoundTrip(update.value);
    store.ReplaceScore(update.id, current.(value := ToSql(update.value)));
    r := Ok(LoadScore(store.Snapshot(), update.id));
  }
}
