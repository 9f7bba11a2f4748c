/**
 * The Postgres database the handlers write to: one map per table of
 * src/db/schema.rs, keyed by the row id, and one id sequence per table the
 * core inserts into (`languages` is seeded outside the core).
 *
 * Sequences behave as Postgres `serial` columns do: each inserted row takes the
 * next value, a batch insert takes consecutive values in input order, and a
 * rolled-back transaction does not give values back.
 */
module Database {
  import opened Wrappers
  import opened Errors
  import opened Schema
  import opened Query

  /** The contents of every table at one instant. */
  datatype Tables = Tables(
    users: map<int, UserRow>,
    languages: map<int, LanguageRow>,
    decks: map<int, DeckRow>,
    backs: map<int, BackRow>,
    cards: map<int, CardRow>,
    scores: map<int, ScoreRow>,
    sets: map<int, SetRow>,
    setCards: map<int, SetCardRow>)

  /** The next value of each id sequence. */
  datatype Counters = Counters(users: int, decks: int, backs: int, cards: int, scores: int, sets: int, setCards: int)

  predicate KeysBelow<T>(table: map<int, T>, next: int) {
    forall k :: k in table ==> k < next
  }

  function Usernames(users: map<int, UserRow>): set<string> {
    set k | k in users :: users[k].username
  }

  /** The `username` column is unique. */
  predicate UniqueUsernames(users: map<int, UserRow>) {
    forall a, b :: a in users && b in users && users[a].username == users[b].username ==> a == b
  }

  /** Every score column holds the encoding of a `ScoreValue`. */
  predicate ScoresEncoded(scores: map<int, ScoreRow>) {
    forall k :: k in scores ==> 0 <= scores[k].value <= 5
  }

  /** The database invariant: every id is below its sequence's next value, so a
      new row never overwrites an old one; usernames are unique; scores are in 0..5. */
  predicate Consistent(t: Tables, c: Counters) {
    KeysBelow(t.users, c.users) && KeysBelow(t.decks, c.decks) && KeysBelow(t.backs, c.backs)
    && KeysBelow(t.cards, c.cards) && KeysBelow(t.scores, c.scores) && KeysBelow(t.sets, c.sets)
    && KeysBelow(t.setCards, c.setCards)
    && UniqueUsernames(t.users) && ScoresEncoded(t.scores)
  }

  /** Sequences only move forward. */
  predicate CountersAdvanced(before: Counters, after: Counters) {
    before.users <= after.users && before.decks <= after.decks && before.backs <= after.backs
    && before.cards <= after.cards && before.scores <= after.scores && before.sets <= after.sets
    && before.setCards <= after.setCards
  }

  /** `table` after a multi-row insert of `rows`, which receive the consecutive ids from `start`. */
  function Inserted<T>(table: map<int, T>, start: int, rows: seq<T>): map<int, T>
    decreases |rows|
  {
    if rows == [] then table
    else Inserted(table, start, rows[..|rows| - 1])[start + |rows| - 1 := rows[|rows| - 1]]
  }

  /** The inserted rows sit at ids `start` .. `start + |rows| - 1`, overriding nothing else. */
  lemma {:induction false} InsertedContents<T>(table: map<int, T>, start: int, rows: seq<T>)
    ensures forall k :: k in Inserted(table, start, rows) <==> k in table || start <= k < start + |rows|
    ensures forall k :: k in Inserted(table, start, rows) ==>
      Inserted(table, start, rows)[k] == if start <= k < start + |rows| then rows[k - start] else table[k]
    decreases |rows|
  {
    if rows != [] {
      var prefix := rows[..|rows| - 1];
      InsertedContents(table, start, prefix);
    }
  }

  /** Inserting one more row extends the previous result by one entry at the next id. */
  lemma InsertedSnoc<T>(table: map<int, T>, start: int, rows: seq<T>, row: T, before: map<int, T>, after: map<int, T>)
    requires before == Inserted(table, start, rows)
    requires after == before[start + |rows| := row]
    ensures after == Inserted(table, start, rows + [row])
  {
    assert (rows + [row])[..|rows|] == rows;
  }

  /** Two multi-row inserts in a row, the second starting where the first ended, are one
      insert of both row lists. */
  lemma {:induction false} InsertedAppend<T>(table: map<int, T>, start: int, first: seq<T>, second: seq<T>)
    ensures Inserted(Inserted(table, start, first), start + |first|, second) == Inserted(table, start, first + second)
    decreases |second|
  {
    if second != [] {
      var prefix := second[..|second| - 1];
      InsertedAppend(table, start, first, prefix);
      assert (first + second)[..|first + second| - 1] == first + prefix;
    } else {
      assert first + second == first;
    }
  }

  /** The ids a multi-row insert returns. */
  function Consecutive(start: int, n: nat): (ids: seq<int>)
    ensures |ids| == n && forall i :: 0 <= i < n ==> ids[i] == start + i
  {
    seq(n, i => start + i)
  }

  // ---- Lookups the handlers run before writing (the ownership chains) ----

  /** One row of `decks INNER JOIN languages` selected as `(abbreviation, (owner, language))`. */
  datatype DeckJoin = DeckJoin(abbreviation: string, owner: int, language: int)

  /** The join row of one deck: absent when the deck or its language is missing. */
  function DeckOwnerLanguage(t: Tables, deck: int): Option<DeckJoin> {
    if deck in t.decks && t.decks[deck].language in t.languages then
      Some(DeckJoin(t.languages[t.decks[deck].language].abbreviation, t.decks[deck].owner, t.decks[deck].language))
    else None
  }

  /** The deck ids behind the rows `decks.id = ANY(ids)` returns over the join: every referenced
      deck that has a language, once each, in an order the database chooses. */
  predicate ListsMatchedDecks(t: Tables, ids: seq<int>, order: seq<int>) {
    (forall i, j :: 0 <= i < j < |order| ==> order[i] != order[j])
    && (forall k :: 0 <= k < |order| ==> order[k] in ids && DeckOwnerLanguage(t, order[k]).Some?)
    && (forall i :: 0 <= i < |ids| && DeckOwnerLanguage(t, ids[i]).Some? ==> ids[i] in order)
  }

  /** The join rows of the listed decks, in the database's order. */
  function DeckRows(t: Tables, order: seq<int>): (rows: seq<DeckJoin>)
    requires forall i :: 0 <= i < |order| ==> DeckOwnerLanguage(t, order[i]).Some?
    ensures |rows| == |order|
    ensures forall i :: 0 <= i < |order| ==> rows[i] == DeckOwnerLanguage(t, order[i]).value
  {
    seq(|order|, i requires 0 <= i < |order| => DeckOwnerLanguage(t, order[i]).value)
  }

  function JoinOwners(rows: seq<DeckJoin>): (owners: seq<int>)
    ensures |owners| == |rows| && forall i :: 0 <= i < |rows| ==> owners[i] == rows[i].owner
  {
    seq(|rows|, i requires 0 <= i < |rows| => rows[i].owner)
  }

  /** Every referenced deck that exists (with its language) belongs to `caller`. */
  predicate ExistingDecksOwnedBy(t: Tables, ids: seq<int>, caller: int) {
    forall i :: 0 <= i < |ids| && DeckOwnerLanguage(t, ids[i]).Some? ==> DeckOwnerLanguage(t, ids[i]).value.owner == caller
  }

  /** Checking the owners of the returned rows checks exactly the referenced decks that
      exist: an id naming no deck contributes no row and so escapes the check. */
  lemma DeckRowsCheckExisting(t: Tables, ids: seq<int>, order: seq<int>, caller: int)
    requires ListsMatchedDecks(t, ids, order)
    ensures (forall k :: 0 <= k < |order| ==> DeckRows(t, order)[k].owner == caller)
        <==> ExistingDecksOwnedBy(t, ids, caller)
  {
    var rows := DeckRows(t, order);
    if forall k :: 0 <= k < |order| ==> rows[k].owner == caller {
      forall i | 0 <= i < |ids| && DeckOwnerLanguage(t, ids[i]).Some?
        ensures DeckOwnerLanguage(t, ids[i]).value.owner == caller
      {
        assert ids[i] in order;
        var k :| 0 <= k < |order| && order[k] == ids[i];
        assert rows[k] == DeckOwnerLanguage(t, ids[i]).value;
      }
    }
    if ExistingDecksOwnedBy(t, ids, caller) {
      forall k | 0 <= k < |order| ensures rows[k].owner == caller {
        assert order[k] in ids;
        var i :| 0 <= i < |ids| && ids[i] == order[k];
        assert rows[k] == DeckOwnerLanguage(t, ids[i]).value;
      }
    }
  }

  /** The lookup returns each deck once: a batch naming one deck twice receives fewer
      rows than it has items. */
  lemma OneDeckOneRow(t: Tables, ids: seq<int>, order: seq<int>)
    requires ListsMatchedDecks(t, ids, order)
    requires |ids| >= 2 && forall i :: 0 <= i < |ids| ==> ids[i] == ids[0]
    ensures |order| <= 1 < |ids|
  {
    assert forall k :: 0 <= k < |order| ==> order[k] == ids[0];
    FirstTwoDiffer(order);
  }

  lemma FirstTwoDiffer(s: seq<int>)
    requires forall i, j :: 0 <= i < j < |s| ==> s[i] != s[j]
    ensures |s| >= 2 ==> s[0] != s[1]
  {
  }

  function DeckOwner(t: Tables, deck: int): Option<int> {
    if deck in t.decks then Some(t.decks[deck].owner) else None
  }

  /** `cards INNER JOIN decks` selected as `decks.owner`: the owner of a card's deck. */
  function CardOwner(t: Tables, card: int): Option<int> {
    if card in t.cards then DeckOwner(t, t.cards[card].deck) else None
  }

  /** `scores INNER JOIN (cards INNER JOIN decks)`: the owner at the end of the score's chain. */
  function ScoreOwner(t: Tables, score: int): Option<int> {
    if score in t.scores then CardOwner(t, t.scores[score].card) else None
  }

  function SetOwner(t: Tables, id: int): Option<int> {
    if id in t.sets then Some(t.sets[id].owner) else None
  }

  /** `cards.id = ANY(ids)` joined to decks, selecting the owners: one owner per id that names a
      card with a deck. Order and repetition do not matter to the all-equal check made on it. */
  function CardOwners(t: Tables, ids: seq<int>): seq<int> {
    if ids == [] then []
    else
      (match CardOwner(t, ids[0]) case Some(o) => [o] case None => []) + CardOwners(t, ids[1..])
  }

  /** Every referenced card that exists (with its deck) belongs to `caller`. */
  predicate ExistingCardsOwnedBy(t: Tables, ids: seq<int>, caller: int) {
    forall i :: 0 <= i < |ids| && CardOwner(t, ids[i]).Some? ==> CardOwner(t, ids[i]).value == caller
  }

  /** As for decks: the owner check on the lookup's rows skips ids that name no card. */
  lemma {:induction false} CardOwnersChecksExisting(t: Tables, ids: seq<int>, caller: int)
    ensures (forall k :: 0 <= k < |CardOwners(t, ids)| ==> CardOwners(t, ids)[k] == caller)
        <==> ExistingCardsOwnedBy(t, ids, caller)
  {
    if ids != [] {
      var rest := ids[1..];
      CardOwnersChecksExisting(t, rest, caller);
      var head := match CardOwner(t, ids[0]) case Some(o) => [o] case None => [];
      var owners, tail := CardOwners(t, ids), CardOwners(t, rest);
      assert owners == head + tail;
      if forall k :: 0 <= k < |owners| ==> owners[k] == caller {
        forall k | 0 <= k < |tail| ensures tail[k] == caller {
          assert tail[k] == owners[|head| + k];
        }
        forall i | 0 <= i < |ids| && CardOwner(t, ids[i]).Some?
          ensures CardOwner(t, ids[i]).value == caller
        {
          if i == 0 {
            assert owners[0] == CardOwner(t, ids[0]).value;
          } else {
            assert ids[i] == rest[i - 1];
          }
        }
      }
      if ExistingCardsOwnedBy(t, ids, caller) {
        forall i | 0 <= i < |rest| && CardOwner(t, rest[i]).Some?
          ensures CardOwner(t, rest[i]).value == caller
        {
          assert rest[i] == ids[i + 1];
        }
        forall k | 0 <= k < |owners| ensures owners[k] == caller {
          if k >= |head| {
            assert owners[k] == tail[k - |head|];
          }
        }
      }
    }
  }

  // ---- The records the handlers re-read after writing ----

  function LoadUser(t: Tables, id: int): User
    requires id in t.users
  {
    var row := t.users[id];
    User(id, row.username, row.createdAt, row.updatedAt)
  }

  function LoadDeck(t: Tables, id: int): Deck
    requires id in t.decks
  {
    var row := t.decks[id];
    Deck(id, row.name, row.owner, row.language)
  }

  function LoadCard(t: Tables, id: int): Card
    requires id in t.cards
  {
    var row := t.cards[id];
    Card(id, row.createdAt, row.front, row.back, row.deck, row.link)
  }

  /** Reading a score decodes its column with `from_sql`, defined for 0..5 only. */
  function LoadScore(t: Tables, id: int): Score
    requires id in t.scores && 0 <= t.scores[id].value <= 5
  {
    var row := t.scores[id];
    Score(id, row.createdAt, row.card, FromSql(row.value))
  }

  function LoadSet(t: Tables, id: int): Set
    requires id in t.sets
  {
    var row := t.sets[id];
    Set(id, row.createdAt, row.name, row.deck, row.owner)
  }

  const UniqueViolation: FieldError :=
    FieldError("duplicate key value violates unique constraint on users.username", None)

  /** The database connection's tables, updated in place by the handlers. */
  class Store {
    var users: map<int, UserRow>
    var languages: map<int, LanguageRow>
    var decks: map<int, DeckRow>
    var backs: map<int, BackRow>
    var cards: map<int, CardRow>
    var scores: map<int, ScoreRow>
    var sets: map<int, SetRow>
    var setCards: map<int, SetCardRow>

    var nextUser: int
    var nextDeck: int
    var nextBack: int
    var nextCard: int
    var nextScore: int
    var nextSet: int
    var nextSetCard: int

    function Snapshot(): Tables
      reads this
    {
      Tables(users, languages, decks, backs, cards, scores, sets, setCards)
    }

    function Sequences(): Counters
      reads this
    {
      Counters(nextUser, nextDeck, nextBack, nextCard, nextScore, nextSet, nextSetCard)
    }

    ghost predicate Valid()
      reads this
    {
      Consistent(Snapshot(), Sequences())
    }

    /** A database holding only the seeded languages; every sequence starts at 1. */
    constructor (seeded: map<int, LanguageRow>)
      ensures Valid()
      ensures Snapshot() == Tables(map[], seeded, map[], map[], map[], map[], map[], map[])
      ensures Sequences() == Counters(1, 1, 1, 1, 1, 1, 1)
    {
      users, languages, decks, backs := map[], seeded, map[], map[];
      cards, scores, sets, setCards := map[], map[], map[], map[];
      nextUser, nextDeck, nextBack, nextCard := 1, 1, 1, 1;
      nextScore, nextSet, nextSetCard := 1, 1, 1;
    }

    /** Transaction rollback after a failure that has written only `backs`: the table returns to
        its contents at the start of the transaction; the sequence keeps its value. */
    method RollbackBacks(saved: map<int, BackRow>)
      requires Valid() && KeysBelow(saved, nextBack)
      modifies this
      ensures Snapshot() == old(Snapshot()).(backs := saved) && Sequences() == old(Sequences())
      ensures Valid()
    {
      backs := saved;
    }

    // ---- users ----

    /** `INSERT INTO users`, refused by the unique index on `username`. The serial default draws
        its id before the index is checked, and a sequence ignores the rollback, so a refused
        insert still uses up one id. */
    method InsertUser(row: UserRow) returns (r: Result<int, FieldError>)
      requires Valid()
      modifies this
      ensures Valid()
      ensures row.username in Usernames(old(users)) ==>
        r == Err(UniqueViolation) && Snapshot() == old(Snapshot())
        && Sequences() == old(Sequences()).(users := old(nextUser) + 1)
      ensures row.username !in Usernames(old(users)) ==>
        r == Ok(old(nextUser)) && old(nextUser) !in old(users)
        && Snapshot() == old(Snapshot()).(users := old(users)[old(nextUser) := row])
        && Sequences() == old(Sequences()).(users := old(nextUser) + 1)
    {
      if row.username in Usernames(users) {
        nextUser := nextUser + 1;
        return Err(UniqueViolation);
      }
      var id := nextUser;
      users := users[id := row];
      nextUser := nextUser + 1;
      r := Ok(id);
    }

    /** A multi-row `INSERT INTO users`: refused as a whole when any username is taken or repeated.
        Rows are inserted in order, each drawing its id first, so a refused batch uses up the ids
        of every row up to and including the first one the index refuses. */
    method InsertUsers(rows: seq<UserRow>) returns (r: Result<seq<int>, FieldError>)
      requires Valid()
      modifies this
      ensures Valid()
      ensures !FreshUsernames(old(users), rows) ==>
        r == Err(UniqueViolation) && Snapshot() == old(Snapshot())
        && Sequences() == old(Sequences()).(users := old(nextUser) + FirstConflict(old(users), rows) + 1)
        && old(nextUser) < nextUser <= old(nextUser) + |rows|
      ensures FreshUsernames(old(users), rows) ==>
        r == Ok(Consecutive(old(nextUser), |rows|))
        && Snapshot() == old(Snapshot()).(users := Inserted(old(users), old(nextUser), rows))
        && Sequences() == old(Sequences()).(users := old(nextUser) + |rows|)
    {
      if !FreshUsernames(users, rows) {
        nextUser := nextUser + FirstConflict(users, rows) + 1;
        return Err(UniqueViolation);
      }
      var start := nextUser;
      InsertedContents(users, start, rows);
      users := Inserted(users, start, rows);
      nextUser := start + |rows|;
      r := Ok(Consecutive(start, |rows|));
      forall a, b | a in users && b in users && users[a].username == users[b].username
        ensures a == b
      {
        if a >= start && b >= start {
          assert users[a] == rows[a - start] && users[b] == rows[b - start];
        }
      }
    }

    /** `UPDATE users ... WHERE id = id` on an existing row. */
    method ReplaceUser(id: int, row: UserRow)
      requires Valid() && id in users && row.username == users[id].username
      modifies this
      ensures Valid()
      ensures Snapshot() == old(Snapshot()).(users := old(users)[id := row])
      ensures Sequences() == old(Sequences())
    {
      users := users[id := row];
    }

    /** `DELETE FROM users WHERE id = id`: the count is the number of rows removed. */
    method DeleteUser(id: int) returns (count: int)
      requires Valid()
      modifies this
      ensures Valid()
      ensures count == if id in old(users) then 1 else 0
      ensures Snapshot() == old(Snapshot()).(users := old(users) - {id})
      ensures Sequences() == old(Sequences())
    {
      count := if id in users then 1 else 0;
      users := users - {id};
    }

    // ---- decks ----

    method InsertDeck(row: DeckRow) returns (id: int)
      requires Valid()
      modifies this
      ensures Valid()
      ensures id == old(nextDeck) && id !in old(decks)
      ensures Snapshot() == old(Snapshot()).(decks := old(decks)[id := row])
      ensures Sequences() == old(Sequences()).(decks := id + 1)
    {
      id := nextDeck;
      decks := decks[id := row];
      nextDeck := nextDeck + 1;
    }

    method InsertDecks(rows: seq<DeckRow>) returns (ids: seq<int>)
      requires Valid()
      modifies this
      ensures Valid()
      ensures ids == Consecutive(old(nextDeck), |rows|)
      ensures Snapshot() == old(Snapshot()).(decks := Inserted(old(decks), old(nextDeck), rows))
      ensures Sequences() == old(Sequences()).(decks := old(nextDeck) + |rows|)
    {
      ids := Consecutive(nextDeck, |rows|);
      InsertedContents(decks, nextDeck, rows);
      decks := Inserted(decks, nextDeck, rows);
      nextDeck := nextDeck + |rows|;
    }

    method ReplaceDeck(id: int, row: DeckRow)
      requires Valid() && id in decks
      modifies this
      ensures Valid()
      ensures Snapshot() == old(Snapshot()).(decks := old(decks)[id := row])
      ensures Sequences() == old(Sequences())
    {
      decks := decks[id := row];
    }

    method DeleteDeck(id: int) returns (count: int)
      requires Valid()
      modifies this
      ensures Valid()
      ensures count == if id in old(decks) then 1 else 0
      ensures Snapshot() == old(Snapshot()).(decks := old(decks) - {id})
      ensures Sequences() == old(Sequences())
    {
      count := if id in decks then 1 else 0;
      decks := decks - {id};
    }

    // ---- backs and cards ----

    method InsertBack(row: BackRow) returns (id: int)
      requires Valid()
      modifies this
      ensures Valid()
      ensures id == old(nextBack) && id !in old(backs)
      ensures Snapshot() == old(Snapshot()).(backs := old(backs)[id := row])
      ensures Sequences() == old(Sequences()).(backs := id + 1)
    {
      id := nextBack;
      backs := backs[id := row];
      nextBack := nextBack + 1;
    }

    method InsertCard(row: CardRow) returns (id: int)
      requires Valid()
      modifies this
      ensures Valid()
      ensures id == old(nextCard) && id !in old(cards)
      ensures Snapshot() == old(Snapshot()).(cards := old(cards)[id := row])
      ensures Sequences() == old(Sequences()).(cards := id + 1)
    {
      id := nextCard;
      cards := cards[id := row];
      nextCard := nextCard + 1;
    }

    method InsertCards(rows: seq<CardRow>) returns (ids: seq<int>)
      requires Valid()
      modifies this
      ensures Valid()
      ensures ids == Consecutive(old(nextCard), |rows|)
      ensures Snapshot() == old(Snapshot()).(cards := Inserted(old(cards), old(nextCard), rows))
      ensures Sequences() == old(Sequences()).(cards := old(nextCard) + |rows|)
    {
      ids := Consecutive(nextCard, |rows|);
      InsertedContents(cards, nextCard, rows);
      cards := Inserted(cards, nextCard, rows);
      nextCard := nextCard + |rows|;
    }

    method ReplaceCard(id: int, row: CardRow)
      requires Valid() && id in cards
      modifies this
      ensures Valid()
      ensures Snapshot() == old(Snapshot()).(cards := old(cards)[id := row])
      ensures Sequences() == old(Sequences())
    {
      cards := cards[id := row];
    }

    method DeleteCard(id: int) returns (count: int)
      requires Valid()
      modifies this
      ensures Valid()
      ensures count == if id in old(cards) then 1 else 0
      ensures Snapshot() == old(Snapshot()).(cards := old(cards) - {id})
      ensures Sequences() == old(Sequences())
    {
      count := if id in cards then 1 else 0;
      cards := cards - {id};
    }

    // ---- scores ----

    method InsertScore(row: ScoreRow) returns (id: int)
      requires Valid() && 0 <= row.value <= 5
      modifies this
      ensures Valid()
      ensures id == old(nextScore) && id !in old(scores)
      ensures Snapshot() == old(Snapshot()).(scores := old(scores)[id := row])
      ensures Sequences() == old(Sequences()).(scores := id + 1)
    {
      id := nextScore;
      scores := scores[id := row];
      nextScore := nextScore + 1;
    }

    method InsertScores(rows: seq<ScoreRow>) returns (ids: seq<int>)
      requires Valid() && forall i :: 0 <= i < |rows| ==> 0 <= rows[i].value <= 5
      modifies this
      ensures Valid()
      ensures ids == Consecutive(old(nextScore), |rows|)
      ensures Snapshot() == old(Snapshot()).(scores := Inserted(old(scores), old(nextScore), rows))
      ensures Sequences() == old(Sequences()).(scores := old(nextScore) + |rows|)
    {
      ids := Consecutive(nextScore, |rows|);
      InsertedContents(scores, nextScore, rows);
      scores := Inserted(scores, nextScore, rows);
      nextScore := nextScore + |rows|;
    }

    method ReplaceScore(id: int, row: ScoreRow)
      requires Valid() && id in scores && 0 <= row.value <= 5
      modifies this
      ensures Valid()
      ensures Snapshot() == old(Snapshot()).(scores := old(scores)[id := row])
      ensures Sequences() == old(Sequences())
    {
      scores := scores[id := row];
    }

    // ---- sets and set_cards ----

    method InsertSet(row: SetRow) returns (id: int)
      requires Valid()
      modifies this
      ensures Valid()
      ensures id == old(nextSet) && id !in old(sets)
      ensures Snapshot() == old(Snapshot()).(sets := old(sets)[id := row])
      ensures Sequences() == old(Sequences()).(sets := id + 1)
    {
      id := nextSet;
      sets := sets[id := row];
      nextSet := nextSet + 1;
    }

    method InsertSets(rows: seq<SetRow>) returns (ids: seq<int>)
      requires Valid()
      modifies this
      ensures Valid()
      ensures ids == Consecutive(old(nextSet), |rows|)
      ensures Snapshot() == old(Snapshot()).(sets := Inserted(old(sets), old(nextSet), rows))
      ensures Sequences() == old(Sequences()).(sets := old(nextSet) + |rows|)
    {
      ids := Consecutive(nextSet, |rows|);
      InsertedContents(sets, nextSet, rows);
      sets := Inserted(sets, nextSet, rows);
      nextSet := nextSet + |rows|;
    }

    method ReplaceSet(id: int, row: SetRow)
      requires Valid() && id in sets
      modifies this
      ensures Valid()
      ensures Snapshot() == old(Snapshot()).(sets := old(sets)[id := row])
      ensures Sequences() == old(Sequences())
    {
      sets := sets[id := row];
    }

    method DeleteSet(id: int) returns (count: int)
      requires Valid()
      modifies this
      ensures Valid()
      ensures count == if id in old(sets) then 1 else 0
      ensures Snapshot() == old(Snapshot()).(sets := old(sets) - {id})
      ensures Sequences() == old(Sequences())
    {
      count := if id in sets then 1 else 0;
      sets := sets - {id};
    }

    method InsertSetCards(rows: seq<SetCardRow>) returns (ids: seq<int>)
      requires Valid()
      modifies this
      ensures Valid()
      ensures ids == Consecutive(old(nextSetCard), |rows|)
      ensures Snapshot() == old(Snapshot()).(setCards := Inserted(old(setCards), old(nextSetCard), rows))
      ensures Sequences() == old(Sequences()).(setCards := old(nextSetCard) + |rows|)
    {
      ids := Consecutive(nextSetCard, |rows|);
      InsertedContents(setCards, nextSetCard, rows);
      setCards := Inserted(setCards, nextSetCard, rows);
      nextSetCard := nextSetCard + |rows|;
    }
  }

  /** The usernames of a multi-row insert are new and pairwise different. */
  predicate FreshUsernames(users: map<int, UserRow>, rows: seq<UserRow>) {
    (forall i :: 0 <= i < |rows| ==> rows[i].username !in Usernames(users))
    && (forall i, j :: 0 <= i < j < |rows| ==> rows[i].username != rows[j].username)
  }

  /** The row a refused multi-row insert of `rows` fails on: the rows before it are all fresh,
      and its own username is taken or repeats an earlier row's. */
  function FirstConflict(users: map<int, UserRow>, rows: seq<UserRow>): (k: nat)
    requires !FreshUsernames(users, rows)
    ensures k < |rows|
    ensures FreshUsernames(users, rows[..k]) && !FreshUsernames(users, rows[..k + 1])
  {
    ConflictFrom(users, rows, 0)
  }

  /** The first conflict at or after position `n`, when the rows before `n` are fresh. */
  function ConflictFrom(users: map<int, UserRow>, rows: seq<UserRow>, n: nat): (k: nat)
    requires n <= |rows| && FreshUsernames(users, rows[..n]) && !FreshUsernames(users, rows)
    ensures n <= k < |rows|
    ensures FreshUsernames(users, rows[..k]) && !FreshUsernames(users, rows[..k + 1])
    decreases |rows| - n
  {
    assert rows[..|rows|] == rows;
    if !FreshUsernames(users, rows[..n + 1]) then n else ConflictFrom(users, rows, n + 1)
  }

  /** A batch fails on one row only: the first conflict is the unique position where a fresh
      prefix stops being fresh. */
  lemma {:induction false} FirstConflictUnique(users: map<int, UserRow>, rows: seq<UserRow>, k: nat)
    requires k < |rows| && FreshUsernames(users, rows[..k]) && !FreshUsernames(users, rows[..k + 1])
    ensures !FreshUsernames(users, rows) && FirstConflict(users, rows) == k
  {
    assert !FreshUsernames(users, rows);
    var c := FirstConflict(users, rows);
    if c < k {
      FreshPrefix(users, rows, c + 1, k);
      assert false;
    } else if c > k {
      FreshPrefix(users, rows, k + 1, c);
      assert false;
    }
  }

  /** Freshness is kept by every prefix. */
  lemma FreshPrefix(users: map<int, UserRow>, rows: seq<UserRow>, m: nat, n: nat)
    requires m <= n <= |rows| && FreshUsernames(users, rows[..n])
    ensures FreshUsernames(users, rows[..m])
  {
    assert forall i :: 0 <= i < m ==> rows[..m][i] == rows[..n][i];
  }
}
