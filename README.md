# total-recall mutation core, modelled in Dafny

total-recall is a flash-card study service with a GraphQL API. Users own decks.
A deck holds cards. Each card has a back whose text is resolved to cached
pronunciation audio and an illustrative image. Scores record study results, and
sets group cards. This project models the write side of that API:

- the insert, batch insert, update and delete handlers for cards, decks, scores, sets and users
  (`src/graphql/mutations/*.rs`);
- the asset cache that fetches and stores the audio and the image of a card back
  (`src/graphql/mutations/utilities.rs`);
- the small-integer encoding of `ScoreValue` (`src/graphql/query.rs`);
- the crate error `TRCError`, with its display text, its cause and its conversions (`src/lib.rs`).

The database is the class `Database.Store`. It has one map per table, keyed by
row id, and one id sequence per table. Every handler runs in one transaction.
The handler contracts say exactly which tables change on success. On every error
no table changes, and the id sequences never go back, as with Postgres
sequences. A refused insert keeps the ids its rows already drew. The file tree and the network are the class `Assets.Host`. What the
network returns and which file-system calls fail come from an `Assets.Env`
value. The asset resolvers are proved against the functions `ImageOutcome` and
`AudioOutcome`. Those functions are proved never to overwrite a cached file,
to add only the language directory and the file, and to be idempotent.

Authorization follows the source exactly. Each handler has its own error message
and tag, and its own lookup, which fails with `NotFound` when the id names
nothing. The two handlers whose code does not do what it evidently means are
modelled as written, next to a corrected version (see "## Findings").

Modules:

- `Wrappers`: `Option` and `Result`.
- `Errors`: `TRCError` and the GraphQL `FieldError`.
- `Query`: `ScoreValue` and the returned records.
- `Schema`: table rows and the symbolic bcrypt digest.
- `Database`: the store, the lookups and multi-row inserts.
- `Authorization`: the owner-check loop.
- `Assets`: the asset cache.
- `CardMutations`, `DeckMutations`, `ScoreMutations`, `SetMutations`, `UserMutations`: the handlers.

## Model

| member | source | states |
|---|---|---|
| `Errors.Display` | src/lib.rs:26-35 | `Unauthorized` displays exactly "Unauthorized"; every other variant displays its own prefix followed by its inner message, unchanged |
| `Errors.DisplayInjective` | src/lib.rs:26-35 | two errors with the same display text are the same error |
| `Errors.Cause` | src/lib.rs:37-45 | a cause exists exactly for `Request` and `FileSystem`, and the display text is the prefix followed by that cause |
| `Errors.FromIoError` | src/lib.rs:47-51 | an I/O error becomes a `FileSystem` error whose cause is that I/O error |
| `Errors.FromRequestError` | src/lib.rs:53-57 | a request error becomes a `Request` error whose cause is that request error |
| `Errors.IntoFieldError` | src/lib.rs:59-68 | a crate error surfaces tagged INTERNAL, so it never equals a hand-built UNAUTHORIZED error |
| `Errors.IntoFieldErrorInjective` | src/lib.rs:59-68 | different crate errors surface as different field errors |
| `Errors.Propagate` | src/graphql/mutations/card.rs:41 | `?` on a crate error yields an untagged field error with the display text, which differs from the `ExecutionResult::from` form |
| `Query.ToSql` | src/graphql/query.rs:29-37 | the column value lies in 0..5; it is 0 exactly for ZERO and 5 exactly for FIVE |
| `Query.FromSql` | src/graphql/query.rs:39-56 | for every column value in 0..5, the decoded score encodes back to that value |
| `Query.ScoreRoundTrip` | src/graphql/query.rs:29-56 | decoding the encoding of a score gives back the score |
| `Query.ToSqlInjective` | src/graphql/query.rs:29-37 | different scores occupy different column values |
| `Schema.Hash` | src/graphql/mutations/user.rs:36 | the digest uses cost 10 and verifies the password it was made from |
| `Schema.VerifyHashExactly` | src/service/endpoints.rs:77 | a digest verifies a password exactly when it is the hashed password |
| `Authorization.CheckOwners` | src/graphql/mutations/card.rs:108-112 | the loop passes exactly when every owner returned by the lookup is the caller |
| `Assets.ImageColumn` | src/graphql/mutations/card.rs:62 | the stored image column, under the static root, is the path the image resolver caches |
| `Assets.AudioColumn` | src/graphql/mutations/card.rs:63 | the stored audio column, under the static root, is the path the audio resolver caches |
| `Assets.FirstImageSrc` | src/graphql/mutations/utilities.rs:35-41 | no result exactly when no element is an `<img alt="">` with a `src`; otherwise the `src` of the first such element |
| `Assets.SaveToCacheSound` | src/graphql/mutations/utilities.rs:44-53 | writing a missed file keeps every entry, adds at most the directory and the file, and reports only file-system errors; it succeeds exactly when the file holds the fetched bytes |
| `Assets.FailedCopyLeavesFile` | src/graphql/mutations/utilities.rs:48-53 | a failed copy reports its I/O error and leaves the created file in place |
| `Assets.RootFileRefusesDir` | src/graphql/mutations/utilities.rs:44-46 | when the cache root is a regular file, creating a new language directory fails with ENOTDIR and nothing is written |
| `Assets.ImageOutcomeSound` | src/graphql/mutations/utilities.rs:14-56 | resolving an image keeps every cached entry, adds at most its directory and file, leaves the file present on success, and never fails with `Unauthorized` |
| `Assets.AudioOutcomeSound` | src/graphql/mutations/utilities.rs:58-87 | the same guarantees for audio |
| `Assets.ImageResolutionIdempotent` | src/graphql/mutations/utilities.rs:19-26 | after an image resolution succeeds, resolving again is a hit that changes nothing and makes no request |
| `Assets.AudioResolutionIdempotent` | src/graphql/mutations/utilities.rs:63-70 | the same for audio |
| `Assets.NoImageResult` | src/graphql/mutations/utilities.rs:35-41 | a search page without a usable image fails with "Failed to find first image in document" after one request and writes nothing |
| `Assets.Host.Get` | src/graphql/mutations/utilities.rs:28-31 | the URL is appended to the request log; the body is returned, or a failure becomes a `Request` error |
| `Assets.Host.CreateDir` | src/graphql/mutations/utilities.rs:44-46 | the file tree becomes the result of `MakeDir`: ENOENT for a missing parent, ENOTDIR for a parent that is a regular file, otherwise the directory or an injected fault; on an error it is unchanged |
| `Assets.Host.Create` | src/graphql/mutations/utilities.rs:48-51 | the file tree becomes the result of `CreateEmpty`; on an error it is unchanged |
| `Assets.Host.Copy` | src/graphql/mutations/utilities.rs:53 | the result and the file tree are those of `CopyInto` |
| `Assets.GetImageFromGoogle` | src/graphql/mutations/utilities.rs:14-56 | the result and the new file tree are `ImageOutcome` of the old tree; the requests made are `ImageTraffic` |
| `Assets.GetAudioFromGoogle` | src/graphql/mutations/utilities.rs:58-87 | the result and the new file tree are `AudioOutcome` of the old tree; the requests made are `AudioTraffic` |
| `Database.InsertedContents` | src/graphql/mutations/deck.rs:110-113 | a multi-row insert puts row k at id `start + k` and leaves every other entry as it was |
| `Database.InsertedSnoc` | src/graphql/mutations/card.rs:132-140 | one more single-row insert at the next id extends a multi-row insert by that row |
| `Database.InsertedAppend` | src/graphql/mutations/set.rs:118-133 | two consecutive multi-row inserts equal one insert of both row lists |
| `Database.DeckRowsCheckExisting` | src/graphql/mutations/card.rs:102-112 | checking the owners of the joined rows passes exactly when every referenced deck that exists belongs to the caller; ids naming no deck escape the check |
| `Database.OneDeckOneRow` | src/graphql/mutations/card.rs:102-106 | a batch that names one deck on two or more items gets back fewer lookup rows than it has items |
| `Database.CardOwnersChecksExisting` | src/graphql/mutations/score.rs:97-112 | checking the owners returned for the card ids passes exactly when every referenced card that exists belongs to the caller |
| `Database.Store.RollbackBacks` | src/graphql/mutations/card.rs:93 | the transaction's rollback restores `backs` and leaves every other table and every sequence as they are |
| `Database.Store.InsertUser` | src/graphql/mutations/user.rs:37-45 | a taken username is refused with no table changed, but the id the row drew is used up; otherwise the row takes the next id |
| `Database.Store.InsertUsers` | src/graphql/mutations/user.rs:77-80 | refused as a whole unless every username is new and unique within the batch, using up the ids of the rows up to and including the first refused one; otherwise rows take consecutive ids in input order |
| `Database.FirstConflict` | src/graphql/mutations/user.rs:77-80 | the row a refused batch fails on lies in the batch; every row before it is fresh, and its own username is taken or repeats an earlier one |
| `Database.FirstConflictUnique` | src/graphql/mutations/user.rs:77-80 | that row is the only position where a fresh prefix of the batch stops being fresh |
| `Database.Store.ReplaceUser` | src/graphql/mutations/user.rs:123-125 | only that user row changes; usernames stay unique |
| `Database.Store.DeleteUser` | src/graphql/mutations/user.rs:172 | removes that row; the count is 1 if it existed, else 0 |
| `Database.Store.InsertDeck` | src/graphql/mutations/deck.rs:46-53 | the row takes the next, unused deck id |
| `Database.Store.InsertDecks` | src/graphql/mutations/deck.rs:110-113 | the rows take consecutive ids in input order |
| `Database.Store.ReplaceDeck` | src/graphql/mutations/deck.rs:161-163 | only that deck row changes |
| `Database.Store.DeleteDeck` | src/graphql/mutations/deck.rs:210 | corrected form of this statement (see "## Findings"), used only by `DeckMutations.HandleDeleteIntended`: removes that deck row; the count is 1 if it existed, else 0 |
| `Database.Store.InsertBack` | src/graphql/mutations/card.rs:58-66 | the row takes the next, unused back id |
| `Database.Store.InsertCard` | src/graphql/mutations/card.rs:67-76 | the row takes the next, unused card id |
| `Database.Store.InsertCards` | src/graphql/mutations/card.rs:151-154 | the rows take consecutive ids in input order |
| `Database.Store.ReplaceCard` | src/graphql/mutations/card.rs:191-193 | only that card row changes |
| `Database.Store.DeleteCard` | src/graphql/mutations/card.rs:229-234 | removes that card row; the count is 1 if it existed, else 0 |
| `Database.Store.InsertScore` | src/graphql/mutations/score.rs:56-63 | the row takes the next, unused score id; stored values stay in 0..5 |
| `Database.Store.InsertScores` | src/graphql/mutations/score.rs:126-129 | the rows take consecutive ids in input order |
| `Database.Store.ReplaceScore` | src/graphql/mutations/score.rs:177-179 | only that score row changes |
| `Database.Store.InsertSet` | src/graphql/mutations/set.rs:40-48 | the row takes the next, unused set id |
| `Database.Store.InsertSets` | src/graphql/mutations/set.rs:113-116 | the rows take consecutive ids in input order |
| `Database.Store.ReplaceSet` | src/graphql/mutations/set.rs:181-183 | only that set row changes |
| `Database.Store.DeleteSet` | src/graphql/mutations/set.rs:230-234 | removes that set row; the count is 1 if it existed, else 0 |
| `Database.Store.InsertSetCards` | src/graphql/mutations/set.rs:50-64 | the join rows take consecutive ids in input order |
| `CardMutations.ResolveAssets` | src/graphql/mutations/card.rs:55-56 | audio, then image: no cached file changes; both files exist on success; a failure is never `Unauthorized` |
| `CardMutations.InsertBacks` | src/graphql/mutations/card.rs:116-149 | without a failure: item i's back takes its abbreviation and language from lookup row i, and its files are cached. A too-short lookup is the indexing panic. Only `backs` and its sequence change |
| `CardMutations.LoadBatchCards` | src/graphql/mutations/card.rs:151-159 | re-reading the inserted cards returns them in input order, each with the request time and its own back |
| `CardMutations.HandleInsert` | src/graphql/mutations/card.rs:32-83 | no caller gives an untagged Unauthorized, a missing deck NotFound, and another owner INTERNAL Unauthorized; none of these touches the cache. On success it writes exactly the back and the card, and the files named by the back exist. On error no table changes |
| `CardMutations.WriteBatch` | src/graphql/mutations/card.rs:114-159 | backs, then one multi-row card insert: on success both tables grow by exactly the batch rows; a panic needs a lookup shorter than the batch; on any failure no table changes |
| `CardMutations.HandleBatchInsert` | src/graphql/mutations/card.rs:85-162 | refuses unless every referenced deck that exists is the caller's, before any write or request; success returns the cards in input order and writes exactly their backs and rows |
| `CardMutations.AuthorizeBatch` | src/graphql/mutations/card.rs:97-112 | the joined rows in the database's order, and a verdict that holds exactly when every existing referenced deck is the caller's |
| `CardMutations.HandleUpdate` | src/graphql/mutations/card.rs:171-203 | the owner's update replaces the link when one is given and keeps the stored one otherwise, so a set link is never cleared; other callers and ids get the source's errors with nothing changed |
| `CardMutations.HandleDelete` | src/graphql/mutations/card.rs:210-238 | the owner deletes exactly that card with count 1; a missing card is NotFound; other callers are refused with nothing changed |
| `DeckMutations.LoadBatchDecks` | src/graphql/mutations/deck.rs:110-117 | re-reading the inserted decks returns the items as given, in input order |
| `DeckMutations.HandleInsert` | src/graphql/mutations/deck.rs:27-68 | succeeds exactly when the caller is the given owner, storing the deck as given; other owners and no caller are refused with nothing changed |
| `DeckMutations.HandleBatchInsert` | src/graphql/mutations/deck.rs:70-128 | succeeds exactly when every item names the caller as owner; success writes exactly the batch rows; otherwise nothing changes |
| `DeckMutations.HandleUpdate` | src/graphql/mutations/deck.rs:137-180 | only the owner renames; owner and language stay; a missing deck is NotFound |
| `DeckMutations.HandleDelete` | src/graphql/mutations/deck.rs:187-226 | as written: after the owner check, removes the user whose id equals the deck id; the deck stays, and the count is 1 only if such a user existed |
| `DeckMutations.HandleDeleteIntended` | src/graphql/mutations/deck.rs:187-226 | corrected: the owner removes exactly that deck with count 1, and no user row changes |
| `ScoreMutations.NewScoreRow` | src/graphql/mutations/score.rs:56-63 | the stored value lies in 0..5 and decodes to the submitted score |
| `ScoreMutations.LoadBatchScores` | src/graphql/mutations/score.rs:126-133 | re-reading the inserted scores decodes each to the submitted value, in input order, with the one request time |
| `ScoreMutations.AuthorizeScores` | src/graphql/mutations/score.rs:92-112 | passes exactly when every referenced card that exists belongs to the caller |
| `ScoreMutations.HandleInsert` | src/graphql/mutations/score.rs:30-78 | succeeds exactly when the card's deck is the caller's; success stores one score row; otherwise nothing changes |
| `ScoreMutations.HandleBatchInsert` | src/graphql/mutations/score.rs:80-144 | one foreign card refuses the whole batch before any write; success writes exactly the batch rows |
| `ScoreMutations.HandleUpdate` | src/graphql/mutations/score.rs:152-196 | the owner, found through score, card and deck, changes only the value; the value read back is the one submitted |
| `SetMutations.BatchLinksEveryCard` | src/graphql/mutations/set.rs:118-133 | every card listed by item i is linked to item i's set |
| `SetMutations.BatchLinksOnlyListed` | src/graphql/mutations/set.rs:118-133 | every join row of a batch links a card listed by one item to that item's set |
| `SetMutations.LoadBatchSets` | src/graphql/mutations/set.rs:135-138 | re-reading the inserted sets returns them in input order, owned by the caller |
| `SetMutations.HandleInsert` | src/graphql/mutations/set.rs:28-79 | any logged-in caller succeeds and becomes the owner, with one join row per listed card; no ownership check is made on the deck or the cards |
| `SetMutations.LinkCards` | src/graphql/mutations/set.rs:118-133 | the card lists collected while building the set rows are linked, item after item, to the returned set ids; no other table changes |
| `SetMutations.LinkStep` | src/graphql/mutations/set.rs:118-133 | one loop turn extends the join rows of the first i items to those of the first i + 1 |
| `SetMutations.HandleBatchInsert` | src/graphql/mutations/set.rs:81-148 | every set is owned by the caller with the one request time, and each item's cards are linked to its own set |
| `SetMutations.SetIdLookup` | src/graphql/mutations/set.rs:167-170 | the lookup finds the set's own id, not its owner |
| `SetMutations.HandleUpdate` | src/graphql/mutations/set.rs:157-200 | as written: succeeds exactly when the set exists and its id equals the caller's id, whoever owns it |
| `SetMutations.HandleUpdateIntended` | src/graphql/mutations/set.rs:157-200 | corrected: succeeds exactly when the caller owns the set; only the name changes |
| `SetMutations.HandleDelete` | src/graphql/mutations/set.rs:207-246 | the owner removes the set row with count 1; its join rows stay |
| `UserMutations.NewUserRow` | src/graphql/mutations/user.rs:36-44 | the stored digest verifies the given password and no other; both timestamps are the request time |
| `UserMutations.LoadBatchUsers` | src/graphql/mutations/user.rs:77-84 | re-reading the inserted users returns them in input order |
| `UserMutations.HandleInsert` | src/graphql/mutations/user.rs:25-53 | succeeds exactly when the username is new, giving the user the next id; otherwise UniqueViolation with no table changed and one user id used up |
| `UserMutations.HandleBatchInsert` | src/graphql/mutations/user.rs:55-88 | succeeds exactly when every username is new and unique within the batch, and then writes exactly the batch rows; a refusal changes no table and uses up between one id and one per row, up to the first refused row |
| `UserMutations.HandleUpdate` | src/graphql/mutations/user.rs:96-142 | only the caller's own password changes, with `updated_at`; afterwards the stored digest verifies the new password and no other |
| `UserMutations.HandleDelete` | src/graphql/mutations/user.rs:149-188 | only the caller's own account is closed, with count 1; a missing id is NotFound |

## Left out

- Assets.MakeDir and Assets.Host.CreateDir: only the immediate parent is inspected. A missing parent that itself lies under a regular file (`./static` a file, `./static/images` absent) is reported as ENOENT, where the operating system reports ENOTDIR.
- Assets.CopyInto: a failed copy leaves the destination empty in the model; a real copy may have written part of the bytes. Only the file's existence matters to later lookups.
- The network, HTML parsing, `sanitize_filename`, the text-to-speech URL builder and the I/O faults are fields of `Assets.Env`. They are given answers, not modelled code.
- The clock is the `time` parameter. `SystemTimeError` from `duration_since` cannot occur in the model, and the `as i64` cast of milliseconds is not modelled.
- bcrypt is symbolic: the salt, the cost's effect and hashing errors are not modelled. A bcrypt error would be a `?` failure in insert and update, and a panic through `unwrap` in the user batch at src/graphql/mutations/user.rs:71.
- Ids are `int` and timestamps `int`. The i32 and i64 widths of the columns are not modelled.
- Foreign-key constraints are not enforced by the model. src/db/schema.rs:92-101 declares the references (a deck's owner, a card's deck, a score's card, a set's deck and owner, a join row's set and card), but the store accepts any id and deletes rows that are still referenced. The contracts below therefore hold only for a store without foreign-key enforcement; with it, the inserts fail on an id that names nothing, and the deletes fail while rows still refer to the target:
  - SetMutations.HandleInsert and SetMutations.HandleBatchInsert succeed for a deck or card id that names nothing;
  - ScoreMutations.HandleBatchInsert succeeds for a card id that names no card, which escapes the owner check;
  - SetMutations.HandleDelete and Database.Store.DeleteSet leave the set's join rows in place;
  - UserMutations.HandleDelete, DeckMutations.HandleDelete, DeckMutations.HandleDeleteIntended, CardMutations.HandleDelete and the Database.Store delete methods return Ok even when other rows still refer to the deleted row.
- The model assumes a unique index on `users.username` and models it as a database constraint (`Database.UniqueViolation`). The schema at src/db/schema.rs:85 does not show indexes. The login at src/service/endpoints.rs:72-75 looks a user up by `username` with `get_result`, which presumes at most one row per username. The exact Postgres message text is a placeholder.
- The GraphQL look-ahead, `LoadingHandler` and the selection set are left out. Each handler returns the whole record it re-read. Without `ORDER BY` the database promises no order for an `eq_any` re-read; the model assumes id order, which is insertion order, and does not model the database's own choice.
- CardMutations.HandleBatchInsert: the order in which the deck lookup returns rows is chosen by the database. It is the parameter `order`, and the precondition `ListsMatchedDecks` says only that each referenced deck with a language is listed once.
- CardMutations.HandleBatchInsert: an index past the lookup rows panics. The model returns `Panicked` and rolls the tables back. What a panic does to the connection and the server is not modelled.
- CardMutations.HandleInsert: the asset files are stated by their effect (present, nothing overwritten), not tied to `ImageOutcome`/`AudioOutcome` call by call, and the error after an asset failure is stated only as an untagged non-`Unauthorized` crate error.
- CardMutations.ResolveAssets: states only the effects of the two resolvers (no cached entry changes, both files present on success, never `Unauthorized`); its result and its requests are not tied to `AudioOutcome`/`ImageOutcome` and their traffic.
- CardMutations.InsertBacks: on a failure it does not say which item failed or whether the failure was the indexing panic or that item's asset error; the files are stated by effect as in `ResolveAssets`.
- CardMutations.WriteBatch: when an item fails, the contract does not say whether it failed by a panic or by an asset error for that item. It says only that a panic needs a lookup shorter than the batch.
- Concurrency between requests is not modelled; each handler runs alone.
- Where the written behaviour differs from the documented behaviour, the model follows the code:
  - a card update with a null link keeps the stored link instead of clearing it;
  - a missing id fails at the owner lookup with `NotFound`;
  - a deck insert naming another owner is refused rather than given the caller as owner.
  - a deck delete reports the number of user rows it removed; src/test/deck.rs:143-147 expects 1 (see "## Findings").
- Scores have no delete handler (src/graphql/mutations/mod.rs:21), so the model has none.
- Queries, the login endpoint and JWT handling are outside the mutation core. Only bcrypt verification is stated, in `Schema.VerifyHashExactly`.

## Findings

| source | as written | input that shows it | evidently intended | confidence | as-written member | corrected member |
|---|---|---|---|---|---|---|
| src/graphql/mutations/deck.rs:210 | the delete handler checks the deck's owner, then deletes from `users` the row whose id is the deck id | user 1 owns deck 2, and user 2 exists and owns nothing; user 1 deletes deck 2: user 2's account is removed and deck 2 stays | delete deck 2 from `decks` and report count 1 | not executed | `DeckMutations.HandleDelete` | `DeckMutations.HandleDeleteIntended` |
| src/graphql/mutations/set.rs:169 | the update handler selects `sets::id` for its owner check, so it compares the caller with the set's id | set 2 is owned by user 1; user 2 renames set 2 and succeeds, while user 1 is refused | compare the caller with `sets::owner` | not executed | `SetMutations.HandleUpdate` | `SetMutations.HandleUpdateIntended` |
