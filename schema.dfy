/**
 * The rows of the eight tables (src/db/schema.rs). Each table is a map from
 * the row's id to the remaining columns; see `Database.Store`.
 */
module Schema {
  import opened Wrappers

  /** A bcrypt digest, kept symbolic: `Bcrypt(cost, secret)` stands for the salted
      hash of `secret` at that cost. The salt and the one-way property are not
      modelled; what is modelled is that a digest verifies exactly the password
      it was made from. */
  datatype PasswordHash = Bcrypt(cost: nat, secret: string)

  /** The cost every handler passes to `hash`. */
  const HashCost: nat := 10

  /** `bcrypt::hash(password, 10)`. */
  function Hash(password: string): (h: PasswordHash)
    ensures h.cost == HashCost
    ensures Verify(password, h)
  {
    Bcrypt(HashCost, password)
  }

  /** `bcrypt::verify(password, digest)`, as the login endpoint uses it. */
  predicate Verify(password: string, digest: PasswordHash) {
    digest.secret == password
  }

  /** A password verifies against the hash of another password only if they are equal. */
  lemma VerifyHashExactly(attempt: string, password: string)
    ensures Verify(attempt, Hash(password)) <==> attempt == password
  {
  }

  datatype UserRow = UserRow(username: string, password: PasswordHash, createdAt: int, updatedAt: int)

  datatype LanguageRow = LanguageRow(name: string, abbreviation: string)

  datatype DeckRow = DeckRow(name: string, owner: int, language: int)

  datatype BackRow = BackRow(text: string, language: int, audio: Option<string>, image: Option<string>)

  datatype CardRow = CardRow(createdAt: int, front: string, back: int, deck: int, link: Option<string>)

  /** `value` is the SmallInt column written by `Query.ToSql`. */
  datatype ScoreRow = ScoreRow(createdAt: int, card: int, value: int)

  datatype SetCardRow = SetCardRow(cardId: int, setId: int)

  datatype SetRow = SetRow(createdAt: int, name: string, deck: int, owner: int)
}
