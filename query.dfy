/**
 * The read-side entities of the GraphQL schema (src/graphql/query.rs): the
 * `ScoreValue` enumeration with its small-integer column encoding, and the
 * record each handler returns after re-reading the rows it wrote.
 *
 * Ids are Int4 columns and timestamps Int8 columns holding epoch milliseconds;
 * both are unbounded integers here.
 */
module Query {
  import opened Wrappers

  /** A study score, stored in a SmallInt column as its discriminant. */
  datatype ScoreValue = ZERO | ONE | TWO | THREE | FOUR | FIVE

  /** `to_sql`: the enum's discriminant, cast to `i16`. */
  function ToSql(v: ScoreValue): (n: int)
    ensures 0 <= n <= 5
    ensures n == 0 <==> v == ZERO
    ensures n == 5 <==> v == FIVE
  {
    match v
    case ZERO => 0
    case ONE => 1
    case TWO => 2
    case THREE => 3
    case FOUR => 4
    case FIVE => 5
  }

  /** `from_sql`: the variant whose discriminant is `n`. Any other value reaches
      `unreachable!()` in the source, so callers must supply one of 0..5. */
  function FromSql(n: int): (v: ScoreValue)
    requires 0 <= n <= 5
    ensures ToSql(v) == n
  {
    match n
    case 0 => ZERO
    case 1 => ONE
    case 2 => TWO
    case 3 => THREE
    case 4 => FOUR
    case 5 => FIVE
  }

  /** Writing a score and reading it back yields the same score. */
  lemma {:induction false} ScoreRoundTrip(v: ScoreValue)
    ensures FromSql(ToSql(v)) == v
  {
    match v
    case ZERO =>
    case ONE =>
    case TWO =>
    case THREE =>
    case FOUR =>
    case FIVE =>
  }

  /** The encoding is one-to-one: different scores occupy different column values. */
  lemma ToSqlInjective(a: ScoreValue, b: ScoreValue)
    requires ToSql(a) == ToSql(b)
    ensures a == b
  {
    ScoreRoundTrip(a);
    ScoreRoundTrip(b);
  }

  // The records a handler returns (`User`, `Deck`, ... in query.rs). The
  // `HasMany` relations (a card's sets and scores, a set's cards) are loaded by
  // the read path and are not part of these records.

  /** A user as the schema exposes it: the password column is not readable. */
  datatype User = User(id: int, username: string, createdAt: int, updatedAt: int)

  datatype Language = Language(id: int, name: string, abbreviation: string)

  datatype Deck = Deck(id: int, name: string, owner: int, language: int)

  datatype Card = Card(id: int, createdAt: int, front: string, back: int, deck: int, link: Option<string>)

  datatype Score = Score(id: int, createdAt: int, card: int, value: ScoreValue)

  datatype Back = Back(id: int, text: string, language: int, audio: Option<string>, image: Option<string>)

  datatype Set = Set(id: int, createdAt: int, name: string, deck: int, owner: int)

  datatype SetCard = SetCard(id: int, cardId: int, setId: int)
}
