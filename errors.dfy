/**
 * The crate's error type `TRCError` (src/lib.rs) and the GraphQL error value
 * (`juniper::FieldError`) that every mutation handler returns on failure.
 *
 * The wrapped `reqwest::Error` and `std::io::Error` values are represented by
 * their display text: that text is all the crate ever does with them.
 */
module Errors {
  import opened Wrappers

  datatype TRCError =
    | Request(err: string)      // a failed HTTP request (`reqwest::Error`)
    | FileSystem(err: string)   // a failed file-system call (`std::io::Error`)
    | Unauthorized
    | Unknown(msg: string)

  const RequestPrefix: string := "Request error: "
  const FileSystemPrefix: string := "File system error: "
  const UnknownPrefix: string := "Unknown error: "
  const UnauthorizedText: string := "Unauthorized"

  /** The `Display` text of an error: a fixed text for `Unauthorized`, otherwise
      a per-variant prefix followed by the inner message. */
  function Display(e: TRCError): (s: string)
    ensures e.Unauthorized? <==> s == UnauthorizedText
    ensures e.Request? ==> RequestPrefix <= s && s[|RequestPrefix|..] == e.err
    ensures e.FileSystem? ==> FileSystemPrefix <= s && s[|FileSystemPrefix|..] == e.err
    ensures e.Unknown? ==> UnknownPrefix <= s && s[|UnknownPrefix|..] == e.msg
  {
    match e
    case Request(err) => RequestPrefix + err
    case FileSystem(err) => FileSystemPrefix + err
    case Unauthorized => UnauthorizedText
    case Unknown(msg) => UnknownPrefix + msg
  }

  /** Two different errors never display the same text: the prefixes differ in
      their first characters, and the inner message follows the prefix verbatim. */
  lemma DisplayInjective(a: TRCError, b: TRCError)
    requires Display(a) == Display(b)
    ensures a == b
  {
    var s := Display(a);
    match a
    case Request(_) => assert s[0] == 'R';
    case FileSystem(_) => assert s[0] == 'F';
    case Unauthorized =>
    case Unknown(_) => assert s[0] == 'U' && s[2] == 'k';
  }

  /** `Error::cause`: the wrapped lower-level error, present exactly for the two
      wrapping variants; the display text is its prefix followed by the cause. */
  function Cause(e: TRCError): (c: Option<string>)
    ensures c.Some? <==> e.Request? || e.FileSystem?
    ensures e.Request? && c.Some? ==> Display(e) == RequestPrefix + c.value
    ensures e.FileSystem? && c.Some? ==> Display(e) == FileSystemPrefix + c.value
  {
    match e
    case Request(err) => Some(err)
    case FileSystem(err) => Some(err)
    case _ => None
  }

  /** `From<std::io::Error>`: an I/O error becomes a file-system error whose cause is that error. */
  function FromIoError(err: string): (e: TRCError)
    ensures e.FileSystem? && Cause(e) == Some(err)
  {
    FileSystem(err)
  }

  /** `From<reqwest::Error>`: a request error becomes a `Request` error whose cause is that error. */
  function FromRequestError(err: string): (e: TRCError)
    ensures e.Request? && Cause(e) == Some(err)
  {
    Request(err)
  }

  /** A GraphQL field error: a message and the optional `"type"` tag of its extensions. */
  datatype FieldError = FieldError(message: string, errorType: Option<string>)

  const UnauthorizedTag: string := "UNAUTHORIZED"
  const InternalTag: string := "INTERNAL"

  /** The error the non-card handlers build by hand when the caller is missing or is not the owner. */
  function UnauthorizedError(message: string): FieldError {
    FieldError(message, Some(UnauthorizedTag))
  }

  /** `From<TRCError> for ExecutionResult`: every crate error surfaces tagged INTERNAL, carrying
      its display text, so no two crate errors surface alike and none looks like a hand-built
      UNAUTHORIZED error. */
  function IntoFieldError(e: TRCError): (f: FieldError)
    ensures f.errorType == Some(InternalTag)
    ensures forall m :: f != UnauthorizedError(m)
    ensures e.Unauthorized? ==> f.message == UnauthorizedText
  {
    FieldError(Display(e), Some(InternalTag))
  }

  lemma IntoFieldErrorInjective(a: TRCError, b: TRCError)
    requires IntoFieldError(a) == IntoFieldError(b)
    ensures a == b
  {
    assert Display(a) == IntoFieldError(a).message;
    DisplayInjective(a, b);
  }

  /** The `?` operator applied to a `TRCError` inside a handler: the GraphQL library turns any
      displayable error into a field error with that text and no type tag. */
  function Propagate(e: TRCError): (f: FieldError)
    ensures f.errorType.None? && f.message == Display(e)
    ensures f != IntoFieldError(e)
  {
    FieldError(Display(e), None)
  }

  /** The error of a `get_result` that finds no row (the database library's own `NotFound`). */
  const RecordNotFound: FieldError := FieldError("NotFound", None)
}
