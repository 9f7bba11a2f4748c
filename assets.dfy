/**
 * The asset cache (src/graphql/mutations/utilities.rs): pronunciation audio and
 * an illustrative image for a card's back, stored under a path that depends
 * only on the language abbreviation and the sanitized word, and fetched from
 * the network only when that path does not exist yet.
 *
 * The file tree is a map from path to entry (directory or file) and the network
 * is an oracle: `Env` says what each URL returns, how a page parses and which
 * file-system calls fail. Every URL fetched is appended to `Host.requests`.
 */
module Assets {
  import opened Wrappers
  import opened Errors

  type Bytes = seq<bv8>

  /** An element of a parsed HTML document, in document order. */
  datatype Element = Element(name: string, attrs: map<string, string>)

  /** What lies outside the process: foreign functions and the answers of the
      network and the file system. */
  datatype Env = Env(
    sanitize: string -> string,                     // `sanitize_filename::sanitize`
    ttsUrl: (string, string) -> string,             // `google_translate_tts::url(word, abbr)`
    fetch: string -> Result<Bytes, string>,         // `reqwest::get(url)` and reading its body
    parse: Bytes -> Result<seq<Element>, string>,   // `Document::from_read` (an `io::Error` on failure)
    createDirFault: string -> Option<string>,       // an I/O error `create_dir(path)` would meet
    createFault: string -> Option<string>,          // an I/O error `File::create(path)` would meet
    copyFault: string -> Option<string>)            // an I/O error `copy(source, dest)` would meet

  datatype Entry = Dir | File(contents: Bytes)

  const StaticRoot: string := "./static"
  const ImagesRoot: string := "./static/images"
  const AudioRoot: string := "./static/audio"

  const NotFoundMessage: string := "No such file or directory (os error 2)"
  const NotADirectoryMessage: string := "Not a directory (os error 20)"
  const NoImageMessage: string := "Failed to find first image in document"

  function ImageDir(abbr: string): string { ImagesRoot + "/" + abbr }

  /** `./static/images/{abbr}/{sanitized}.jpg` */
  function ImagePath(abbr: string, sanitized: string): string { ImageDir(abbr) + "/" + sanitized + ".jpg" }

  function AudioDir(abbr: string): string { AudioRoot + "/" + abbr }

  /** `./static/audio/{abbr}/{sanitized}.mp3` */
  function AudioPath(abbr: string, sanitized: string): string { AudioDir(abbr) + "/" + sanitized + ".mp3" }

  /** The `backs.image` column of a new card: the cached image, relative to the static root. */
  function ImageColumn(abbr: string, sanitized: string): (c: string)
    ensures StaticRoot + "/" + c == ImagePath(abbr, sanitized)
  {
    "images/" + abbr + "/" + sanitized + ".jpg"
  }

  /** The `backs.audio` column of a new card: the cached audio, relative to the static root. */
  function AudioColumn(abbr: string, sanitized: string): (c: string)
    ensures StaticRoot + "/" + c == AudioPath(abbr, sanitized)
  {
    "audio/" + abbr + "/" + sanitized + ".mp3"
  }

  /** A cache file lies strictly inside its language directory, so the two paths differ. */
  lemma PathBelowDir(dir: string, sanitized: string, ext: string)
    ensures |dir + "/" + sanitized + ext| > |dir|
  {
  }

  function SearchUrl(word: string): string {
    "https://www.google.com/search?q=" + word + "&tbm=isch&tbs=ift:jpg"
  }

  /** An element the selector `And(Attr("alt", ""), Name("img"))` matches and that has a `src`. */
  predicate IsImageResult(e: Element) {
    e.name == "img" && "alt" in e.attrs && e.attrs["alt"] == "" && "src" in e.attrs
  }

  /** `find(..).filter_map(|n| n.attr("src")).nth(0)`: the `src` of the first matching element. */
  function FirstImageSrc(doc: seq<Element>): (r: Option<string>)
    ensures r.None? <==> forall i :: 0 <= i < |doc| ==> !IsImageResult(doc[i])
    ensures r.Some? ==> exists i :: 0 <= i < |doc| && IsImageResult(doc[i]) && doc[i].attrs["src"] == r.value
                          && forall j :: 0 <= j < i ==> !IsImageResult(doc[j])
  {
    if doc == [] then None
    else if IsImageResult(doc[0]) then Some(doc[0].attrs["src"])
    else
      var r := FirstImageSrc(doc[1..]);
      assert forall i :: 1 <= i < |doc| ==> doc[i] == doc[1..][i - 1];
      r
  }

  // ---- The outcome of one resolution, as functions of the state before it ----

  /** The result of a resolver and the file tree it leaves behind. */
  datatype Cached = Cached(result: Result<(), TRCError>, entries: map<string, Entry>)

  /** `create_dir(dir)`: fails with ENOENT when the parent is missing and with ENOTDIR when it is
      a regular file; otherwise it may fail with an injected fault. */
  function MakeDir(entries: map<string, Entry>, env: Env, parent: string, dir: string): Result<map<string, Entry>, TRCError> {
    if parent !in entries then Err(FromIoError(NotFoundMessage))
    else if !entries[parent].Dir? then Err(FromIoError(NotADirectoryMessage))
    else if env.createDirFault(dir).Some? then Err(FromIoError(env.createDirFault(dir).value))
    else Ok(entries[dir := Dir])
  }

  /** `File::create(path)` inside `dir`: makes an empty file; needs `dir` to be a directory. */
  function CreateEmpty(entries: map<string, Entry>, env: Env, dir: string, path: string): Result<map<string, Entry>, TRCError> {
    if !(dir in entries && entries[dir].Dir?) then Err(FromIoError(NotADirectoryMessage))
    else if env.createFault(path).Some? then Err(FromIoError(env.createFault(path).value))
    else Ok(entries[path := File([])])
  }

  /** `copy(source, dest)`: on failure the created file stays. A real copy may have written part
      of the bytes before failing; the model keeps the file empty, since only its existence
      matters to later lookups. */
  function CopyInto(entries: map<string, Entry>, env: Env, path: string, bytes: Bytes): Cached {
    if env.copyFault(path).Some? then Cached(Err(FromIoError(env.copyFault(path).value)), entries)
    else Cached(Ok(()), entries[path := File(bytes)])
  }

  /** The write half of a miss: create the language directory only when it is absent, then
      create the file and copy the fetched bytes into it. */
  function SaveToCache(entries: map<string, Entry>, env: Env, root: string, dir: string, path: string, bytes: Bytes): Cached {
    var made := if dir in entries then Ok(entries) else MakeDir(entries, env, root, dir);
    match made
    case Err(e) => Cached(Err(e), entries)
    case Ok(withDir) =>
      match CreateEmpty(withDir, env, dir, path)
      case Err(e) => Cached(Err(e), withDir)
      case Ok(withFile) => CopyInto(withFile, env, path, bytes)
  }

  /** The fetch half of an image miss: search, parse, select the first result, fetch it. */
  function ImageSource(env: Env, word: string): Result<Bytes, TRCError> {
    match env.fetch(SearchUrl(word))
    case Err(m) => Err(FromRequestError(m))
    case Ok(page) =>
      match env.parse(page)
      case Err(m) => Err(FromIoError(m))
      case Ok(doc) =>
        match FirstImageSrc(doc)
        case None => Err(Unknown(NoImageMessage))
        case Some(src) =>
          match env.fetch(src)
          case Err(m) => Err(FromRequestError(m))
          case Ok(bytes) => Ok(bytes)
  }

  /** The URLs an image miss requests: the search page, then the first result if one was found. */
  function ImageRequests(env: Env, word: string): seq<string> {
    [SearchUrl(word)] +
    match env.fetch(SearchUrl(word))
    case Err(_) => []
    case Ok(page) =>
      match env.parse(page)
      case Err(_) => []
      case Ok(doc) =>
        match FirstImageSrc(doc)
        case None => []
        case Some(src) => [src]
  }

  function ImageOutcome(entries: map<string, Entry>, env: Env, abbr: string, word: string, sanitized: string): Cached {
    if ImagePath(abbr, sanitized) in entries then Cached(Ok(()), entries)
    else
      match ImageSource(env, word)
      case Err(e) => Cached(Err(e), entries)
      case Ok(bytes) => SaveToCache(entries, env, ImagesRoot, ImageDir(abbr), ImagePath(abbr, sanitized), bytes)
  }

  function ImageTraffic(entries: map<string, Entry>, env: Env, abbr: string, word: string, sanitized: string): seq<string> {
    if ImagePath(abbr, sanitized) in entries then [] else ImageRequests(env, word)
  }

  /** The fetch half of an audio miss: one request to the text-to-speech URL. */
  function AudioSource(env: Env, abbr: string, word: string): Result<Bytes, TRCError> {
    match env.fetch(env.ttsUrl(word, abbr))
    case Err(m) => Err(FromRequestError(m))
    case Ok(bytes) => Ok(bytes)
  }

  function AudioOutcome(entries: map<string, Entry>, env: Env, abbr: string, word: string, sanitized: string): Cached {
    if AudioPath(abbr, sanitized) in entries then Cached(Ok(()), entries)
    else
      match AudioSource(env, abbr, word)
      case Err(e) => Cached(Err(e), entries)
      case Ok(bytes) => SaveToCache(entries, env, AudioRoot, AudioDir(abbr), AudioPath(abbr, sanitized), bytes)
  }

  function AudioTraffic(entries: map<string, Entry>, env: Env, abbr: string, word: string, sanitized: string): seq<string> {
    if AudioPath(abbr, sanitized) in entries then [] else [env.ttsUrl(word, abbr)]
  }

  // ---- What the cache promises ----

  /** `after` keeps every entry of `before` unchanged: the cache never overwrites or removes. */
  predicate Extends(before: map<string, Entry>, after: map<string, Entry>) {
    forall p :: p in before ==> p in after && after[p] == before[p]
  }

  lemma ExtendsTransitive(a: map<string, Entry>, b: map<string, Entry>, c: map<string, Entry>)
    requires Extends(a, b) && Extends(b, c)
    ensures Extends(a, c)
  {
  }

  /** The only entries `after` adds to `before` are `dir` and `path`. */
  predicate AddsOnly(before: map<string, Entry>, after: map<string, Entry>, dir: string, path: string) {
    forall p :: p in after && p !in before ==> p == dir || p == path
  }

  /** The write half of a miss keeps every existing entry, adds at most the directory and
      the file, reports only file-system errors, and on success leaves the bytes at `path`. */
  lemma SaveToCacheSound(entries: map<string, Entry>, env: Env, root: string, dir: string, path: string, bytes: Bytes)
    requires path !in entries && path != dir
    ensures var c := SaveToCache(entries, env, root, dir, path, bytes);
      Extends(entries, c.entries) && AddsOnly(entries, c.entries, dir, path)
      && (c.result.Ok? <==> path in c.entries && c.entries[path] == File(bytes) && env.copyFault(path).None?)
      && (c.result.Err? ==> c.result.error.FileSystem?)
  {
    var made := if dir in entries then Ok(entries) else MakeDir(entries, env, root, dir);
    if made.Ok? {
      var withDir := made.value;
      assert Extends(entries, withDir);
      var created := CreateEmpty(withDir, env, dir, path);
      if created.Ok? {
        assert created.value[path] == File([]);
      }
    }
  }

  /** A failed copy leaves the destination file in place, so the path exists afterwards. */
  lemma FailedCopyLeavesFile(entries: map<string, Entry>, env: Env, root: string, dir: string, path: string, bytes: Bytes)
    requires path !in entries && path != dir
    requires dir in entries && entries[dir].Dir? && env.createFault(path).None?
    requires env.copyFault(path).Some?
    ensures var c := SaveToCache(entries, env, root, dir, path, bytes);
      c.result == Err(FileSystem(env.copyFault(path).value)) && path in c.entries
  {
  }

  /** A cache root that is a regular file makes the first save into a new language directory
      fail with ENOTDIR, writing nothing. */
  lemma RootFileRefusesDir(entries: map<string, Entry>, env: Env, root: string, dir: string, path: string, bytes: Bytes)
    requires dir !in entries && root in entries && entries[root].File?
    ensures SaveToCache(entries, env, root, dir, path, bytes) == Cached(Err(FileSystem(NotADirectoryMessage)), entries)
  {
  }

  /** Resolving an image keeps every existing entry, adds at most its directory and file,
      never fails with `Unauthorized`, and on success the cached file exists. */
  lemma ImageOutcomeSound(entries: map<string, Entry>, env: Env, abbr: string, word: string, sanitized: string)
    ensures var c := ImageOutcome(entries, env, abbr, word, sanitized);
      Extends(entries, c.entries) && AddsOnly(entries, c.entries, ImageDir(abbr), ImagePath(abbr, sanitized))
      && (c.result.Ok? ==> ImagePath(abbr, sanitized) in c.entries)
      && (c.result.Err? ==> !c.result.error.Unauthorized?)
  {
    var path := ImagePath(abbr, sanitized);
    if path !in entries && ImageSource(env, word).Ok? {
      PathBelowDir(ImageDir(abbr), sanitized, ".jpg");
      SaveToCacheSound(entries, env, ImagesRoot, ImageDir(abbr), path, ImageSource(env, word).value);
    }
  }

  lemma AudioOutcomeSound(entries: map<string, Entry>, env: Env, abbr: string, word: string, sanitized: string)
    ensures var c := AudioOutcome(entries, env, abbr, word, sanitized);
      Extends(entries, c.entries) && AddsOnly(entries, c.entries, AudioDir(abbr), AudioPath(abbr, sanitized))
      && (c.result.Ok? ==> AudioPath(abbr, sanitized) in c.entries)
      && (c.result.Err? ==> !c.result.error.Unauthorized?)
  {
    var path := AudioPath(abbr, sanitized);
    if path !in entries && AudioSource(env, abbr, word).Ok? {
      PathBelowDir(AudioDir(abbr), sanitized, ".mp3");
      SaveToCacheSound(entries, env, AudioRoot, AudioDir(abbr), path, AudioSource(env, abbr, word).value);
    }
  }

  /** Idempotence: once an image resolution succeeds, resolving the same (abbr, sanitized)
      again, with any word, is a cache hit that fetches nothing and changes nothing. */
  lemma ImageResolutionIdempotent(entries: map<string, Entry>, env: Env, abbr: string, word: string, again: string, sanitized: string)
    ensures var c := ImageOutcome(entries, env, abbr, word, sanitized);
      c.result.Ok? ==>
        ImageOutcome(c.entries, env, abbr, again, sanitized) == Cached(Ok(()), c.entries)
        && ImageTraffic(c.entries, env, abbr, again, sanitized) == []
  {
    ImageOutcomeSound(entries, env, abbr, word, sanitized);
  }

  lemma AudioResolutionIdempotent(entries: map<string, Entry>, env: Env, abbr: string, word: string, again: string, sanitized: string)
    ensures var c := AudioOutcome(entries, env, abbr, word, sanitized);
      c.result.Ok? ==>
        AudioOutcome(c.entries, env, abbr, again, sanitized) == Cached(Ok(()), c.entries)
        && AudioTraffic(c.entries, env, abbr, again, sanitized) == []
  {
    AudioOutcomeSound(entries, env, abbr, word, sanitized);
  }

  /** A search page without an `<img alt="">` carrying a `src` makes the image resolver fail
      with the fixed unknown-error message, after one request and without writing anything. */
  lemma NoImageResult(entries: map<string, Entry>, env: Env, abbr: string, word: string, sanitized: string)
    requires ImagePath(abbr, sanitized) !in entries
    requires env.fetch(SearchUrl(word)).Ok? && env.parse(env.fetch(SearchUrl(word)).value).Ok?
    requires var doc := env.parse(env.fetch(SearchUrl(word)).value).value;
      forall i :: 0 <= i < |doc| ==> !IsImageResult(doc[i])
    ensures ImageOutcome(entries, env, abbr, word, sanitized) == Cached(Err(Unknown(NoImageMessage)), entries)
    ensures ImageTraffic(entries, env, abbr, word, sanitized) == [SearchUrl(word)]
  {
  }

  /** The file tree and the network as the resolvers use them. */
  class Host {
    var entries: map<string, Entry>
    var requests: seq<string>

    constructor (initial: map<string, Entry>)
      ensures entries == initial && requests == []
    {
      entries := initial;
      requests := [];
    }

    /** `reqwest::get(url)`: one request, recorded; a failure becomes `TRCError::Request`. */
    method Get(env: Env, url: string) returns (r: Result<Bytes, TRCError>)
      modifies this`requests
      ensures requests == old(requests) + [url]
      ensures env.fetch(url).Ok? ==> r == Ok(env.fetch(url).value)
      ensures env.fetch(url).Err? ==> r == Err(FromRequestError(env.fetch(url).error))
    {
      requests := requests + [url];
      var got := env.fetch(url);
      match got
      case Ok(bytes) => r := Ok(bytes);
      case Err(m) => r := Err(FromRequestError(m));
    }

    /** `Path::new(parent/dir)` is absent: `create_dir(dir)`. */
    method CreateDir(env: Env, parent: string, dir: string) returns (r: Result<(), TRCError>)
      modifies this`entries
      ensures MakeDir(old(entries), env, parent, dir).Ok? ==> r.Ok? && entries == MakeDir(old(entries), env, parent, dir).value
      ensures MakeDir(old(entries), env, parent, dir).Err? ==> r == Err(MakeDir(old(entries), env, parent, dir).error) && entries == old(entries)
    {
      if parent !in entries {
        return Err(FromIoError(NotFoundMessage));
      }
      if !entries[parent].Dir? {
        return Err(FromIoError(NotADirectoryMessage));
      }
      var fault := env.createDirFault(dir);
      if fault.Some? {
        return Err(FromIoError(fault.value));
      }
      entries := entries[dir := Dir];
      r := Ok(());
    }

    /** `File::create(path)`. */
    method Create(env: Env, dir: string, path: string) returns (r: Result<(), TRCError>)
      modifies this`entries
      ensures CreateEmpty(old(entries), env, dir, path).Ok? ==> r.Ok? && entries == CreateEmpty(old(entries), env, dir, path).value
      ensures CreateEmpty(old(entries), env, dir, path).Err? ==> r == Err(CreateEmpty(old(entries), env, dir, path).error) && entries == old(entries)
    {
      if !(dir in entries && entries[dir].Dir?) {
        return Err(FromIoError(NotADirectoryMessage));
      }
      var fault := env.createFault(path);
      if fault.Some? {
        return Err(FromIoError(fault.value));
      }
      entries := entries[path := File([])];
      r := Ok(());
    }

    /** `copy(&mut source, &mut dest)` into the file just created. */
    method Copy(env: Env, path: string, bytes: Bytes) returns (r: Result<(), TRCError>)
      modifies this`entries
      ensures Cached(r, entries) == CopyInto(old(entries), env, path, bytes)
    {
      var fault := env.copyFault(path);
      if fault.Some? {
        return Err(FromIoError(fault.value));
      }
      entries := entries[path := File(bytes)];
      r := Ok(());
    }
  }

  /** `get_image_from_google`. */
  method GetImageFromGoogle(host: Host, env: Env, abbr: string, word: string, sanitized: string)
    returns (r: Result<(), TRCError>)
    modifies host
    ensures Cached(r, host.entries) == ImageOutcome(old(host.entries), env, abbr, word, sanitized)
    ensures host.requests == old(host.requests) + ImageTraffic(old(host.entries), env, abbr, word, sanitized)
  {
    var path := ImagePath(abbr, sanitized);
    if path in host.entries {
      return Ok(());
    }
    var page := host.Get(env, SearchUrl(word));
    if page.Err? {
      return Err(page.error);
    }
    var doc := env.parse(page.value);
    if doc.Err? {
      return Err(FromIoError(doc.error));
    }
    var src := FirstImageSrc(doc.value);
    if src.None? {
      return Err(Unknown(NoImageMessage));
    }
    var source := host.Get(env, src.value);
    if source.Err? {
      return Err(source.error);
    }
    var dir := ImageDir(abbr);
    if dir !in host.entries {
      var made := host.CreateDir(env, ImagesRoot, dir);
      if made.Err? {
        return made;
      }
    }
    var created := host.Create(env, dir, path);
    if created.Err? {
      return created;
    }
    r := host.Copy(env, path, source.value);
  }

  /** `get_audio_from_google`. */
  method GetAudioFromGoogle(host: Host, env: Env, abbr: string, word: string, sanitized: string)
    returns (r: Result<(), TRCError>)
    modifies host
    ensures Cached(r, host.entries) == AudioOutcome(old(host.entries), env, abbr, word, sanitized)
    ensures host.requests == old(host.requests) + AudioTraffic(old(host.entries), env, abbr, word, sanitized)
  {
    var path := AudioPath(abbr, sanitized);
    if path in host.entries {
      return Ok(());
    }
    var url := env.ttsUrl(word, abbr);
    var source := host.Get(env, url);
    if source.Err? {
      return Err(source.error);
    }
    var dir := AudioDir(abbr);
    if dir !in host.entries {
      var made := host.CreateDir(env, AudioRoot, dir);
      if made.Err? {
        return made;
      }
    }
    var created := host.Create(env, dir, path);
    if created.Err? {
      return created;
    }
    r := host.Copy(env, path, source.value);
  }
}
