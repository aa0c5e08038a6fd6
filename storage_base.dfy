/** The `StorageProvider` interface over the two base providers: a
    directory through afero, or a Google Cloud Storage bucket. */
module BaseProvider {
  import opened Wrappers
  import opened Io
  import Afero
  import GcsBucket

  /** The state behind a base provider. */
  datatype BaseState = AferoBase(afero: Afero.AferoState) | GcsBase(gcs: GcsBucket.GcsState)
  {
    ghost predicate Valid()
    {
      match this
      case AferoBase(s) => s.dir.Valid()
      case GcsBase(s) => s.Valid()
    }
  }

  function Unprocessed(s: BaseState): (seq<string>, MaybeError)
  {
    match s
    case AferoBase(a) => Afero.Unprocessed(a)
    case GcsBase(g) => GcsBucket.Unprocessed(g)
  }

  function Opened(s: BaseState, path: string): Result<Reader, Error>
  {
    match s
    case AferoBase(a) => Afero.Opened(a, path)
    case GcsBase(g) => GcsBucket.Opened(g, path)
  }

  function Removed(s: BaseState, path: string): (BaseState, MaybeError)
  {
    match s
    case AferoBase(a) => var (t, e) := Afero.Removed(a, path); (AferoBase(t), e)
    case GcsBase(g) => var (t, e) := GcsBucket.Removed(g, path); (GcsBase(t), e)
  }

  function Lookup(s: BaseState, path: string): (bool, MaybeError)
  {
    match s
    case AferoBase(a) => Afero.Lookup(a, path)
    case GcsBase(g) => GcsBucket.Lookup(g, path)
  }

  function Marked(s: BaseState, path: string): (BaseState, MaybeError)
  {
    match s
    case AferoBase(a) => var (t, e) := Afero.Marked(a, path); (AferoBase(t), e)
    case GcsBase(g) => var (t, e) := GcsBucket.Marked(g, path); (GcsBase(t), e)
  }

  /** For either provider, a successful `MarkProcessed` makes the path read
      as processed and keeps it out of the next listing. */
  lemma MarkHides(s: BaseState, path: string)
    requires s.Valid() && Marked(s, path).1.None?
    ensures Marked(s, path).0.Valid()
    ensures Lookup(Marked(s, path).0, path) == (true, None)
    ensures path !in Unprocessed(Marked(s, path).0).0
  {
    match s
    case AferoBase(a) =>
      Afero.MarkHides(a, path);
    case GcsBase(g) =>
      GcsBucket.MarkKeepsMetadata(g, path);
      GcsBucket.MarkHides(g, path);
  }

  /** Neither provider's listing names a path twice. */
  lemma ListDistinct(s: BaseState)
    requires s.Valid()
    ensures NoDuplicates(Unprocessed(s).0)
  {
    match s
    case AferoBase(a) => Afero.ListDistinct(a);
    case GcsBase(g) => GcsBucket.ListDistinct(g);
  }

  /** Both providers stay well formed under `Remove`. */
  lemma RemoveKeepsValid(s: BaseState, path: string)
    requires s.Valid()
    ensures Removed(s, path).0.Valid()
  {
    match s
    case AferoBase(a) =>
      Afero.RemoveKeepsDirectory(a, path);
    case GcsBase(g) =>
  }

  /** A base provider object. */
  datatype Provider = AferoProvider(afero: Afero.AferoStorageProvider) | GcsProvider(gcs: GcsBucket.GcsStorageProvider)
  {
    ghost function Repr(): set<object>
    {
      match this
      case AferoProvider(p) => {p}
      case GcsProvider(p) => {p}
    }

    ghost predicate Valid()
      reads Repr()
    {
      match this
      case AferoProvider(p) => p.Valid()
      case GcsProvider(p) => p.Valid()
    }

    ghost function State(): BaseState
      reads Repr()
    {
      match this
      case AferoProvider(p) => AferoBase(p.State())
      case GcsProvider(p) => GcsBase(p.State())
    }

    lemma ValidState()
      requires Valid()
      ensures State().Valid()
    {
    }

    method ListUnprocessed() returns (files: seq<string>, err: MaybeError)
      ensures (files, err) == Unprocessed(State())
    {
      match this
      case AferoProvider(p) => files, err := p.ListUnprocessed();
      case GcsProvider(p) => files, err := p.ListUnprocessed();
    }

    method Read(path: string) returns (r: Result<Reader, Error>)
      ensures r == Opened(State(), path)
    {
      match this
      case AferoProvider(p) => r := p.Read(path);
      case GcsProvider(p) => r := p.Read(path);
    }

    method Remove(path: string) returns (err: MaybeError)
      requires Valid()
      modifies Repr()
      ensures Valid()
      ensures (State(), err) == Removed(old(State()), path)
    {
      match this
      case AferoProvider(p) => err := p.Remove(path);
      case GcsProvider(p) => err := p.Remove(path);
    }

    method WasProcessed(path: string) returns (processed: bool, err: MaybeError)
      ensures (processed, err) == Lookup(State(), path)
    {
      match this
      case AferoProvider(p) => processed, err := p.WasProcessed(path);
      case GcsProvider(p) => processed, err := p.WasProcessed(path);
    }

    method MarkProcessed(path: string) returns (err: MaybeError)
      requires Valid()
      modifies Repr()
      ensures Valid()
      ensures (State(), err) == Marked(old(State()), path)
    {
      match this
      case AferoProvider(p) => err := p.MarkProcessed(path);
      case GcsProvider(p) => err := p.MarkProcessed(path);
    }
  }
}
