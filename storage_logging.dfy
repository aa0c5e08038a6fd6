/** The logging decorator: logs each call and passes it, and its answer,
    through unchanged. */
module Logging {
  import opened Wrappers
  import opened Io
  import BaseProvider
  import LocalProcessed

  /** The state behind the provider the decorator wraps: a base provider
      alone, or a base provider under the local-processed middleware. */
  datatype InnerState = Plain(base: BaseProvider.BaseState) | Tracked(local: LocalProcessed.LocalState)

  function Unprocessed(s: InnerState): (seq<string>, MaybeError)
  {
    match s
    case Plain(b) => BaseProvider.Unprocessed(b)
    case Tracked(l) => LocalProcessed.Unprocessed(l)
  }

  function Opened(s: InnerState, path: string): Result<Reader, Error>
  {
    match s
    case Plain(b) => BaseProvider.Opened(b, path)
    case Tracked(l) => LocalProcessed.Opened(l, path)
  }

  function Removed(s: InnerState, path: string): (InnerState, MaybeError)
  {
    match s
    case Plain(b) => var (t, e) := BaseProvider.Removed(b, path); (Plain(t), e)
    case Tracked(l) => var (t, e) := LocalProcessed.Removed(l, path); (Tracked(t), e)
  }

  function Lookup(s: InnerState, path: string): (bool, MaybeError)
  {
    match s
    case Plain(b) => BaseProvider.Lookup(b, path)
    case Tracked(l) => LocalProcessed.Lookup(l, path)
  }

  function Marked(s: InnerState, path: string): (InnerState, MaybeError)
  {
    match s
    case Plain(b) => var (t, e) := BaseProvider.Marked(b, path); (Plain(t), e)
    case Tracked(l) => var (t, e) := LocalProcessed.Marked(l, path); (Tracked(t), e)
  }

  ghost predicate ValidState(s: InnerState)
  {
    match s
    case Plain(b) => b.Valid()
    case Tracked(l) => l.inner.Valid()
  }

  /** Whatever the layering, a successful `MarkProcessed` keeps the path
      out of the next listing and makes it read as processed. */
  lemma MarkHides(s: InnerState, path: string)
    requires ValidState(s) && Marked(s, path).1.None?
    ensures Lookup(Marked(s, path).0, path) == (true, None)
    ensures path !in Unprocessed(Marked(s, path).0).0
  {
    match s
    case Plain(b) => BaseProvider.MarkHides(b, path);
    case Tracked(l) => LocalProcessed.MarkHides(l, path);
  }

  /** Whatever the layering, the listing never names a path twice. */
  lemma ListDistinct(s: InnerState)
    requires ValidState(s)
    ensures NoDuplicates(Unprocessed(s).0)
  {
    match s
    case Plain(b) => BaseProvider.ListDistinct(b);
    case Tracked(l) => LocalProcessed.ListDistinct(l);
  }

  /** The provider the decorator wraps. */
  datatype Wrapped =
    | BaseWrapped(base: BaseProvider.Provider)
    | LocalWrapped(local: LocalProcessed.LocalProcessedMiddleware)
  {
    ghost function Repr(): set<object>
    {
      match this
      case BaseWrapped(b) => b.Repr()
      case LocalWrapped(l) => l.Repr()
    }

    ghost predicate Valid()
      reads Repr()
    {
      match this
      case BaseWrapped(b) => b.Valid()
      case LocalWrapped(l) => l.Valid()
    }

    ghost function State(): InnerState
      reads Repr()
    {
      match this
      case BaseWrapped(b) => Plain(b.State())
      case LocalWrapped(l) => Tracked(l.State())
    }

    method ListUnprocessed() returns (files: seq<string>, err: MaybeError)
      ensures (files, err) == Unprocessed(State())
    {
      match this
      case BaseWrapped(b) => files, err := b.ListUnprocessed();
      case LocalWrapped(l) => files, err := l.ListUnprocessed();
    }

    method Read(path: string) returns (r: Result<Reader, Error>)
      ensures r == Opened(State(), path)
    {
      match this
      case BaseWrapped(b) => r := b.Read(path);
      case LocalWrapped(l) => r := l.Read(path);
    }

    method Remove(path: string) returns (err: MaybeError)
      requires Valid()
      modifies Repr()
      ensures Valid()
      ensures (State(), err) == Removed(old(State()), path)
    {
      match this
      case BaseWrapped(b) => err := b.Remove(path);
      case LocalWrapped(l) => err := l.Remove(path);
    }

    method WasProcessed(path: string) returns (processed: bool, err: MaybeError)
      ensures (processed, err) == Lookup(State(), path)
    {
      match this
      case BaseWrapped(b) => processed, err := b.WasProcessed(path);
      case LocalWrapped(l) => processed, err := l.WasProcessed(path);
    }

    method MarkProcessed(path: string) returns (err: MaybeError)
      requires Valid()
      modifies Repr()
      ensures Valid()
      ensures (State(), err) == Marked(old(State()), path)
    {
      match this
      case BaseWrapped(b) => err := b.MarkProcessed(path);
      case LocalWrapped(l) => err := l.MarkProcessed(path);
    }
  }

  /** `loggingStorageProvider`: each method returns exactly what the
      wrapped provider returns, and changes exactly what it changes. */
  datatype LoggingStorageProvider = LoggingStorageProvider(wrapped: Wrapped)
  {
    ghost function Repr(): set<object>
      reads if wrapped.LocalWrapped? then {wrapped.local} else {}
    {
      wrapped.Repr()
    }

    ghost predicate Valid()
      reads Repr()
    {
      wrapped.Valid()
    }

    ghost function State(): InnerState
      reads Repr()
    {
      wrapped.State()
    }

    lemma ValidStateOf()
      requires Valid()
      ensures ValidState(State())
    {
    }

    method ListUnprocessed() returns (files: seq<string>, err: MaybeError)
      ensures (files, err) == Unprocessed(State())
    {
      files, err := wrapped.ListUnprocessed();
    }

    method Read(path: string) returns (r: Result<Reader, Error>)
      ensures r == Opened(State(), path)
    {
      r := wrapped.Read(path);
    }

    method Remove(path: string) returns (err: MaybeError)
      requires Valid()
      modifies Repr()
      ensures Valid()
      ensures (State(), err) == Removed(old(State()), path)
    {
      err := wrapped.Remove(path);
    }

    method WasProcessed(path: string) returns (processed: bool, err: MaybeError)
      ensures (processed, err) == Lookup(State(), path)
    {
      processed, err := wrapped.WasProcessed(path);
    }

    method MarkProcessed(path: string) returns (err: MaybeError)
      requires Valid()
      modifies Repr()
      ensures Valid()
      ensures (State(), err) == Marked(old(State()), path)
    {
      err := wrapped.MarkProcessed(path);
    }
  }
}
