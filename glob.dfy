/** Glob patterns. Compiling and matching belong to a foreign glob
    library, so they enter the model as a `GlobEngine`. */
module Glob {
  /** `compiles(p)`: `glob.Compile(p)` succeeds; `matches(p, s)`: the
      compiled pattern `p` matches `s`. */
  datatype GlobEngine = GlobEngine(compiles: string -> bool, matches: (string, string) -> bool)
}
