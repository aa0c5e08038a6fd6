/** The listing filters shared by the storage providers: `FilterAndExplain`
    keeps the names a filter accepts, stopping at the first filter error. */
module Explain {
  import opened Wrappers

  /** A `Filter`: whether to keep a name, or the error that stops the scan. */
  type Filter = string -> (bool, MaybeError)

  /** The answer of `FilterAndExplain`: the names kept, in input order, up
      to the first name whose filter call fails, and that failure. */
  function Passed(files: seq<string>, filter: Filter): (seq<string>, MaybeError)
    decreases |files|
  {
    if files == [] then ([], None)
    else
      var verdict := filter(files[0]);
      if verdict.1.Some? then ([], verdict.1)
      else
        var rest := Passed(files[1..], filter);
        (if verdict.0 then [files[0]] + rest.0 else rest.0, rest.1)
  }

  /** The names that satisfy `p`, in order: the reference the filters are
      measured against. */
  function Keep(files: seq<string>, p: string -> bool): (r: seq<string>)
    ensures |r| <= |files|
    ensures forall x :: x in r <==> x in files && p(x)
    decreases |files|
  {
    if files == [] then []
    else if p(files[0]) then [files[0]] + Keep(files[1..], p)
    else Keep(files[1..], p)
  }

  /** Keeping is order preserving: the result is a subsequence. */
  lemma {:induction false} KeepIsSubsequence(files: seq<string>, p: string -> bool)
    ensures IsSubsequence(Keep(files, p), files)
    decreases |files|
  {
    if files != [] {
      KeepIsSubsequence(files[1..], p);
      if p(files[0]) {
        assert ([files[0]] + Keep(files[1..], p))[1..] == Keep(files[1..], p);
      } else {
        SubsequenceSkip(Keep(files[1..], p), files);
      }
    }
  }

  /** A predicate that holds throughout keeps everything. */
  lemma {:induction false} KeepAll(files: seq<string>, p: string -> bool)
    requires forall x :: x in files ==> p(x)
    ensures Keep(files, p) == files
    decreases |files|
  {
    if files != [] {
      KeepAll(files[1..], p);
    }
  }

  /** The filter never errors on any of `files`. */
  predicate ErrorFree(files: seq<string>, filter: Filter)
  {
    forall i :: 0 <= i < |files| ==> filter(files[i]).1.None?
  }

  /** The acceptance half of a filter. */
  function Accepts(filter: Filter): string -> bool
  {
    x => filter(x).0
  }

  /** `FilterAndExplain`: scans `files` in order, keeping the names the
      filter accepts; the first filter error ends the scan and is returned
      with the names kept so far. */
  method FilterAndExplain(filterName: string, files: seq<string>, filter: Filter)
    returns (filtered: seq<string>, err: MaybeError)
    ensures (filtered, err) == Passed(files, filter)
  {
    var out: seq<string> := [];
    var i := 0;
    assert files[0..] == files;
    while i < |files|
      invariant 0 <= i <= |files|
      invariant Passed(files, filter).0 == out + Passed(files[i..], filter).0
      invariant Passed(files, filter).1 == Passed(files[i..], filter).1
    {
      var filename := files[i];
      PassedStep(files, filter, i);
      var (shouldFilter, e) := filter(filename);
      if e.Some? {
        assert out + [] == out;
        return out, e;
      }
      if shouldFilter {
        out := out + [filename];
      }
      i := i + 1;
    }
    assert out + [] == out;
    return out, None;
  }

  /** One step of the scan: the answer from position `i` in terms of the
      name there and the answer from `i + 1`. */
  lemma PassedStep(files: seq<string>, filter: Filter, i: nat)
    requires i < |files|
    ensures filter(files[i]).1.Some? ==> Passed(files[i..], filter) == ([], filter(files[i]).1)
    ensures filter(files[i]).1.None? ==>
      Passed(files[i..], filter).0 ==
        (if filter(files[i]).0 then [files[i]] else []) + Passed(files[i + 1..], filter).0 &&
      Passed(files[i..], filter).1 == Passed(files[i + 1..], filter).1
  {
    assert files[i..][0] == files[i];
    assert files[i..][1..] == files[i + 1..];
  }

  /** `explainFoundFiles` only logs: the list comes back unchanged. */
  function ExplainFoundFiles(source: string, files: seq<string>): (r: seq<string>)
    ensures r == files
  {
    files
  }

  /** `InvertFilter`: the opposite decision, the same error. */
  function InvertFilter(filter: Filter): (inverted: Filter)
    ensures forall x :: inverted(x).0 == !filter(x).0 && inverted(x).1 == filter(x).1
  {
    x => (!filter(x).0, filter(x).1)
  }

  /** The names kept are always a subsequence of the input. */
  lemma {:induction false} PassedIsSubsequence(files: seq<string>, filter: Filter)
    ensures IsSubsequence(Passed(files, filter).0, files)
    decreases |files|
  {
    if files != [] && filter(files[0]).1.None? {
      PassedIsSubsequence(files[1..], filter);
      var rest := Passed(files[1..], filter).0;
      if filter(files[0]).0 {
        assert ([files[0]] + rest)[1..] == rest;
      } else {
        SubsequenceSkip(rest, files);
      }
    }
  }

  /** Without filter errors the output is exactly the accepted names, in
      input order, and no error. */
  lemma {:induction false} PassedWithoutErrors(files: seq<string>, filter: Filter)
    requires ErrorFree(files, filter)
    ensures Passed(files, filter) == (Keep(files, Accepts(filter)), None)
    decreases |files|
  {
    if files != [] {
      assert ErrorFree(files[1..], filter) by {
        forall i | 0 <= i < |files[1..]| ensures filter(files[1..][i]).1.None? {
          assert files[1..][i] == files[i + 1];
        }
      }
      PassedWithoutErrors(files[1..], filter);
    }
  }

  /** At the first failing name the scan stops: the output is what the names
      before it give, and the error is that name's; no later name is
      examined. */
  lemma {:induction false} PassedStopsAtError(files: seq<string>, filter: Filter, k: nat)
    requires k < |files| && filter(files[k]).1.Some?
    requires ErrorFree(files[..k], filter)
    ensures Passed(files, filter) == (Keep(files[..k], Accepts(filter)), filter(files[k]).1)
    decreases k
  {
    if k > 0 {
      assert files[1..][..k - 1] == files[..k][1..];
      assert files[1..][k - 1] == files[k];
      var t := files[1..][..k - 1];
      assert ErrorFree(t, filter) by {
        forall i | 0 <= i < |t| ensures filter(t[i]).1.None? {
          assert t[i] == files[..k][i + 1];
        }
      }
      assert filter(files[..k][0]).1.None?;
      PassedStopsAtError(files[1..], filter, k - 1);
    }
  }

  /** With an error-free filter, its inversion keeps exactly the names the
      filter rejects; together the two outputs account for every name. */
  lemma {:induction false} InvertKeepsRejected(files: seq<string>, filter: Filter)
    requires ErrorFree(files, filter)
    ensures ErrorFree(files, InvertFilter(filter))
    ensures Passed(files, InvertFilter(filter)) == (Keep(files, x => !filter(x).0), None)
    ensures |Passed(files, filter).0| + |Passed(files, InvertFilter(filter)).0| == |files|
    decreases |files|
  {
    PassedWithoutErrors(files, filter);
    PassedWithoutErrors(files, InvertFilter(filter));
    KeepComplement(files, filter);
    assert Keep(files, Accepts(InvertFilter(filter))) == Keep(files, x => !filter(x).0) by {
      KeepSame(files, Accepts(InvertFilter(filter)), x => !filter(x).0);
    }
  }

  lemma {:induction false} KeepComplement(files: seq<string>, filter: Filter)
    ensures |Keep(files, Accepts(filter))| + |Keep(files, Accepts(InvertFilter(filter)))| == |files|
    decreases |files|
  {
    if files != [] {
      KeepComplement(files[1..], filter);
    }
  }

  /** Two predicates that agree everywhere keep the same names. */
  lemma {:induction false} KeepSame(files: seq<string>, p: string -> bool, q: string -> bool)
    requires forall x :: p(x) == q(x)
    ensures Keep(files, p) == Keep(files, q)
    decreases |files|
  {
    if files != [] {
      KeepSame(files[1..], p, q);
    }
  }
}
