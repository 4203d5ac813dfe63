/** Which characters `prefetchCharacters` starts loading:
    `Array.from(new Set(characters.filter(Boolean)))`, minus those already in
    the prefetch cache. */
module Prefetch {

  /** The non-empty strings of `xs` in order of first occurrence, skipping
      those in `seen`. */
  function DistinctFrom(xs: seq<string>, seen: set<string>): seq<string>
    decreases |xs|
  {
    if xs == [] then []
    else if xs[0] == "" || xs[0] in seen then DistinctFrom(xs[1..], seen)
    else [xs[0]] + DistinctFrom(xs[1..], seen + {xs[0]})
  }

  /** `Array.from(new Set(xs.filter(Boolean)))`. */
  function DistinctNonEmpty(xs: seq<string>): seq<string> {
    DistinctFrom(xs, {})
  }

  predicate NoDuplicates(us: seq<string>) {
    forall i, j | 0 <= i < j < |us| :: us[i] != us[j]
  }

  lemma {:induction false} DistinctFromSpec(xs: seq<string>, seen: set<string>)
    ensures forall t :: t in DistinctFrom(xs, seen) <==> t != "" && t in xs && t !in seen
    ensures NoDuplicates(DistinctFrom(xs, seen))
    decreases |xs|
  {
    if xs != [] {
      var rest := xs[1..];
      assert xs == [xs[0]] + rest;
      if xs[0] == "" || xs[0] in seen {
        DistinctFromSpec(rest, seen);
      } else {
        DistinctFromSpec(rest, seen + {xs[0]});
        var r := DistinctFrom(xs, seen);
        assert r == [xs[0]] + DistinctFrom(rest, seen + {xs[0]});
        forall i, j | 0 <= i < j < |r| ensures r[i] != r[j] {
          if i == 0 {
            assert r[j] in DistinctFrom(rest, seen + {xs[0]});
          }
        }
      }
    }
  }

  /** Each non-empty character is requested once per call, whatever its
      multiplicity in the input, and nothing else is. */
  lemma DistinctNonEmptySpec(xs: seq<string>)
    ensures forall t :: t in DistinctNonEmpty(xs) <==> t != "" && t in xs
    ensures NoDuplicates(DistinctNonEmpty(xs))
  {
    DistinctFromSpec(xs, {});
  }

  /** The characters of `us` not already cached, in order. */
  function Uncached(us: seq<string>, cached: set<string>): seq<string>
    decreases |us|
  {
    if us == [] then []
    else
      var last := us[|us| - 1];
      Uncached(us[..|us| - 1], cached) + (if last in cached then [] else [last])
  }

  lemma {:induction false} UncachedSpec(us: seq<string>, cached: set<string>)
    ensures forall t :: t in Uncached(us, cached) <==> t in us && t !in cached
    decreases |us|
  {
    if us != [] {
      var last := us[|us| - 1];
      assert us == us[..|us| - 1] + [last];
      UncachedSpec(us[..|us| - 1], cached);
    }
  }

  /** One more element of `us` adds itself to the uncached characters, unless
      it is cached. */
  lemma UncachedSnoc(us: seq<string>, i: nat, cached: set<string>)
    requires i < |us|
    ensures Uncached(us[..i + 1], cached) == Uncached(us[..i], cached) + (if us[i] in cached then [] else [us[i]])
  {
    assert us[..i + 1][..i] == us[..i];
  }

  /** Keeping only the uncached characters keeps them distinct. */
  lemma {:induction false} UncachedKeepsDistinct(us: seq<string>, cached: set<string>)
    requires NoDuplicates(us)
    ensures NoDuplicates(Uncached(us, cached))
    decreases |us|
  {
    if us != [] {
      var init := us[..|us| - 1];
      var last := us[|us| - 1];
      assert NoDuplicates(init);
      UncachedKeepsDistinct(init, cached);
      UncachedSpec(init, cached);
      assert last !in init;
    }
  }

  /** The characters one call of `prefetchCharacters` starts loading. */
  function Requested(chars: seq<string>, cached: set<string>): seq<string> {
    Uncached(DistinctNonEmpty(chars), cached)
  }

  /** A call loads each non-empty, uncached character of its input exactly
      once. */
  lemma RequestedSpec(chars: seq<string>, cached: set<string>)
    ensures forall t :: t in Requested(chars, cached) <==> t != "" && t in chars && t !in cached
    ensures NoDuplicates(Requested(chars, cached))
  {
    DistinctNonEmptySpec(chars);
    UncachedSpec(DistinctNonEmpty(chars), cached);
    UncachedKeepsDistinct(DistinctNonEmpty(chars), cached);
  }
}
