/** What the praise and encouragement paths say, and which MP3 files back
    them up when speech synthesis is not used. */
module Phrases {
  import opened Wrappers
  import opened Text
  import opened Random

  /** The built-in short praises, used when the praise data of a category has
      no usable phrase. */
  const PraiseFallbacks: seq<string> := ["真棒！", "太棒了！", "做得好！", "很厉害！", "不错哦！", "答对了！"]

  /** The fixed encouragements spoken after a wrong answer. */
  const EncouragementPhrases: seq<string> := ["加油！", "再试试！", "别灰心！", "你可以！", "别担心！", "继续加油！"]

  /** The punctuation a spoken praise must not contain: full-width comma,
      enumeration comma, full stop and semicolon. */
  predicate Forbidden(c: char) {
    c == '，' || c == '、' || c == '。' || c == '；'
  }

  /** A single short sentence: one to eight UTF-16 units, no forbidden
      punctuation. */
  predicate Qualifies(t: string) {
    0 < Utf16Length(t) <= 8 && forall k | 0 <= k < |t| :: !Forbidden(t[k])
  }

  /** `p.text || ''`: a missing text reads as the empty string. */
  function EntryText(p: Option<string>): string {
    if p.Some? then p.value else ""
  }

  /** `(p.text || '').trim()`. */
  function Cleaned(p: Option<string>): string {
    Trim(EntryText(p))
  }

  /** `xs.map(clean).filter(keep)`. */
  function MapFilter<A>(xs: seq<A>, clean: A -> string, keep: string -> bool): seq<string>
    decreases |xs|
  {
    if xs == [] then []
    else (if keep(clean(xs[0])) then [clean(xs[0])] else []) + MapFilter(xs[1..], clean, keep)
  }

  /** A string survives exactly when it is the cleaned form of an element and
      is kept. */
  lemma {:induction false} MapFilterSpec<A>(xs: seq<A>, clean: A -> string, keep: string -> bool)
    ensures |MapFilter(xs, clean, keep)| <= |xs|
    ensures forall t | t in MapFilter(xs, clean, keep) :: keep(t)
    ensures forall k | 0 <= k < |xs| :: keep(clean(xs[k])) ==> clean(xs[k]) in MapFilter(xs, clean, keep)
    ensures forall t | t in MapFilter(xs, clean, keep) :: exists k | 0 <= k < |xs| :: t == clean(xs[k])
    decreases |xs|
  {
    if xs != [] {
      var rest := xs[1..];
      MapFilterSpec(rest, clean, keep);
      var head := if keep(clean(xs[0])) then [clean(xs[0])] else [];
      assert MapFilter(xs, clean, keep) == head + MapFilter(rest, clean, keep);
      forall k | 1 <= k < |xs| ensures xs[k] == rest[k - 1] {
      }
      forall t | t in MapFilter(xs, clean, keep) ensures exists k | 0 <= k < |xs| :: t == clean(xs[k]) {
        if t in head {
          assert t == clean(xs[0]);
        } else {
          var k :| 0 <= k < |rest| && t == clean(rest[k]);
          assert t == clean(xs[k + 1]);
        }
      }
    }
  }

  /** Filtering keeps the order of the data: it distributes over
      concatenation. */
  lemma {:induction false} MapFilterAppend<A>(a: seq<A>, b: seq<A>, clean: A -> string, keep: string -> bool)
    ensures MapFilter(a + b, clean, keep) == MapFilter(a, clean, keep) + MapFilter(b, clean, keep)
    decreases |a|
  {
    if a != [] {
      var head := if keep(clean(a[0])) then [clean(a[0])] else [];
      assert (a + b)[0] == a[0];
      assert (a + b)[1..] == a[1..] + b;
      MapFilterAppend(a[1..], b, clean, keep);
      calc {
        MapFilter(a + b, clean, keep);
        head + MapFilter(a[1..] + b, clean, keep);
        head + (MapFilter(a[1..], clean, keep) + MapFilter(b, clean, keep));
        (head + MapFilter(a[1..], clean, keep)) + MapFilter(b, clean, keep);
        MapFilter(a, clean, keep) + MapFilter(b, clean, keep);
      }
    } else {
      assert a + b == b;
    }
  }

  /** The cleaned texts of the praise data that qualify, in their original
      order. */
  function FilterPhrases(raw: seq<Option<string>>): seq<string> {
    MapFilter(raw, Cleaned, Qualifies)
  }

  /** Every phrase that survives the filter qualifies and is trimmed, every
      qualifying entry survives, and nothing else does. */
  lemma FilterPhrasesSpec(raw: seq<Option<string>>)
    ensures forall t | t in FilterPhrases(raw) :: Qualifies(t) && Trim(t) == t
    ensures forall k | 0 <= k < |raw| :: Qualifies(Cleaned(raw[k])) ==> Cleaned(raw[k]) in FilterPhrases(raw)
    ensures forall t | t in FilterPhrases(raw) :: exists k | 0 <= k < |raw| :: t == Cleaned(raw[k])
  {
    MapFilterSpec(raw, Cleaned, Qualifies);
    forall t | t in FilterPhrases(raw) ensures Trim(t) == t {
      var k :| 0 <= k < |raw| && t == Cleaned(raw[k]);
      TrimIdempotent(EntryText(raw[k]));
    }
  }

  /** A short phrase of Basic Multilingual Plane characters, without the
      forbidden punctuation, ending in a full-width exclamation mark. */
  predicate ShortExclamation(t: string) {
    && 0 < |t| <= 8 && t[|t| - 1] == '！' && !IsJsSpace(t[0])
    && forall k | 0 <= k < |t| :: t[k] as int <= 0xFFFF && !Forbidden(t[k])
  }

  lemma ShortExclamationsQualify(ts: seq<string>)
    requires forall t | t in ts :: ShortExclamation(t)
    ensures forall t | t in ts :: Qualifies(t) && Trim(t) == t
  {
    forall t | t in ts ensures Qualifies(t) && Trim(t) == t {
      Utf16LengthBmp(t);
      TrimUnpadded(t);
    }
  }

  /** The built-in praises are usable phrases. */
  lemma PraiseFallbacksQualify()
    ensures forall t | t in PraiseFallbacks :: Qualifies(t) && Trim(t) == t
  {
    ShortExclamationsQualify(PraiseFallbacks);
  }

  /** The encouragements meet the same rule as the praises. */
  lemma EncouragementsQualify()
    ensures forall t | t in EncouragementPhrases :: Qualifies(t) && Trim(t) == t
  {
    ShortExclamationsQualify(EncouragementPhrases);
  }

  /** A string of Basic Multilingual Plane characters has one UTF-16 unit
      per character. */
  lemma {:induction false} Utf16LengthBmp(s: string)
    requires forall k | 0 <= k < |s| :: s[k] as int <= 0xFFFF
    ensures Utf16Length(s) == |s|
    decreases |s|
  {
    if s != [] {
      Utf16LengthBmp(s[1..]);
    }
  }

  /** The phrases `playPraise` chooses from: the usable phrases of the data,
      or the built-in praises when none is usable. */
  function PraiseCandidates(raw: seq<Option<string>>): (r: seq<string>)
    ensures |r| > 0
  {
    var filtered := FilterPhrases(raw);
    if |filtered| > 0 then filtered else PraiseFallbacks
  }

  /** Every candidate is a trimmed single short sentence; a candidate other
      than a built-in praise comes from the data; every usable phrase of the
      data is a candidate. The built-in praises are the candidates exactly
      when the data has no usable phrase; otherwise the candidates are the
      usable phrases alone. */
  lemma PraiseCandidatesSpec(raw: seq<Option<string>>)
    ensures forall t | t in PraiseCandidates(raw) :: Qualifies(t) && Trim(t) == t
    ensures forall t | t in PraiseCandidates(raw) && t !in PraiseFallbacks ::
              exists k | 0 <= k < |raw| :: t == Cleaned(raw[k])
    ensures forall k | 0 <= k < |raw| :: Qualifies(Cleaned(raw[k])) ==> Cleaned(raw[k]) in PraiseCandidates(raw)
    ensures (forall k | 0 <= k < |raw| :: !Qualifies(Cleaned(raw[k]))) ==> PraiseCandidates(raw) == PraiseFallbacks
    ensures (exists k | 0 <= k < |raw| :: Qualifies(Cleaned(raw[k]))) ==> PraiseCandidates(raw) == FilterPhrases(raw)
  {
    var f := FilterPhrases(raw);
    FilterPhrasesSpec(raw);
    if |f| == 0 {
      PraiseFallbacksQualify();
      assert PraiseCandidates(raw) == PraiseFallbacks;
    } else {
      assert f[0] in f;
      assert PraiseCandidates(raw) == f;
    }
  }

  /** `candidates[Math.floor(Math.random() * candidates.length)]`. */
  function PickPhrase(candidates: seq<string>, r: Unit): (t: string)
    requires |candidates| > 0
    ensures t in candidates
  {
    candidates[RandomIndex(r, |candidates|)]
  }

  /** Every candidate can be chosen. */
  lemma EveryCandidateReachable(candidates: seq<string>, i: nat)
    requires i < |candidates|
    ensures exists r: Unit :: PickPhrase(candidates, r) == candidates[i]
  {
    RandomIndexCovers(i, |candidates|);
    var r: Unit := i as real / |candidates| as real;
    assert PickPhrase(candidates, r) == candidates[i];
  }

  datatype PraiseCategory = Basic | Combo | Perfect
  {
    function Name(): string {
      match this
      case Basic => "basic"
      case Combo => "combo"
      case Perfect => "perfect"
    }
  }

  /** What a fallback MP3 stands in for. */
  datatype FallbackKind = PraiseClip(category: PraiseCategory) | EncouragementClip

  /** The three candidate files of a fallback, numbered 01 to 03. */
  function FallbackUrl(kind: FallbackKind, idx: nat): (url: string)
    requires idx < 3
    ensures |url| > 4 && url[|url| - 4..] == ".mp3"
  {
    var n := "0" + [DigitChar(idx + 1)];
    match kind
    case PraiseClip(c) => "/audio/praise/praise_" + c.Name() + "_" + n + ".mp3"
    case EncouragementClip => "/audio/praise/encouragement_" + n + ".mp3"
  }

  /** Distinct candidates are distinct files: the ladder never retries the
      file that just failed. */
  lemma FallbackUrlsDistinct(kind: FallbackKind, i: nat, j: nat)
    requires i < 3 && j < 3 && i != j
    ensures FallbackUrl(kind, i) != FallbackUrl(kind, j)
  {
    var u, v := FallbackUrl(kind, i), FallbackUrl(kind, j);
    var p := |u| - 5;
    assert u[p] == DigitChar(i + 1) && v[p] == DigitChar(j + 1);
  }
}
