/** The formatting helpers and the Fisher-Yates shuffle. */
module Helpers {
  import opened Wrappers
  import opened Text
  import opened Random

  /** `${score}分`. */
  function FormatScore(score: int): string {
    IntToDecimal(score) + "分"
  }

  /** A string of decimal digits with an optional leading minus sign. */
  predicate SignedDigits(s: string) {
    if |s| > 0 && s[0] == '-' then |s| > 1 && forall k | 1 <= k < |s| :: IsDigit(s[k])
    else |s| > 0 && forall k | 0 <= k < |s| :: IsDigit(s[k])
  }

  /** The integer a signed decimal string denotes. */
  function SignedValue(s: string): int
    requires SignedDigits(s)
  {
    if s[0] == '-' then -(DecimalValue(s[1..]) as int) else DecimalValue(s)
  }

  /** Reads back a score text: a signed decimal followed by `分`. */
  function ParseScore(text: string): Option<int> {
    if |text| > 0 && text[|text| - 1] == '分' && SignedDigits(text[..|text| - 1])
    then Some(SignedValue(text[..|text| - 1]))
    else None
  }

  lemma IntToDecimalSigned(x: int)
    ensures SignedDigits(IntToDecimal(x))
    ensures SignedValue(IntToDecimal(x)) == x
  {
    if x < 0 {
      var s := IntToDecimal(x);
      var d := NatToDecimal(-x);
      assert s[0] == '-' && s[1..] == d by {
        assert s == "-" + d;
      }
      assert DecimalValue(d) == -x by {
        DecimalRoundTrip(-x);
      }
    } else {
      DecimalRoundTrip(x);
    }
  }

  /** The score text names the score: reading it back gives the score, so
      different scores get different labels. */
  lemma FormatScoreRoundTrip(score: int)
    ensures ParseScore(FormatScore(score)) == Some(score)
  {
    var text := FormatScore(score);
    assert text[..|text| - 1] == IntToDecimal(score);
    IntToDecimalSigned(score);
  }

  /** `Math.floor(seconds / 60)` and `seconds % 60`; JavaScript's `%` keeps
      the sign of the dividend. */
  function TimeParts(seconds: int): (int, int) {
    var minutes := seconds / 60;
    var secs := if seconds >= 0 then seconds % 60 else -((-seconds) % 60);
    (minutes, secs)
  }

  /** `${minutes}分${secs}秒`. */
  function FormatTime(seconds: int): string {
    var (m, s) := TimeParts(seconds);
    IntToDecimal(m) + "分" + IntToDecimal(s) + "秒"
  }

  /** For a duration, the parts are whole minutes and the remaining seconds
      below 60. For a negative number that is not a whole number of minutes
      the floored minutes and the truncated remainder do not add up: they
      miss the number by one minute. */
  lemma TimePartsSpec(seconds: int)
    ensures seconds >= 0 ==>
              TimeParts(seconds).0 * 60 + TimeParts(seconds).1 == seconds && 0 <= TimeParts(seconds).1 < 60
    ensures seconds < 0 && seconds % 60 != 0 ==>
              TimeParts(seconds).0 * 60 + TimeParts(seconds).1 == seconds - 60 && -60 < TimeParts(seconds).1 < 0
    ensures seconds < 0 && seconds % 60 == 0 ==> TimeParts(seconds) == (seconds / 60, 0)
  {
    if seconds < 0 {
      var n := -seconds;
      var q, r := n / 60, n % 60;
      assert n == q * 60 + r;
      if r != 0 {
        assert seconds == (-q - 1) * 60 + (60 - r);
        assert seconds / 60 == -q - 1;
      } else {
        assert seconds == -q * 60;
      }
    }
  }

  /** The text of a duration spells its whole minutes, then its remaining
      seconds, as plain decimals. */
  lemma FormatTimeOfDuration(seconds: nat)
    ensures exists m: nat, s: nat | s < 60 && m * 60 + s == seconds ::
              FormatTime(seconds) == NatToDecimal(m) + "分" + NatToDecimal(s) + "秒"
  {
    TimePartsSpec(seconds);
    var m: nat, s: nat := seconds / 60, seconds % 60;
    assert TimeParts(seconds) == (m, s);
    assert IntToDecimal(m) == NatToDecimal(m) && IntToDecimal(s) == NatToDecimal(s);
    assert FormatTime(seconds) == NatToDecimal(m) + "分" + NatToDecimal(s) + "秒";
  }

  /** The six verdicts of a score, best first. */
  datatype Rating = Flawless | Great | VeryGood | Good | Passed | KeepTrying
  {
    function Text(): string {
      match this
      case Flawless => "完美通关！\U{1F31F}"
      case Great => "真棒！\U{2B50}"
      case VeryGood => "很好！\U{1F44D}"
      case Good => "不错！\U{1F60A}"
      case Passed => "及格了！\U{1F4AA}"
      case KeepTrying => "再接再厉！加油！"
    }

    /** Position from the best verdict (0) to the worst (5). */
    function Rank(): nat {
      match this
      case Flawless => 0
      case Great => 1
      case VeryGood => 2
      case Good => 3
      case Passed => 4
      case KeepTrying => 5
    }
  }

  /** The verdict of `getScoreRating`: exactly 100 is flawless; any other
      score falls in the band of ten it reaches, the lowest band being
      everything under 60. */
  function ScoreRating(score: int): (r: Rating)
    ensures r == Flawless <==> score == 100
    ensures r == Great <==> score >= 90 && score != 100
    ensures r == VeryGood <==> 80 <= score < 90
    ensures r == Good <==> 70 <= score < 80
    ensures r == Passed <==> 60 <= score < 70
    ensures r == KeepTrying <==> score < 60
  {
    if score == 100 then Flawless
    else if score >= 90 then Great
    else if score >= 80 then VeryGood
    else if score >= 70 then Good
    else if score >= 60 then Passed
    else KeepTrying
  }

  function GetScoreRating(score: int): string {
    ScoreRating(score).Text()
  }

  /** Different verdicts read differently, so the text tells the band. */
  lemma RatingTextsDistinct(a: Rating, b: Rating)
    requires a != b
    ensures a.Text() != b.Text()
  {
    assert a.Text()[0] != b.Text()[0];
  }

  /** Up to a full score, a higher score never gets a worse verdict. Above
      100 the verdict drops back to "great". */
  lemma RatingMonotone(a: int, b: int)
    requires a <= b <= 100
    ensures ScoreRating(b).Rank() <= ScoreRating(a).Rank()
  {
  }

  lemma RatingAboveFullScore(score: int)
    requires score > 100
    ensures ScoreRating(score) == Great && ScoreRating(score).Rank() > ScoreRating(100).Rank()
  {
  }

  /** The sequence with positions `i` and `j` exchanged. */
  function Swap<T>(s: seq<T>, i: nat, j: nat): (r: seq<T>)
    requires i < |s| && j < |s|
    ensures |r| == |s|
  {
    s[i := s[j]][j := s[i]]
  }

  /** Swapping exchanges the two positions and leaves every other position
      alone. */
  lemma SwapExchanges<T>(s: seq<T>, i: nat, j: nat)
    requires i < |s| && j < |s|
    ensures Swap(s, i, j)[i] == s[j] && Swap(s, i, j)[j] == s[i]
    ensures forall k | 0 <= k < |s| && k != i && k != j :: Swap(s, i, j)[k] == s[k]
  {
  }

  /** Exchanging two elements keeps the same elements. */
  lemma SwapPermutes<T>(s: seq<T>, i: nat, j: nat)
    requires i < |s| && j < |s|
    ensures multiset(Swap(s, i, j)) == multiset(s)
  {
    assert multiset(s[i := s[j]]) == multiset(s) - multiset{s[i]} + multiset{s[j]};
  }

  /** The index the Fisher-Yates step at position `i` swaps with; it uses
      draw number `n - 1 - i`, `n` being the length. */
  function SwapIndex(n: nat, rand: Draws, i: nat): (j: nat)
    requires i < n
    ensures j <= i
  {
    RandomIndex(rand(n - 1 - i), i + 1)
  }

  /** The steps at positions `i`, `i - 1`, ..., 1 applied to `s`. */
  function ShuffleDown<T>(s: seq<T>, rand: Draws, i: nat): (r: seq<T>)
    requires i < |s|
    ensures |r| == |s|
    decreases i
  {
    if i == 0 then s else ShuffleDown(Swap(s, i, SwapIndex(|s|, rand, i)), rand, i - 1)
  }

  /** The order `shuffle` returns for the draws `rand`. */
  function Shuffled<T>(s: seq<T>, rand: Draws): (r: seq<T>)
    ensures |r| == |s|
  {
    if |s| == 0 then s else ShuffleDown(s, rand, |s| - 1)
  }

  /** Each step only exchanges elements, and leaves the positions above it
      alone. */
  lemma {:induction false} ShuffleDownSpec<T>(s: seq<T>, rand: Draws, i: nat)
    requires i < |s|
    ensures multiset(ShuffleDown(s, rand, i)) == multiset(s)
    ensures forall k {:trigger ShuffleDown(s, rand, i)[k]} | i < k < |s| :: ShuffleDown(s, rand, i)[k] == s[k]
    decreases i
  {
    if i > 0 {
      var j := SwapIndex(|s|, rand, i);
      var t := Swap(s, i, j);
      var r := ShuffleDown(t, rand, i - 1);
      assert ShuffleDown(s, rand, i) == r;
      ShuffleDownSpec(t, rand, i - 1);
      SwapPermutes(s, i, j);
      forall k | i < k < |s| ensures r[k] == s[k] {
        assert r[k] == t[k];
      }
    }
  }

  /** The shuffle is a permutation; the element that ends up last is the one
      the first draw picks. */
  lemma ShuffledSpec<T>(s: seq<T>, rand: Draws)
    ensures multiset(Shuffled(s, rand)) == multiset(s)
    ensures |s| > 0 ==> Shuffled(s, rand)[|s| - 1] == s[RandomIndex(rand(0), |s|)]
  {
    if |s| > 0 {
      ShuffleDownSpec(s, rand, |s| - 1);
      ShuffledLast(s, rand);
    }
  }

  lemma ShuffledLast<T>(s: seq<T>, rand: Draws)
    requires |s| > 0
    ensures Shuffled(s, rand)[|s| - 1] == s[RandomIndex(rand(0), |s|)]
  {
    var n := |s|;
    if n > 1 {
      var t := Swap(s, n - 1, SwapIndex(n, rand, n - 1));
      assert Shuffled(s, rand) == ShuffleDown(t, rand, n - 2);
      ShuffleDownSpec(t, rand, n - 2);
    }
  }

  /** Any element can end up last. */
  lemma AnyElementCanComeLast<T>(s: seq<T>, p: nat)
    requires p < |s|
    ensures exists rand: Draws :: Shuffled(s, rand)[|s| - 1] == s[p]
  {
    RandomIndexCovers(p, |s|);
    var u: Unit := p as real / |s| as real;
    var rand: Draws := (k: nat) => u;
    ShuffledSpec(s, rand);
    assert Shuffled(s, rand)[|s| - 1] == s[p];
  }

  /** `shuffle`: copy the array, then for `i` from the last position down to
      1 swap position `i` with a drawn position at most `i`. The input array
      is not changed. */
  method Shuffle<T>(a: array<T>, rand: Draws) returns (result: array<T>)
    ensures fresh(result)
    ensures result[..] == Shuffled(a[..], rand)
  {
    result := new T[a.Length](k requires 0 <= k < a.Length reads a => a[k]);
    assert result[..] == a[..];
    if a.Length == 0 {
      return;
    }
    var i := a.Length - 1;
    while i > 0
      invariant 0 <= i < a.Length == result.Length
      invariant ShuffleDown(result[..], rand, i) == Shuffled(a[..], rand)
      modifies result
    {
      var j := SwapIndex(result.Length, rand, i);
      ghost var before := result[..];
      result[i], result[j] := result[j], result[i];
      assert ShuffleDown(result[..], rand, i - 1) == Shuffled(a[..], rand) by {
        assert result[..] == Swap(before, i, j);
      }
      i := i - 1;
    }
  }
}
