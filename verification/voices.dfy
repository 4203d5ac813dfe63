/** Choice of a synthesis voice and the utterance settings of the three speech
    paths (`speakNow`, `speakPraiseNow`, `speakEncouragementNow`). Each path
    tries an ordered list of tiers with `voices.find` and keeps the first voice
    of the first tier that finds one. */
module Voices {
  import opened Wrappers
  import opened Text
  import Environment

  datatype Voice = Voice(name: string, lang: string, localService: bool)

  /** `voices.findIndex(p)`: the first position whose voice satisfies `p`. */
  function FindIndex(vs: seq<Voice>, p: Voice -> bool): (r: Option<nat>)
    ensures r.None? <==> forall i | 0 <= i < |vs| :: !p(vs[i])
    ensures r.Some? ==> r.value < |vs| && p(vs[r.value]) && forall j | 0 <= j < r.value :: !p(vs[j])
  {
    if vs == [] then None
    else if p(vs[0]) then Some(0)
    else match FindIndex(vs[1..], p)
      case None => None
      case Some(i) => Some(i + 1)
  }

  /** The position of the first tier a voice satisfies; |tiers| when none. */
  function Rank(v: Voice, tiers: seq<Voice -> bool>): (k: nat)
    ensures k <= |tiers|
  {
    if tiers == [] || tiers[0](v) then 0 else 1 + Rank(v, tiers[1..])
  }

  /** A voice has the full rank exactly when it satisfies no tier. */
  lemma {:induction false} RankFullIffNoTier(v: Voice, tiers: seq<Voice -> bool>)
    ensures Rank(v, tiers) == |tiers| <==> forall k | 0 <= k < |tiers| :: !tiers[k](v)
  {
    if tiers != [] {
      RankFullIffNoTier(v, tiers[1..]);
      assert forall k | 1 <= k < |tiers| :: tiers[k] == tiers[1..][k - 1];
    }
  }

  /** The tier chain: the index of the first voice found by the first tier
      that finds one. Equivalently, the first voice of minimal rank; no voice
      is chosen exactly when no voice satisfies any tier. */
  function SelectByTiers(vs: seq<Voice>, tiers: seq<Voice -> bool>): (r: Option<nat>)
    ensures r.None? <==> forall i | 0 <= i < |vs| :: Rank(vs[i], tiers) == |tiers|
    ensures r.Some? ==>
              && r.value < |vs|
              && Rank(vs[r.value], tiers) < |tiers|
              && (forall j | 0 <= j < |vs| :: Rank(vs[r.value], tiers) <= Rank(vs[j], tiers))
              && (forall j | 0 <= j < r.value :: Rank(vs[r.value], tiers) < Rank(vs[j], tiers))
  {
    if tiers == [] then None
    else match FindIndex(vs, tiers[0])
      case Some(i) => Some(i)
      case None => SelectByTiers(vs, tiers[1..])
  }

  /** The five tiers of `speakNow`: local zh-CN, any zh-CN, zh-Hans, any zh or
      CN language tag, and a Chinese name. */
  const CharacterTiers: seq<Voice -> bool> := [
    (v: Voice) => v.lang == "zh-CN" && v.localService,
    (v: Voice) => v.lang == "zh-CN",
    (v: Voice) => StartsWith(v.lang, "zh-Hans"),
    (v: Voice) => StartsWith(v.lang, "zh") || Contains(v.lang, "CN"),
    (v: Voice) => Contains(v.name, "Chinese") || Contains(v.name, "中文") || Contains(v.name, "普通话")
  ]

  /** A language tag the praise and encouragement paths accept as Chinese. */
  predicate ChineseLang(v: Voice) {
    v.lang == "zh-CN" || StartsWith(v.lang, "zh")
  }

  /** The three tiers of `speakPraiseNow` and `speakEncouragementNow`: a Chinese
      child voice, a Chinese female voice, any Chinese voice. */
  const PraiseTiers: seq<Voice -> bool> := [
    (v: Voice) => ChineseLang(v) && (Contains(v.name, "小") || Contains(v.name, "Child") || Contains(v.name, "Kid")),
    (v: Voice) => ChineseLang(v) && (Contains(v.name, "Female") || Contains(v.name, "女")),
    (v: Voice) => ChineseLang(v)
  ]

  function Pick(vs: seq<Voice>, r: Option<nat>): Option<Voice>
    requires r.Some? ==> r.value < |vs|
  {
    if r.Some? then Some(vs[r.value]) else None
  }

  function SelectCharacterVoice(vs: seq<Voice>): Option<Voice> {
    Pick(vs, SelectByTiers(vs, CharacterTiers))
  }

  function SelectPraiseVoice(vs: seq<Voice>): Option<Voice> {
    Pick(vs, SelectByTiers(vs, PraiseTiers))
  }

  /** Some tier of `speakNow` accepts the voice. */
  predicate CharacterCandidate(v: Voice) {
    || (v.lang == "zh-CN" && v.localService)
    || v.lang == "zh-CN"
    || StartsWith(v.lang, "zh-Hans")
    || StartsWith(v.lang, "zh") || Contains(v.lang, "CN")
    || Contains(v.name, "Chinese") || Contains(v.name, "中文") || Contains(v.name, "普通话")
  }

  lemma CharacterRankFull(v: Voice)
    ensures Rank(v, CharacterTiers) == 5 <==> !CharacterCandidate(v)
  {
    RankFullIffNoTier(v, CharacterTiers);
    var t := CharacterTiers;
    assert t[0](v) == (v.lang == "zh-CN" && v.localService);
    assert t[1](v) == (v.lang == "zh-CN");
    assert t[2](v) == StartsWith(v.lang, "zh-Hans");
    assert t[3](v) == (StartsWith(v.lang, "zh") || Contains(v.lang, "CN"));
    assert t[4](v) == (Contains(v.name, "Chinese") || Contains(v.name, "中文") || Contains(v.name, "普通话"));
  }

  /** `speakNow` falls back to the platform default voice only when no voice
      passes any of its five tiers; a chosen voice is one of the list and
      passes one of them. */
  lemma CharacterVoiceNoneIffNoCandidate(vs: seq<Voice>)
    ensures SelectCharacterVoice(vs).None? <==> forall i | 0 <= i < |vs| :: !CharacterCandidate(vs[i])
    ensures SelectCharacterVoice(vs).Some? ==>
              SelectCharacterVoice(vs).value in vs && CharacterCandidate(SelectCharacterVoice(vs).value)
  {
    forall i | 0 <= i < |vs| ensures Rank(vs[i], CharacterTiers) == 5 <==> !CharacterCandidate(vs[i]) {
      CharacterRankFull(vs[i]);
    }
    var r := SelectByTiers(vs, CharacterTiers);
    if r.Some? {
      CharacterRankFull(vs[r.value]);
    }
  }

  /** When the list holds a local zh-CN voice, the first such voice is chosen. */
  lemma LocalMandarinVoicePreferred(vs: seq<Voice>, k: nat)
    requires k < |vs| && vs[k].lang == "zh-CN" && vs[k].localService
    requires forall j | 0 <= j < k :: !(vs[j].lang == "zh-CN" && vs[j].localService)
    ensures SelectCharacterVoice(vs) == Some(vs[k])
  {
    var t := CharacterTiers;
    var r := SelectByTiers(vs, t);
    assert t[0](vs[k]);
    assert Rank(vs[k], t) == 0;
    assert r.Some? && Rank(vs[r.value], t) == 0;
    assert t[0](vs[r.value]);
    forall j | 0 <= j < k ensures Rank(vs[j], t) > 0 {
      assert !t[0](vs[j]);
    }
    assert r.value == k;
  }

  /** The praise and encouragement paths choose a Chinese-language voice
      whenever the list has one, and only such a voice. */
  lemma PraiseVoiceIsChinese(vs: seq<Voice>)
    ensures SelectPraiseVoice(vs).None? <==> forall i | 0 <= i < |vs| :: !ChineseLang(vs[i])
    ensures SelectPraiseVoice(vs).Some? ==>
              SelectPraiseVoice(vs).value in vs && ChineseLang(SelectPraiseVoice(vs).value)
  {
    var t := PraiseTiers;
    forall v | true ensures Rank(v, t) == 3 <==> !ChineseLang(v) {
      RankFullIffNoTier(v, t);
      assert t[2](v) == ChineseLang(v);
      assert t[0](v) ==> ChineseLang(v);
      assert t[1](v) ==> ChineseLang(v);
    }
    var r := SelectByTiers(vs, t);
    if r.Some? {
      assert Rank(vs[r.value], t) < 3;
    }
  }

  /** The settings `SpeechSynthesisUtterance` receives before `speak`. */
  datatype Utterance = Utterance(
    text: string, voice: Option<Voice>, lang: string,
    rate: real, pitch: real, volume: real, delayMs: nat)

  /** `speakNow`: slower, neutral pitch, full volume. */
  function CharacterUtterance(text: string, voices: seq<Voice>, ua: string): (u: Utterance)
    ensures u.voice == SelectCharacterVoice(voices) && u.lang == "zh-CN"
    ensures u.delayMs == Environment.SpeakDelay(ua)
  {
    Utterance(text, SelectCharacterVoice(voices), "zh-CN", 0.8, 1.0, 1.0, Environment.SpeakDelay(ua))
  }

  /** `speakPraiseNow`: normal rate, raised pitch, the manager's volume. */
  function PraiseUtterance(text: string, voices: seq<Voice>, ua: string, volume: real): (u: Utterance)
    ensures u.voice == SelectPraiseVoice(voices) && u.lang == "zh-CN"
    ensures u.delayMs == Environment.SpeakDelay(ua)
  {
    Utterance(text, SelectPraiseVoice(voices), "zh-CN", 1.0, 1.5, volume, Environment.SpeakDelay(ua))
  }

  /** `speakEncouragementNow`: a little slower, raised pitch, the manager's volume. */
  function EncouragementUtterance(text: string, voices: seq<Voice>, ua: string, volume: real): (u: Utterance)
    ensures u.voice == SelectPraiseVoice(voices) && u.lang == "zh-CN"
    ensures u.delayMs == Environment.SpeakDelay(ua)
  {
    Utterance(text, SelectPraiseVoice(voices), "zh-CN", 0.9, 1.4, volume, Environment.SpeakDelay(ua))
  }
}
