/** The `AudioManager` singleton: one object whose fields the public
    operations and the browser's callbacks update in place. Browser callbacks
    (media-element listeners, promise settlements, timers, utterance events)
    are methods the environment calls, each with the event as a parameter.
    The user agent, the presence of `speechSynthesis` and `encodeURIComponent`
    are fixed when the manager is created. */
module Audio {
  import opened Wrappers
  import opened Random
  import opened Scheduler
  import opened Ladders
  import Environment
  import Voices
  import Phrases
  import Prefetch

  /** One `new Audio(url)` of the character path, with its closure state. */
  datatype Attempt = Attempt(character: string, index: nat, url: string, state: AttemptState)

  /** One `new Audio(url)` of a praise or encouragement fallback. */
  datatype FallbackLoad = FallbackLoad(kind: Phrases.FallbackKind, index: nat, url: string, state: FallbackState)

  /** One element created by `prefetchCharacters`. */
  datatype PrefetchLoad = PrefetchLoad(character: string, url: string)

  /** The location of a character clip. */
  function CharacterUrl(name: string): string {
    "/audio/characters/" + name + ".mp3"
  }

  /** `Math.max(0, Math.min(1, v))`. */
  function Clamp01(v: real): (r: real)
    ensures 0.0 <= r <= 1.0
    ensures 0.0 <= v <= 1.0 ==> r == v
    ensures v < 0.0 ==> r == 0.0
    ensures v > 1.0 ==> r == 1.0
  {
    if v < 0.0 then 0.0 else if v > 1.0 then 1.0 else v
  }

  /** Push an optional task, then process; nothing happens without a task. */
  function PushProcess(q: QueueState, t: Option<Task>): (r: Stepped)
    ensures t.None? ==> r == Stepped(q, None)
  {
    if t.Some? then Process(Push(q, t.value)) else Stepped(q, None)
  }

  /** The queue effect of `failAndNext`: the next try pushes (and processes),
      then the flag is cleared and the queue processed again. */
  function FailAndNext(q: QueueState, next: Option<Task>): (r: (QueueState, seq<Task>))
    ensures !r.0.busy ==> r.0.pending == []
  {
    var s1 := PushProcess(q, next);
    var s2 := Process(Release(s1.next));
    (s2.next, ToSeq(s1.started) + ToSeq(s2.started))
  }

  /** The queue effect of a fallback listener. */
  function FallbackQueue(q: QueueState, fx: Effects, load: nat): (r: (QueueState, seq<Task>)) {
    var s1 := if fx.enqueue then Process(Push(q, FallbackClipTask(load))) else Stepped(q, None);
    var s2 := if fx.release then Process(Release(s1.next)) else Stepped(s1.next, None);
    (s2.next, ToSeq(s1.started) + ToSeq(s2.started))
  }

  lemma AppendAssoc<T>(a: seq<T>, b: seq<T>, c: seq<T>)
    ensures (a + b) + c == a + (b + c)
  {
  }

  /** Appending loads keeps every cache entry pointing at its own load. */
  lemma CacheStaysValid(cache: map<string, nat>, before: seq<PrefetchLoad>, after: seq<PrefetchLoad>)
    requires before <= after
    requires forall c | c in cache :: cache[c] < |before| && before[cache[c]].character == c
    ensures forall c | c in cache :: cache[c] < |after| && after[cache[c]].character == c
  {
  }

  class AudioManager {
    const userAgent: string
    const hasSpeechSynthesis: bool
    const encode: string -> string

    var volume: real
    var isAudioUnlocked: bool
    var isSpeaking: bool
    var speechQueue: seq<Task>
    /** Character to the prefetch element that loaded it. */
    var prefetchAudios: map<string, nat>
    var prefetchLoads: seq<PrefetchLoad>
    var attempts: seq<Attempt>
    var fallbackLoads: seq<FallbackLoad>

    ghost predicate Valid()
      reads this`volume, this`attempts, this`fallbackLoads, this`prefetchAudios, this`prefetchLoads
    {
      && 0.0 <= volume <= 1.0
      && (forall i | 0 <= i < |attempts| :: attempts[i].index < 2)
      && (forall i | 0 <= i < |fallbackLoads| :: fallbackLoads[i].index < 3)
      && (forall c | c in prefetchAudios ::
            prefetchAudios[c] < |prefetchLoads| && prefetchLoads[prefetchAudios[c]].character == c)
    }

    constructor (userAgent: string, hasSpeechSynthesis: bool, encode: string -> string)
      ensures this.userAgent == userAgent && this.hasSpeechSynthesis == hasSpeechSynthesis
      ensures this.encode == encode
      ensures volume == 0.8 && !isAudioUnlocked && !isSpeaking && speechQueue == []
      ensures prefetchAudios == map[] && prefetchLoads == [] && attempts == [] && fallbackLoads == []
      ensures Valid()
    {
      this.userAgent := userAgent;
      this.hasSpeechSynthesis := hasSpeechSynthesis;
      this.encode := encode;
      volume := 0.8;
      isAudioUnlocked := false;
      isSpeaking := false;
      speechQueue := [];
      prefetchAudios := map[];
      prefetchLoads := [];
      attempts := [];
      fallbackLoads := [];
    }

    function Queue(): QueueState
      reads this
    {
      QueueState(isSpeaking, speechQueue)
    }

    /** `checkBrowserCompatibility().supported`. */
    predicate Supported()
      ensures Supported() ==> hasSpeechSynthesis
    {
      Environment.CheckBrowserCompatibility(userAgent, hasSpeechSynthesis).supported
    }

    /** The URL of try `idx` of a character: as written, then percent-encoded. */
    function AttemptUrl(character: string, idx: nat): string {
      if idx == 0 then CharacterUrl(character) else CharacterUrl(encode(character))
    }

    /** What `tryPlayUrl(idx)` pushes: a clip task for the two URLs, then the
        synthesis task when synthesis is supported, otherwise nothing. */
    function NextTask(character: string, idx: nat, newAttempt: nat): Option<Task> {
      if idx < 2 then Some(ClipTask(newAttempt))
      else if Supported() then Some(SpeakCharacter(character))
      else None
    }

    /** `unlockAudio`: the work on the audio context and the silent utterance
        happens once; afterwards the manager counts as unlocked. */
    method UnlockAudio()
      modifies this`isAudioUnlocked
      ensures isAudioUnlocked
    {
      if isAudioUnlocked {
        return;
      }
      isAudioUnlocked := true;
    }

    method SetVolume(v: real)
      requires Valid()
      modifies this`volume
      ensures volume == Clamp01(v)
      ensures Valid()
    {
      volume := Clamp01(v);
    }

    method ProcessSpeechQueue() returns (started: Option<Task>)
      modifies this`isSpeaking, this`speechQueue
      ensures Stepped(Queue(), started) == Process(old(Queue()))
    {
      if isSpeaking || |speechQueue| == 0 {
        return None;
      }
      isSpeaking := true;
      started := Some(speechQueue[0]);
      speechQueue := speechQueue[1..];
    }

    /** `playCharacterSoundTTS`: push the synthesis task only when synthesis is
        present and supported. */
    method PlayCharacterSoundTTS(character: string) returns (started: Option<Task>)
      modifies this`isSpeaking, this`speechQueue
      ensures Stepped(Queue(), started)
              == PushProcess(old(Queue()), if Supported() then Some(SpeakCharacter(character)) else None)
    {
      if !hasSpeechSynthesis {
        return None;
      }
      if !Supported() {
        return None;
      }
      speechQueue := speechQueue + [SpeakCharacter(character)];
      started := ProcessSpeechQueue();
    }

    /** `tryPlayUrl`: a new element for URL `idx`, a queued clip task for it,
        and the synthesis path once both URLs have failed. */
    method TryPlayUrl(character: string, idx: nat) returns (started: Option<Task>)
      requires idx <= 2 && Valid()
      modifies this`isSpeaking, this`speechQueue, this`attempts
      ensures attempts == old(attempts)
                + (if idx < 2 then [Attempt(character, idx, AttemptUrl(character, idx), FreshAttempt)] else [])
      ensures Stepped(Queue(), started) == PushProcess(old(Queue()), NextTask(character, idx, |old(attempts)|))
      ensures Valid()
    {
      if idx >= 2 {
        started := PlayCharacterSoundTTS(character);
        return;
      }
      attempts := attempts + [Attempt(character, idx, AttemptUrl(character, idx), FreshAttempt)];
      speechQueue := speechQueue + [ClipTask(|attempts| - 1)];
      started := ProcessSpeechQueue();
    }

    /** `playCharacterSound`: unlock, then try the first URL. The prefetch
        cache is not consulted. */
    method PlayCharacterSound(character: string) returns (started: Option<Task>)
      requires Valid()
      modifies this`isAudioUnlocked, this`isSpeaking, this`speechQueue, this`attempts
      ensures isAudioUnlocked
      ensures attempts == old(attempts) + [Attempt(character, 0, CharacterUrl(character), FreshAttempt)]
      ensures Stepped(Queue(), started) == Process(Push(old(Queue()), ClipTask(|old(attempts)|)))
      ensures Valid()
    {
      UnlockAudio();
      started := TryPlayUrl(character, 0);
    }

    /** A listener, timer or promise settlement of attempt `a`. */
    method OnClipEvent(a: nat, e: ClipEvent) returns (started: seq<Task>)
      requires a < |attempts| && Valid()
      modifies this`isSpeaking, this`speechQueue, this`attempts
      ensures var att := old(attempts[a]);
              var r := StepAttempt(att.state, e);
              var updated := old(attempts)[a := att.(state := r.0)];
              match r.1
              case Stay =>
                attempts == updated && Queue() == old(Queue()) && started == []
              case Finished =>
                && attempts == updated
                && (Queue(), started) == (Process(Release(old(Queue()))).next,
                                          ToSeq(Process(Release(old(Queue()))).started))
              case Advance =>
                && attempts == updated
                     + (if att.index + 1 < 2
                        then [Attempt(att.character, att.index + 1, AttemptUrl(att.character, att.index + 1), FreshAttempt)]
                        else [])
                && (Queue(), started) == FailAndNext(old(Queue()), NextTask(att.character, att.index + 1, |old(attempts)|))
      ensures Valid()
    {
      var att := attempts[a];
      var r := StepAttempt(att.state, e);
      attempts := attempts[a := att.(state := r.0)];
      match r.1
      case Stay =>
        started := [];
      case Finished =>
        isSpeaking := false;
        var s := ProcessSpeechQueue();
        started := ToSeq(s);
      case Advance =>
        var s1 := TryPlayUrl(att.character, att.index + 1);
        isSpeaking := false;
        var s2 := ProcessSpeechQueue();
        started := ToSeq(s1) + ToSeq(s2);
    }

    /** The characters whose MP3 a call of `prefetchCharacters` loads, given
        the cache at the time of the call. */
    function PrefetchRequests(chars: seq<string>): seq<PrefetchLoad>
      reads this`prefetchAudios
    {
      LoadsFor(Prefetch.Requested(chars, prefetchAudios.Keys))
    }

    function LoadsFor(cs: seq<string>): (r: seq<PrefetchLoad>)
      ensures |r| == |cs|
      decreases |cs|
    {
      if cs == [] then []
      else
        var last := cs[|cs| - 1];
        LoadsFor(cs[..|cs| - 1]) + [PrefetchLoad(last, CharacterUrl(encode(last)))]
    }

    /** `prefetchCharacters`: start one load per distinct, non-empty, uncached
        character. The cache itself only changes when a load finishes. */
    method PrefetchCharacters(chars: seq<string>)
      requires Valid()
      modifies this`prefetchLoads
      ensures prefetchLoads == old(prefetchLoads) + PrefetchRequests(chars)
      ensures Valid()
    {
      var unique := Prefetch.DistinctNonEmpty(chars);
      ghost var before := prefetchLoads;
      ghost var keys := prefetchAudios.Keys;
      for i := 0 to |unique|
        invariant prefetchLoads == before + LoadsFor(Prefetch.Uncached(unique[..i], keys))
      {
        var ch := unique[i];
        ghost var done := Prefetch.Uncached(unique[..i], keys);
        if ch !in prefetchAudios {
          prefetchLoads := prefetchLoads + [PrefetchLoad(ch, CharacterUrl(encode(ch)))];
          assert prefetchLoads == before + LoadsFor(Prefetch.Uncached(unique[..i + 1], keys)) by {
            Prefetch.UncachedSnoc(unique, i, keys);
            LoadsForSnoc(done, ch);
            AppendAssoc(before, LoadsFor(done), [PrefetchLoad(ch, CharacterUrl(encode(ch)))]);
          }
        } else {
          assert Prefetch.Uncached(unique[..i + 1], keys) == done by {
            Prefetch.UncachedSnoc(unique, i, keys);
          }
        }
      }
      assert prefetchLoads == before + PrefetchRequests(chars) by {
        assert unique[..|unique|] == unique;
      }
      assert Valid() by {
        CacheStaysValid(prefetchAudios, before, prefetchLoads);
      }
    }

    lemma LoadsForSnoc(cs: seq<string>, c: string)
      ensures LoadsFor(cs + [c]) == LoadsFor(cs) + [PrefetchLoad(c, CharacterUrl(encode(c)))]
    {
      assert (cs + [c])[..|cs|] == cs;
    }

    /** `canplaythrough` of prefetch element `l`: cache it. */
    method OnPrefetchReady(l: nat)
      requires l < |prefetchLoads| && Valid()
      modifies this`prefetchAudios
      ensures prefetchAudios == old(prefetchAudios)[prefetchLoads[l].character := l]
      ensures Valid()
    {
      prefetchAudios := prefetchAudios[prefetchLoads[l].character := l];
    }

    /** `error` of prefetch element `l`: drop its character from the cache,
        whichever element the cache holds for it. */
    method OnPrefetchError(l: nat)
      requires l < |prefetchLoads| && Valid()
      modifies this`prefetchAudios
      ensures prefetchAudios == old(prefetchAudios) - {prefetchLoads[l].character}
      ensures Valid()
    {
      prefetchAudios := prefetchAudios - {prefetchLoads[l].character};
    }

    /** `tryIdx` of a fallback ladder: a new element for file `idx`, or
        nothing once the three files are used up. */
    method TryFallback(kind: Phrases.FallbackKind, idx: nat)
      requires Valid()
      modifies this`fallbackLoads
      ensures fallbackLoads == old(fallbackLoads)
                + (if idx < 3 then [FallbackLoad(kind, idx, Phrases.FallbackUrl(kind, idx), FreshFallback)] else [])
      ensures Valid()
    {
      if idx >= 3 {
        return;
      }
      fallbackLoads := fallbackLoads + [FallbackLoad(kind, idx, Phrases.FallbackUrl(kind, idx), FreshFallback)];
    }

    /** `playPraise`: synthesis of a randomly chosen short praise when
        supported, otherwise the MP3 fallback ladder of the category. */
    method PlayPraise(category: Phrases.PraiseCategory, raw: seq<Option<string>>, r: Unit)
      returns (started: Option<Task>)
      requires Valid()
      modifies this`isAudioUnlocked, this`isSpeaking, this`speechQueue, this`fallbackLoads
      ensures isAudioUnlocked
      ensures !Supported() ==>
                && fallbackLoads == old(fallbackLoads)
                     + [FallbackLoad(Phrases.PraiseClip(category), 0, Phrases.FallbackUrl(Phrases.PraiseClip(category), 0), FreshFallback)]
                && Queue() == old(Queue()) && started == None
      ensures Supported() ==>
                && fallbackLoads == old(fallbackLoads)
                && Stepped(Queue(), started)
                   == Process(Push(old(Queue()), SpeakPraise(Phrases.PickPhrase(Phrases.PraiseCandidates(raw), r))))
      ensures Valid()
    {
      UnlockAudio();
      if !Supported() {
        TryFallback(Phrases.PraiseClip(category), 0);
        return None;
      }
      var text := Phrases.PickPhrase(Phrases.PraiseCandidates(raw), r);
      if hasSpeechSynthesis {
        started := QueueSpeech(SpeakPraise(text));
      }
    }

    /** `playEncouragement`: synthesis of a randomly chosen encouragement when
        supported, otherwise the encouragement MP3 ladder. */
    method PlayEncouragement(r: Unit) returns (started: Option<Task>)
      requires Valid()
      modifies this`isAudioUnlocked, this`isSpeaking, this`speechQueue, this`fallbackLoads
      ensures isAudioUnlocked
      ensures !Supported() ==>
                && fallbackLoads == old(fallbackLoads)
                     + [FallbackLoad(Phrases.EncouragementClip, 0, Phrases.FallbackUrl(Phrases.EncouragementClip, 0), FreshFallback)]
                && Queue() == old(Queue()) && started == None
      ensures Supported() ==>
                && fallbackLoads == old(fallbackLoads)
                && Stepped(Queue(), started)
                   == Process(Push(old(Queue()), SpeakEncouragement(Phrases.PickPhrase(Phrases.EncouragementPhrases, r))))
      ensures Valid()
    {
      UnlockAudio();
      if !Supported() {
        TryFallback(Phrases.EncouragementClip, 0);
        return None;
      }
      var text := Phrases.PickPhrase(Phrases.EncouragementPhrases, r);
      if hasSpeechSynthesis {
        started := QueueSpeech(SpeakEncouragement(text));
      }
    }

    /** Append a synthesis task to the speech queue and process the queue. */
    method QueueSpeech(t: Task) returns (started: Option<Task>)
      requires Valid()
      modifies this`isSpeaking, this`speechQueue
      ensures Stepped(Queue(), started) == Process(Push(old(Queue()), t))
      ensures Valid()
    {
      speechQueue := speechQueue + [t];
      started := ProcessSpeechQueue();
    }

    /** A listener or promise settlement of fallback element `l`. */
    method OnFallbackEvent(l: nat, e: FallbackEvent) returns (started: seq<Task>)
      requires l < |fallbackLoads| && Valid()
      modifies this`isSpeaking, this`speechQueue, this`fallbackLoads
      ensures var ld := old(fallbackLoads[l]);
              var r := StepFallback(ld.state, e);
              && fallbackLoads == old(fallbackLoads)[l := ld.(state := r.0)]
                   + (if r.1.advance && ld.index + 1 < 3
                      then [FallbackLoad(ld.kind, ld.index + 1, Phrases.FallbackUrl(ld.kind, ld.index + 1), FreshFallback)]
                      else [])
              && (Queue(), started) == FallbackQueue(old(Queue()), r.1, l)
      ensures Valid()
    {
      var ld := fallbackLoads[l];
      var r := StepFallback(ld.state, e);
      fallbackLoads := fallbackLoads[l := ld.(state := r.0)];
      var s1: Option<Task> := None;
      var s2: Option<Task> := None;
      if r.1.enqueue {
        speechQueue := speechQueue + [FallbackClipTask(l)];
        s1 := ProcessSpeechQueue();
      }
      if r.1.advance {
        TryFallback(ld.kind, ld.index + 1);
      }
      if r.1.release {
        isSpeaking := false;
        s2 := ProcessSpeechQueue();
      }
      started := ToSeq(s1) + ToSeq(s2);
    }

    /** `onend` or `onerror` of any utterance: clear the flag. The queue is
        processed by a separate timer 100 ms later. */
    method OnUtteranceDone()
      modifies this`isSpeaking
      ensures !isSpeaking
    {
      isSpeaking := false;
    }

    /** `speechSynthesis.speak` threw inside a started synthesis task. The
        praise and encouragement paths clear the flag and go on; the
        character path only alerts and keeps the flag set. */
    method OnSpeakThrew(t: Task) returns (started: Option<Task>)
      requires t.SpeakCharacter? || t.SpeakPraise? || t.SpeakEncouragement?
      modifies this`isSpeaking, this`speechQueue
      ensures t.SpeakCharacter? ==> Queue() == old(Queue()) && started == None
      ensures !t.SpeakCharacter? ==> Stepped(Queue(), started) == Process(Release(old(Queue())))
    {
      if t.SpeakCharacter? {
        return None;
      }
      isSpeaking := false;
      started := ProcessSpeechQueue();
    }

    /** The utterance a started synthesis task speaks, given the voice list
        at that moment. */
    function UtteranceFor(t: Task, voices: seq<Voices.Voice>): (u: Option<Voices.Utterance>)
      reads this`volume
      ensures u.Some? <==> t.SpeakCharacter? || t.SpeakPraise? || t.SpeakEncouragement?
      ensures t.SpeakCharacter? ==> u.value.volume == 1.0 && u.value.text == t.text
      ensures t.SpeakPraise? || t.SpeakEncouragement? ==> u.value.volume == volume && u.value.text == t.text
    {
      match t
      case SpeakCharacter(text) => Some(Voices.CharacterUtterance(text, voices, userAgent))
      case SpeakPraise(text) => Some(Voices.PraiseUtterance(text, voices, userAgent, volume))
      case SpeakEncouragement(text) => Some(Voices.EncouragementUtterance(text, voices, userAgent, volume))
      case _ => None
    }

    /** `playSound`: unlocks; the tone itself is not part of the model. */
    method PlaySound()
      modifies this`isAudioUnlocked
      ensures isAudioUnlocked
    {
      UnlockAudio();
    }

    /** `stopAll`: its first statement throws when `speechSynthesis` is
        missing, leaving the queue as it was; otherwise the queue is emptied
        and the flag cleared. */
    method StopAll() returns (threw: bool)
      modifies this`isSpeaking, this`speechQueue
      ensures threw <==> !hasSpeechSynthesis
      ensures threw ==> Queue() == old(Queue())
      ensures !threw ==> Queue() == Clear(old(Queue()))
    {
      if !hasSpeechSynthesis {
        return true;
      }
      speechQueue := [];
      isSpeaking := false;
      return false;
    }
  }

  /** Two characters tapped in a row, and the second one's 1200 ms timer
      firing while the first still plays: the timeout clears the flag that
      the first clip holds, so the second clip's stale task starts beside it,
      and its retry with the encoded URL waits behind it. */
  method OverlappingClips(ua: string, hasSpeech: bool, encode: string -> string)
    returns (first: Option<Task>, second: Option<Task>, afterTimeout: seq<Task>,
             holder: AttemptState, stale: AttemptState, waiting: seq<Task>, busy: bool)
    ensures first == Some(ClipTask(0)) && second == None
    ensures afterTimeout == [ClipTask(1)]
    ensures holder == FreshAttempt && !holder.finishedOrFailed
    ensures stale.finishedOrFailed
    ensures waiting == [ClipTask(2)] && busy
  {
    var m := new AudioManager(ua, hasSpeech, encode);
    first := m.PlayCharacterSound("山");
    second := m.PlayCharacterSound("水");
    afterTimeout := m.OnClipEvent(1, Timeout);
    holder := m.attempts[0].state;
    stale := m.attempts[1].state;
    waiting := m.speechQueue;
    busy := m.isSpeaking;
  }

  /** Prefetching the same character twice before its first load finishes
      starts a second load: the cache is filled only by `canplaythrough`. */
  method RepeatedPrefetch(ua: string, hasSpeech: bool, encode: string -> string)
    returns (loads: seq<PrefetchLoad>)
    ensures |loads| == 2 && loads[0] == loads[1]
  {
    var m := new AudioManager(ua, hasSpeech, encode);
    ghost var one := [PrefetchLoad("山", CharacterUrl(encode("山")))];
    assert m.PrefetchRequests(["山"]) == one by {
      var req := Prefetch.Requested(["山"], {});
      assert req == ["山"] by {
        Prefetch.RequestedSpec(["山"], {});
        assert "山" in req;
      }
      assert m.LoadsFor(["山"]) == one by { assert ["山"][..0] == []; }
    }
    m.PrefetchCharacters(["山"]);
    assert m.prefetchLoads == one;
    m.PrefetchCharacters(["山"]);
    loads := m.prefetchLoads;
  }
}
