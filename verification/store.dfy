/** The application store: the exam in progress and the player's progress.
    The progress is a JavaScript object whose `unlockedStages` array and
    `stageRecords` object are shared by every shallow copy (`{...p}`) of it,
    so they are modelled as objects of their own. */
module Store {
  import opened Wrappers
  import opened Random
  import opened Catalog
  import Exam

  /** The four screens. */
  datatype Page = HomePage | LearningPage | ExamPage | ResultPage

  /** The best result on a stage, its number of attempts, the time of the
      last one and whether the stage was ever passed. */
  datatype StageRecord = StageRecord(bestScore: int, attempts: int, lastPlayTime: string, isPassed: bool)

  datatype Settings = Settings(volume: real, backgroundMusic: bool, soundEffects: bool)

  /** The highest stage there is. */
  const LastStage := 25

  /** The pass mark of an exam. */
  const PassMark := 60

  /** The points of a correct answer. */
  const PointsPerQuestion := 10

  /** The contents of a progress object, as a value. */
  datatype ProgressValue = ProgressValue(
    currentStage: int,
    unlockedStages: seq<int>,
    stageRecords: map<int, StageRecord>,
    totalPlayTime: int,
    settings: Settings)

  /** `defaultProgress` as a value: stage 1 current and the only one
      unlocked, no records. */
  const DefaultValue := ProgressValue(1, [1], map[], 0, Settings(0.8, true, true))

  /** The record after one more exam on the stage, scoring `score`, at time
      `now`. */
  function NewRecord(existing: Option<StageRecord>, score: int, now: string): (r: StageRecord)
    ensures var prior := if existing.Some? then existing.value.bestScore else 0;
            r.bestScore >= prior && r.bestScore >= score && (r.bestScore == prior || r.bestScore == score)
    ensures r.attempts == (if existing.Some? then existing.value.attempts else 0) + 1
    ensures r.isPassed <==> (existing.Some? && existing.value.isPassed) || score >= PassMark
    ensures r.lastPlayTime == now
  {
    var best := if existing.Some? then existing.value.bestScore else 0;
    var attempts := if existing.Some? then existing.value.attempts else 0;
    var passed := existing.Some? && existing.value.isPassed;
    StageRecord(if best > score then best else score, attempts + 1, now, passed || score >= PassMark)
  }

  /** The record of a stage after exams scoring `scores`, in order. */
  function RecordAfter(scores: seq<int>, now: string): Option<StageRecord>
    decreases |scores|
  {
    if scores == [] then None
    else Some(NewRecord(RecordAfter(scores[..|scores| - 1], now), scores[|scores| - 1], now))
  }

  /** After a series of exams (with scores from 0 up), the record holds the
      best score of the series, the number of exams, and whether any of them
      was passed. */
  lemma {:induction false} RecordHistory(scores: seq<int>, now: string)
    requires forall k | 0 <= k < |scores| :: scores[k] >= 0
    ensures RecordAfter(scores, now).None? <==> scores == []
    ensures RecordAfter(scores, now).Some? ==>
              var r := RecordAfter(scores, now).value;
              && r.attempts == |scores|
              && r.bestScore in scores
              && (forall k | 0 <= k < |scores| :: scores[k] <= r.bestScore)
              && (r.isPassed <==> exists k | 0 <= k < |scores| :: scores[k] >= PassMark)
    decreases |scores|
  {
    if scores != [] {
      var init := scores[..|scores| - 1];
      var last := scores[|scores| - 1];
      assert scores == init + [last];
      RecordHistory(init, now);
      if init != [] {
        var prev := RecordAfter(init, now).value;
        assert prev.bestScore in scores;
        if prev.isPassed {
          var k :| 0 <= k < |init| && init[k] >= PassMark;
          assert scores[k] >= PassMark;
        }
      }
    }
  }

  /** `unlockedStages` after unlocking stage `next`: appended when it exists
      and is not yet unlocked. */
  function Unlock(items: seq<int>, next: int): (r: seq<int>)
    ensures forall x :: x in r <==> x in items || (x == next && next <= LastStage)
    ensures next <= LastStage ==> next in r
    ensures items <= r && |r| <= |items| + 1
  {
    if next <= LastStage && next !in items then items + [next] else items
  }

  predicate NoDuplicates(items: seq<int>) {
    forall i, j | 0 <= i < j < |items| :: items[i] != items[j]
  }

  /** Unlocking never lists a stage twice. */
  lemma UnlockKeepsDistinct(items: seq<int>, next: int)
    requires NoDuplicates(items)
    ensures NoDuplicates(Unlock(items, next))
  {
  }

  /** Unlocking is idempotent: a second unlock of the same stage changes
      nothing. */
  lemma UnlockIdempotent(items: seq<int>, next: int)
    ensures Unlock(Unlock(items, next), next) == Unlock(items, next)
  {
  }

  /** A question after the answer `id`. */
  function Answer(q: Exam.ExamQuestion, id: int): (r: Exam.ExamQuestion)
    ensures r.userAnswer == Some(id)
    ensures r.isCorrect == Some(id == q.correctCharacter.id)
    ensures r.questionNumber == q.questionNumber && r.correctCharacter == q.correctCharacter && r.options == q.options
  {
    q.(userAnswer := Some(id), isCorrect := Some(id == q.correctCharacter.id))
  }

  /** The number of questions answered correctly. */
  function CorrectCount(qs: seq<Exam.ExamQuestion>): (n: nat)
    ensures n <= |qs|
    decreases |qs|
  {
    if qs == [] then 0
    else CorrectCount(qs[..|qs| - 1]) + (if qs[|qs| - 1].isCorrect == Some(true) then 1 else 0)
  }

  /** The score the questions `qs` are worth. */
  function Score(qs: seq<Exam.ExamQuestion>): int {
    PointsPerQuestion * CorrectCount(qs)
  }

  /** The score after answering question `index`: ten more exactly when the
      answer is right. */
  function ScoreAfter(score: int, q: Exam.ExamQuestion, id: int): (s: int)
    ensures s == score + PointsPerQuestion <==> id == q.correctCharacter.id
    ensures s == score <==> id != q.correctCharacter.id
  {
    if id == q.correctCharacter.id then score + PointsPerQuestion else score
  }

  /** Answering the questions in order keeps the score equal to ten points
      per correct answer so far. */
  lemma {:induction false} AnswerKeepsScore(exam: seq<Exam.ExamQuestion>, index: nat, id: int, score: int)
    requires index < |exam| && score == Score(exam[..index])
    ensures ScoreAfter(score, exam[index], id) == Score(exam[index := Answer(exam[index], id)][..index + 1])
  {
    var answered := exam[index := Answer(exam[index], id)];
    assert answered[..index + 1][..index] == exam[..index];
  }

  /** A score is between nothing and ten points per question. */
  lemma ScoreBounds(qs: seq<Exam.ExamQuestion>)
    ensures 0 <= Score(qs) <= PointsPerQuestion * |qs|
  {
  }

  /** The list of unlocked stages: a JavaScript array, updated in place by
      `push`. */
  class StageList {
    var items: seq<int>

    constructor (items: seq<int>)
      ensures this.items == items
    {
      this.items := items;
    }
  }

  /** The stage records: a JavaScript object, updated in place by
      assignment to a key. */
  class RecordTable {
    var entries: map<int, StageRecord>

    constructor (entries: map<int, StageRecord>)
      ensures this.entries == entries
    {
      this.entries := entries;
    }
  }

  /** A progress object. Its list and table are references: a shallow copy
      shares them. */
  class Progress {
    var currentStage: int
    const unlockedStages: StageList
    const stageRecords: RecordTable
    const totalPlayTime: int
    const settings: Settings

    constructor (v: ProgressValue)
      ensures Value() == v
      ensures fresh(unlockedStages) && fresh(stageRecords)
    {
      currentStage := v.currentStage;
      unlockedStages := new StageList(v.unlockedStages);
      stageRecords := new RecordTable(v.stageRecords);
      totalPlayTime := v.totalPlayTime;
      settings := v.settings;
    }

    /** `{ ...p }`. */
    constructor Copy(p: Progress)
      ensures currentStage == p.currentStage
      ensures unlockedStages == p.unlockedStages && stageRecords == p.stageRecords
      ensures totalPlayTime == p.totalPlayTime && settings == p.settings
    {
      currentStage := p.currentStage;
      unlockedStages := p.unlockedStages;
      stageRecords := p.stageRecords;
      totalPlayTime := p.totalPlayTime;
      settings := p.settings;
    }

    function Value(): ProgressValue
      reads this, unlockedStages, stageRecords
    {
      ProgressValue(currentStage, unlockedStages.items, stageRecords.entries, totalPlayTime, settings)
    }
  }

  /** What an answer leaves to do once its 1.5 s feedback delay is over:
      show the next question (with the exam, index and score captured when
      the answer was given), or complete the exam. */
  datatype Deferred = AdvanceTo(exam: seq<Exam.ExamQuestion>, index: nat, score: int) | CompleteLater

  class AppStore {
    const defaultProgress: Progress
    var userProgress: Progress
    var currentPage: Page
    var currentStageId: Option<int>
    var currentExam: Option<seq<Exam.ExamQuestion>>
    var currentExamIndex: nat
    var currentScore: int
    const charactersData: CharactersData

    /** The initial state. With no saved progress the player's progress IS
        the default progress object, not a copy of it. */
    constructor (saved: Option<ProgressValue>, data: CharactersData)
      ensures fresh(defaultProgress) && fresh(defaultProgress.unlockedStages) && fresh(defaultProgress.stageRecords)
      ensures defaultProgress.Value() == DefaultValue
      ensures saved.None? ==> userProgress == defaultProgress
      ensures saved.Some? ==> fresh(userProgress) && fresh(userProgress.unlockedStages) && fresh(userProgress.stageRecords)
                              && userProgress.Value() == saved.value
      ensures currentPage == HomePage && currentStageId == None && currentExam == None
      ensures currentExamIndex == 0 && currentScore == 0 && charactersData == data
    {
      defaultProgress := new Progress(DefaultValue);
      if saved.None? {
        userProgress := defaultProgress;
      } else {
        userProgress := new Progress(saved.value);
      }
      currentPage := HomePage;
      currentStageId := None;
      currentExam := None;
      currentExamIndex := 0;
      currentScore := 0;
      charactersData := data;
    }

    /** `startExam`: a generated exam replaces the current one, from the
        first question with no points; when generation fails (it throws)
        nothing changes. */
    method StartExam(stageId: int, rand: nat -> Draws, orders: nat -> Draws, limit: nat)
      returns (r: Result<seq<Exam.ExamQuestion>, Exam.ExamError>)
      modifies this`currentPage, this`currentStageId, this`currentExam, this`currentExamIndex, this`currentScore
      ensures r == Exam.ExamFor(stageId, charactersData, rand, orders, limit)
      ensures r.Failure? ==> unchanged(this)
      ensures r.Success? ==>
                && currentPage == ExamPage && currentStageId == Some(stageId) && currentExam == Some(r.value)
                && currentExamIndex == 0 && currentScore == 0
    {
      r := Exam.GenerateExamQuestions(stageId, charactersData, rand, orders, limit);
      if r.Success? {
        currentPage := ExamPage;
        currentStageId := Some(stageId);
        currentExam := Some(r.value);
        currentExamIndex := 0;
        currentScore := 0;
      }
    }

    /** `answerQuestion`. The current question records the answer at once
        (the source mutates it in place). After the last question the score
        is updated at once and completing the exam is deferred; after any
        other the move to the next question, with the new score, is
        deferred. With no exam, or past its end, nothing happens. */
    method AnswerQuestion(characterId: int) returns (d: Option<Deferred>)
      modifies this`currentExam, this`currentScore
      ensures old(currentExam).None? || currentExamIndex >= |old(currentExam).value| ==>
                d.None? && unchanged(this)
      ensures old(currentExam).Some? && currentExamIndex < |old(currentExam).value| ==>
                var exam := old(currentExam).value;
                var answered := exam[currentExamIndex := Answer(exam[currentExamIndex], characterId)];
                var newScore := ScoreAfter(old(currentScore), exam[currentExamIndex], characterId);
                && currentExam == Some(answered)
                && (currentExamIndex == |exam| - 1 ==> currentScore == newScore && d == Some(CompleteLater))
                && (currentExamIndex < |exam| - 1 ==>
                      currentScore == old(currentScore) && d == Some(AdvanceTo(answered, currentExamIndex + 1, newScore)))
    {
      if currentExam.None? || currentExamIndex >= |currentExam.value| {
        return None;
      }
      var exam := currentExam.value;
      var question := exam[currentExamIndex];
      var answered := exam[currentExamIndex := Answer(question, characterId)];
      var newScore := ScoreAfter(currentScore, question, characterId);
      currentExam := Some(answered);
      if currentExamIndex == |exam| - 1 {
        currentScore := newScore;
        d := Some(CompleteLater);
      } else {
        d := Some(AdvanceTo(answered, currentExamIndex + 1, newScore));
      }
    }

    /** The end of an answer's feedback delay: a deferred move shows the
        exam, index and score it captured and touches nothing else; a
        deferred completion is `completeExam` and nothing more. */
    method FireDeferred(d: Deferred, now: string)
      modifies this, userProgress, userProgress.unlockedStages, userProgress.stageRecords
      ensures currentStageId == old(currentStageId)
      ensures d.AdvanceTo? ==>
                && currentExam == Some(d.exam) && currentExamIndex == d.index && currentScore == d.score
                && currentPage == old(currentPage) && userProgress == old(userProgress)
                && unchanged(userProgress, userProgress.unlockedStages, userProgress.stageRecords)
      ensures d.CompleteLater? ==>
                && currentExam == old(currentExam) && currentExamIndex == old(currentExamIndex)
                && currentScore == old(currentScore)
                && Completed(old(userProgress), now)
    {
      match d
      case AdvanceTo(exam, index, score) =>
        currentExam := Some(exam);
        currentExamIndex := index;
        currentScore := score;
      case CompleteLater =>
        CompleteExam(now);
    }

    /** What `completeExam` at time `now` leaves behind. Without a stage (no
        id, or id 0) nothing changes. Otherwise the stage's record is
        updated, a pass unlocks and selects the next existing stage in the
        shared list (and on the `prior` progress object, which the copy
        replaces), the result page is shown, and the progress object is a
        fresh shallow copy that shares the list and the table. */
    twostate predicate Completed(prior: Progress, now: string)
      reads this, userProgress, userProgress.unlockedStages, userProgress.stageRecords, prior
    {
      prior == old(userProgress) &&
      if old(currentStageId).None? || old(currentStageId) == Some(0) then
        && userProgress == old(userProgress) && currentPage == old(currentPage)
        && unchanged(userProgress, userProgress.unlockedStages, userProgress.stageRecords)
      else
        var sid := old(currentStageId).value;
        var records := old(userProgress.stageRecords.entries);
        var existing := if sid in records then Some(records[sid]) else None;
        var passed := old(currentScore) >= PassMark;
        var items := old(userProgress.unlockedStages.items);
        var unlocks := passed && sid < LastStage && sid + 1 !in items;
        && fresh(userProgress)
        && userProgress.unlockedStages == old(userProgress.unlockedStages)
        && userProgress.stageRecords == old(userProgress.stageRecords)
        && userProgress.stageRecords.entries == records[sid := NewRecord(existing, old(currentScore), now)]
        && userProgress.unlockedStages.items == (if passed && sid < LastStage then Unlock(items, sid + 1) else items)
        && userProgress.currentStage == (if unlocks then sid + 1 else old(userProgress.currentStage))
        && prior.currentStage == userProgress.currentStage
        && userProgress.totalPlayTime == old(userProgress.totalPlayTime)
        && userProgress.settings == old(userProgress.settings)
        && currentPage == ResultPage
    }

    /** `completeExam`, at time `now`. */
    method CompleteExam(now: string)
      modifies this`userProgress, this`currentPage
      modifies userProgress, userProgress.unlockedStages, userProgress.stageRecords
      ensures Completed(old(userProgress), now)
    {
      if currentStageId.None? || currentStageId.value == 0 {
        return;
      }
      var sid := currentStageId.value;
      var isPassed := currentScore >= PassMark;
      var table := userProgress.stageRecords;
      var existing := if sid in table.entries then Some(table.entries[sid]) else None;
      table.entries := table.entries[sid := NewRecord(existing, currentScore, now)];
      var list := userProgress.unlockedStages;
      if isPassed && sid < LastStage {
        if sid + 1 !in list.items {
          list.items := list.items + [sid + 1];
          userProgress.currentStage := sid + 1;
        }
      }
      currentPage := ResultPage;
      userProgress := new Progress.Copy(userProgress);
    }

    /** `unlockNextStage`: when stage `stageId + 1` exists and is locked, it
        is appended to the list and made current, and the progress object is
        replaced by a shallow copy; otherwise nothing changes. */
    method UnlockNextStage(stageId: int)
      modifies this`userProgress, userProgress, userProgress.unlockedStages
      ensures var next := stageId + 1;
              var items := old(userProgress.unlockedStages.items);
              if next <= LastStage && next !in items then
                && fresh(userProgress)
                && userProgress.unlockedStages == old(userProgress.unlockedStages)
                && userProgress.stageRecords == old(userProgress.stageRecords)
                && userProgress.unlockedStages.items == Unlock(items, next)
                && userProgress.currentStage == next && old(userProgress).currentStage == next
                && userProgress.totalPlayTime == old(userProgress.totalPlayTime)
                && userProgress.settings == old(userProgress.settings)
              else
                userProgress == old(userProgress) && unchanged(userProgress, userProgress.unlockedStages)
    {
      var next := stageId + 1;
      if next <= LastStage && next !in userProgress.unlockedStages.items {
        var list := userProgress.unlockedStages;
        list.items := list.items + [next];
        userProgress.currentStage := next;
        userProgress := new Progress.Copy(userProgress);
      }
    }

    /** `resetProgress`, once the player has answered the confirmation
        (`confirmed`). The new progress is a shallow copy of the default
        progress object: it shares that object's list and table, and holds
        whatever they hold at this point. */
    method ResetProgress(confirmed: bool)
      modifies this`userProgress, this`currentPage, this`currentStageId, this`currentExam
      modifies this`currentExamIndex, this`currentScore
      ensures !confirmed ==> unchanged(this)
      ensures confirmed ==>
                && fresh(userProgress)
                && userProgress.unlockedStages == defaultProgress.unlockedStages
                && userProgress.stageRecords == defaultProgress.stageRecords
                && userProgress.Value() == defaultProgress.Value()
                && currentPage == HomePage && currentStageId == None && currentExam == None
                && currentExamIndex == 0 && currentScore == 0
    {
      if confirmed {
        userProgress := new Progress.Copy(defaultProgress);
        currentPage := HomePage;
        currentStageId := None;
        currentExam := None;
        currentExamIndex := 0;
        currentScore := 0;
      }
    }

    /** `resetProgress` as evidently intended: the progress becomes a new
        object with its own list and table, holding the default values. */
    method ResetProgressFresh(confirmed: bool)
      modifies this`userProgress, this`currentPage, this`currentStageId, this`currentExam
      modifies this`currentExamIndex, this`currentScore
      ensures !confirmed ==> unchanged(this)
      ensures confirmed ==>
                && fresh(userProgress) && fresh(userProgress.unlockedStages) && fresh(userProgress.stageRecords)
                && userProgress.Value() == DefaultValue
                && currentPage == HomePage && currentStageId == None && currentExam == None
                && currentExamIndex == 0 && currentScore == 0
    {
      if confirmed {
        userProgress := new Progress(DefaultValue);
        currentPage := HomePage;
        currentStageId := None;
        currentExam := None;
        currentExamIndex := 0;
        currentScore := 0;
      }
    }
  }

  /** With no saved progress, unlocking stage 2 and then resetting leaves
      stage 2 unlocked: the unlock pushed onto the default progress's own
      list, which the reset then shares. */
  method ResetAfterUnlockKeepsStage(data: CharactersData) returns (stages: seq<int>, current: int)
    ensures stages == [1, 2] && current == 2
  {
    var store := new AppStore(None, data);
    store.UnlockNextStage(1);
    store.ResetProgress(true);
    stages := store.userProgress.unlockedStages.items;
    current := store.userProgress.currentStage;
  }

  /** Saved progress does not avoid it: after one reset the progress shares
      the default list, so the next unlock lands in it and survives the
      next reset. */
  method SecondResetKeepsStage(saved: ProgressValue, data: CharactersData) returns (stages: seq<int>)
    ensures stages == [1, 2]
  {
    var store := new AppStore(Some(saved), data);
    store.ResetProgress(true);
    store.UnlockNextStage(1);
    store.ResetProgress(true);
    stages := store.userProgress.unlockedStages.items;
  }

  /** The same steps with the corrected reset restore the defaults. */
  method ResetAfterUnlockRestoresDefaults(data: CharactersData) returns (stages: seq<int>, current: int)
    ensures stages == [1] && current == 1
  {
    var store := new AppStore(None, data);
    store.UnlockNextStage(1);
    store.ResetProgressFresh(true);
    stages := store.userProgress.unlockedStages.items;
    current := store.userProgress.currentStage;
  }
}
