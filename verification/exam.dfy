/** `generateExamQuestions`: one question per character of a stage, each with
    the character and three distractors of other ids drawn from the whole
    database, in a random order. */
module Exam {
  import opened Wrappers
  import opened Random
  import opened Catalog
  import Helpers

  datatype ExamQuestion = ExamQuestion(
    questionNumber: int,
    correctCharacter: Character,
    options: seq<Character>,
    userAnswer: Option<int>,
    isCorrect: Option<bool>)

  /** Why no exam is produced: the stage id is unknown (the source throws);
      the pool is empty (reading the id of the undefined draw throws); or the
      distractor loop used up its draw budget (the source would keep drawing
      for ever). */
  datatype ExamError = StageNotFound(stageId: int) | EmptyPool | DrawBudgetExhausted

  /** The ids of a list of characters. */
  function Ids(cs: seq<Character>): set<int> {
    set k | 0 <= k < |cs| :: cs[k].id
  }

  predicate DistinctIds(cs: seq<Character>) {
    forall i, j | 0 <= i < j < |cs| :: cs[i].id != cs[j].id
  }

  /** `allCharacters`: every character, pushed level by level and stage by
      stage. */
  method CollectCharacters(data: CharactersData) returns (pool: seq<Character>)
    ensures pool == AllCharacters(data)
  {
    var levels := data.levels;
    pool := [];
    for li := 0 to |levels|
      invariant pool == CharactersOf(StagesOf(levels[..li]))
    {
      var stages := levels[li].stages;
      for si := 0 to |stages|
        invariant pool == CharactersOf(StagesOf(levels[..li])) + CharactersOf(stages[..si])
      {
        assert pool + stages[si].characters
               == CharactersOf(StagesOf(levels[..li])) + CharactersOf(stages[..si + 1]) by {
          CharactersOfSnoc(stages, si);
        }
        pool := pool + stages[si].characters;
      }
      assert pool == CharactersOf(StagesOf(levels[..li + 1])) by {
        assert stages[..|stages|] == stages;
        StagesOfSnoc(levels, li);
        CharactersOfAppend(StagesOf(levels[..li]), stages);
      }
    }
    assert levels[..|levels|] == levels;
  }

  lemma CharactersOfSnoc(stages: seq<Stage>, si: nat)
    requires si < |stages|
    ensures CharactersOf(stages[..si + 1]) == CharactersOf(stages[..si]) + stages[si].characters
  {
    assert stages[..si + 1] == stages[..si] + [stages[si]];
    CharactersOfAppend(stages[..si], [stages[si]]);
  }

  lemma StagesOfSnoc(levels: seq<Level>, li: nat)
    requires li < |levels|
    ensures StagesOf(levels[..li + 1]) == StagesOf(levels[..li]) + levels[li].stages
  {
    assert levels[..li + 1] == levels[..li] + [levels[li]];
    StagesOfAppend(levels[..li], [levels[li]]);
    assert StagesOf([levels[li]]) == levels[li].stages + StagesOf([]);
  }

  /** The distractor loop from draw number `k` on, with `picked` chosen so
      far and the ids in `used` excluded; at most `limit` draws in all. */
  function DrawLoop(pool: seq<Character>, draws: Draws, k: nat, limit: nat, picked: seq<Character>, used: set<int>)
    : Result<seq<Character>, ExamError>
    decreases limit - k
  {
    if |picked| >= 3 then Success(picked)
    else if |pool| == 0 then Failure(EmptyPool)
    else if k >= limit then Failure(DrawBudgetExhausted)
    else
      var c := pool[RandomIndex(draws(k), |pool|)];
      var taken := c.id !in used;
      DrawLoop(pool, draws, k + 1, limit, if taken then picked + [c] else picked, if taken then used + {c.id} else used)
  }

  /** The three distractors the draws `draws` give the question on `correct`. */
  function DrawDistractors(pool: seq<Character>, correct: Character, draws: Draws, limit: nat)
    : Result<seq<Character>, ExamError>
  {
    DrawLoop(pool, draws, 0, limit, [], {correct.id})
  }

  /** The loop of `generateExamQuestions` that fills `distractors`, with a
      budget of `limit` draws. */
  method PickDistractors(pool: seq<Character>, correct: Character, draws: Draws, limit: nat)
    returns (r: Result<seq<Character>, ExamError>)
    ensures r == DrawDistractors(pool, correct, draws, limit)
  {
    var distractors: seq<Character> := [];
    var usedIds: set<int> := {correct.id};
    var k := 0;
    while |distractors| < 3
      invariant DrawLoop(pool, draws, k, limit, distractors, usedIds) == DrawDistractors(pool, correct, draws, limit)
      decreases limit - k
    {
      if |pool| == 0 {
        return Failure(EmptyPool);
      }
      if k >= limit {
        return Failure(DrawBudgetExhausted);
      }
      var c := pool[RandomIndex(draws(k), |pool|)];
      if c.id !in usedIds {
        distractors := distractors + [c];
        usedIds := usedIds + {c.id};
      }
      k := k + 1;
    }
    r := Success(distractors);
  }

  /** What the loop keeps: the picked characters come from the pool, have
      distinct ids, and their ids together with the correct one are the used
      ids. */
  predicate LoopInvariant(pool: seq<Character>, correct: Character, picked: seq<Character>, used: set<int>) {
    && used == {correct.id} + Ids(picked)
    && correct.id !in Ids(picked)
    && DistinctIds(picked)
    && (forall c | c in picked :: c in pool)
    && |picked| <= 3
  }

  lemma {:induction false} DrawLoopSpec(pool: seq<Character>, correct: Character, draws: Draws, k: nat, limit: nat,
                                        picked: seq<Character>, used: set<int>)
    requires LoopInvariant(pool, correct, picked, used)
    ensures DrawLoop(pool, draws, k, limit, picked, used).Success? ==>
              LoopInvariant(pool, correct, DrawLoop(pool, draws, k, limit, picked, used).value, used + Ids(DrawLoop(pool, draws, k, limit, picked, used).value))
              && |DrawLoop(pool, draws, k, limit, picked, used).value| == 3
    decreases limit - k
  {
    if |picked| < 3 && |pool| > 0 && k < limit {
      var c := pool[RandomIndex(draws(k), |pool|)];
      if c.id !in used {
        var next := picked + [c];
        assert Ids(next) == Ids(picked) + {c.id} by {
          forall x | x in Ids(next) ensures x in Ids(picked) + {c.id} {
            var m :| 0 <= m < |next| && next[m].id == x;
            if m < |picked| {
              assert picked[m] == next[m];
            }
          }
          forall x | x in Ids(picked) ensures x in Ids(next) {
            var m :| 0 <= m < |picked| && picked[m].id == x;
            assert next[m] == picked[m];
          }
          assert next[|picked|] == c;
        }
        assert DistinctIds(next) by {
          forall i, j | 0 <= i < j < |next| ensures next[i].id != next[j].id {
            if j == |picked| {
              assert next[i].id in Ids(picked) by {
                assert next[i] == picked[i];
              }
            }
          }
        }
        DrawLoopSpec(pool, correct, draws, k + 1, limit, next, used + {c.id});
      } else {
        DrawLoopSpec(pool, correct, draws, k + 1, limit, picked, used);
      }
    }
  }

  /** A successful draw gives three characters of the pool with pairwise
      different ids, none of them the id of the correct character. */
  lemma DrawDistractorsSpec(pool: seq<Character>, correct: Character, draws: Draws, limit: nat)
    ensures DrawDistractors(pool, correct, draws, limit).Success? ==>
              var ds := DrawDistractors(pool, correct, draws, limit).value;
              |ds| == 3 && DistinctIds(ds) && correct.id !in Ids(ds) && forall c | c in ds :: c in pool
  {
    assert Ids([]) == {};
    DrawLoopSpec(pool, correct, draws, 0, limit, [], {correct.id});
  }

  /** One draw that picks a character whose id is not yet used adds it. */
  lemma DrawLoopTakes(pool: seq<Character>, draws: Draws, k: nat, limit: nat, picked: seq<Character>, used: set<int>, i: nat)
    requires |picked| < 3 && k < limit && i < |pool| && RandomIndex(draws(k), |pool|) == i && pool[i].id !in used
    ensures DrawLoop(pool, draws, k, limit, picked, used)
         == DrawLoop(pool, draws, k + 1, limit, picked + [pool[i]], used + {pool[i].id})
  {
  }

  /** Any three characters of the pool with different ids, other than the
      correct one's, can be drawn, in three draws. */
  lemma DistractorsReachable(pool: seq<Character>, correct: Character, a: nat, b: nat, c: nat, limit: nat)
    requires a < |pool| && b < |pool| && c < |pool| && limit >= 3
    requires pool[a].id != correct.id && pool[b].id != correct.id && pool[c].id != correct.id
    requires pool[a].id != pool[b].id && pool[a].id != pool[c].id && pool[b].id != pool[c].id
    ensures exists draws: Draws :: DrawDistractors(pool, correct, draws, limit) == Success([pool[a], pool[b], pool[c]])
  {
    var draws := ThreeDraws(a, b, c, |pool|);
    var u0 := {correct.id};
    var u1 := u0 + {pool[a].id};
    var u2 := u1 + {pool[b].id};
    DrawLoopTakes(pool, draws, 0, limit, [], u0, a);
    DrawLoopTakes(pool, draws, 1, limit, [pool[a]], u1, b);
    DrawLoopTakes(pool, draws, 2, limit, [pool[a], pool[b]], u2, c);
    assert [] + [pool[a]] == [pool[a]];
    assert [pool[a]] + [pool[b]] == [pool[a], pool[b]];
    assert [pool[a], pool[b]] + [pool[c]] == [pool[a], pool[b], pool[c]];
    assert DrawDistractors(pool, correct, draws, limit) == Success([pool[a], pool[b], pool[c]]);
  }

  /** Draws whose first three picks, out of `n`, are positions `a`, `b` and
      `c`. */
  function ThreeDraws(a: nat, b: nat, c: nat, n: nat): (draws: Draws)
    requires a < n && b < n && c < n
    ensures RandomIndex(draws(0), n) == a && RandomIndex(draws(1), n) == b && RandomIndex(draws(2), n) == c
  {
    RandomIndexCovers(a, n);
    RandomIndexCovers(b, n);
    RandomIndexCovers(c, n);
    var ra: Unit, rb: Unit, rc: Unit := a as real / n as real, b as real / n as real, c as real / n as real;
    (k: nat) => if k == 0 then ra else if k == 1 then rb else rc
  }

  /** The question on `correct`, numbered `index + 1`: its options are the
      correct character and the distractors, in the order the draws `order`
      give them. */
  function QuestionFor(correct: Character, index: nat, pool: seq<Character>, draws: Draws, order: Draws, limit: nat)
    : Result<ExamQuestion, ExamError>
  {
    var ds := DrawDistractors(pool, correct, draws, limit);
    if ds.Failure? then Failure(ds.error)
    else Success(ExamQuestion(index + 1, correct, Helpers.Shuffled([correct] + ds.value, order), None, None))
  }

  /** The questions on the first `n` characters, or the first failure. */
  function QuestionsUpTo(cs: seq<Character>, n: nat, pool: seq<Character>, rand: nat -> Draws, orders: nat -> Draws, limit: nat)
    : Result<seq<ExamQuestion>, ExamError>
    requires n <= |cs|
  {
    if n == 0 then Success([])
    else
      var earlier := QuestionsUpTo(cs, n - 1, pool, rand, orders, limit);
      if earlier.Failure? then earlier
      else
        var q := QuestionFor(cs[n - 1], n - 1, pool, rand(n - 1), orders(n - 1), limit);
        if q.Failure? then Failure(q.error) else Success(earlier.value + [q.value])
  }

  /** The exam for `stageId`; question `i` uses the draws `rand(i)` for its
      distractors and `orders(i)` for the order of its options. */
  function ExamFor(stageId: int, data: CharactersData, rand: nat -> Draws, orders: nat -> Draws, limit: nat)
    : Result<seq<ExamQuestion>, ExamError>
  {
    var found := GetStageById(stageId, data);
    if found.None? then Failure(StageNotFound(stageId))
    else
      var cs := found.value.characters;
      QuestionsUpTo(cs, |cs|, AllCharacters(data), rand, orders, limit)
  }

  /** The body of the `map` callback of `generateExamQuestions`. */
  method BuildQuestion(correct: Character, index: nat, pool: seq<Character>, draws: Draws, order: Draws, limit: nat)
    returns (r: Result<ExamQuestion, ExamError>)
    ensures r == QuestionFor(correct, index, pool, draws, order, limit)
  {
    var distractors := PickDistractors(pool, correct, draws, limit);
    if distractors.Failure? {
      return Failure(distractors.error);
    }
    var options := Helpers.Shuffled([correct] + distractors.value, order);
    r := Success(ExamQuestion(index + 1, correct, options, None, None));
  }

  /** `generateExamQuestions`. */
  method GenerateExamQuestions(stageId: int, data: CharactersData, rand: nat -> Draws, orders: nat -> Draws, limit: nat)
    returns (r: Result<seq<ExamQuestion>, ExamError>)
    ensures r == ExamFor(stageId, data, rand, orders, limit)
  {
    var found := GetStageById(stageId, data);
    if found.None? {
      return Failure(StageNotFound(stageId));
    }
    var pool := CollectCharacters(data);
    r := BuildQuestions(found.value.characters, pool, rand, orders, limit);
  }

  /** The `map` over the stage's characters: one question per character, in
      order, or the first failure. */
  method BuildQuestions(cs: seq<Character>, pool: seq<Character>, rand: nat -> Draws, orders: nat -> Draws, limit: nat)
    returns (r: Result<seq<ExamQuestion>, ExamError>)
    ensures r == QuestionsUpTo(cs, |cs|, pool, rand, orders, limit)
  {
    var questions: seq<ExamQuestion> := [];
    for i := 0 to |cs|
      invariant QuestionsUpTo(cs, i, pool, rand, orders, limit) == Success(questions)
    {
      var q := BuildQuestion(cs[i], i, pool, rand(i), orders(i), limit);
      QuestionsUpToNext(cs, i, pool, rand, orders, limit, questions);
      if q.Failure? {
        FailureSticks(cs, i + 1, |cs|, pool, rand, orders, limit);
        return Failure(q.error);
      }
      questions := questions + [q.value];
    }
    r := Success(questions);
  }

  /** One more character: its question is appended, or its failure ends
      the exam. */
  lemma QuestionsUpToNext(cs: seq<Character>, i: nat, pool: seq<Character>, rand: nat -> Draws, orders: nat -> Draws,
                          limit: nat, questions: seq<ExamQuestion>)
    requires i < |cs| && QuestionsUpTo(cs, i, pool, rand, orders, limit) == Success(questions)
    ensures var q := QuestionFor(cs[i], i, pool, rand(i), orders(i), limit);
            QuestionsUpTo(cs, i + 1, pool, rand, orders, limit)
            == if q.Failure? then Failure(q.error) else Success(questions + [q.value])
  {
  }

  /** Once a question fails, the exam fails with that question's error. */
  lemma {:induction false} FailureSticks(cs: seq<Character>, n: nat, m: nat, pool: seq<Character>, rand: nat -> Draws,
                                         orders: nat -> Draws, limit: nat)
    requires n <= m <= |cs|
    requires QuestionsUpTo(cs, n, pool, rand, orders, limit).Failure?
    ensures QuestionsUpTo(cs, m, pool, rand, orders, limit) == QuestionsUpTo(cs, n, pool, rand, orders, limit)
    decreases m - n
  {
    if n < m {
      FailureSticks(cs, n + 1, m, pool, rand, orders, limit);
    }
  }

  /** A fresh question on `correct` at position `index`: numbered from one,
      unanswered, with four options of pairwise different ids from the pool,
      the correct character among them. */
  predicate WellFormed(q: ExamQuestion, correct: Character, index: nat, pool: seq<Character>) {
    && q.questionNumber == index + 1
    && q.correctCharacter == correct
    && |q.options| == 4
    && correct in q.options
    && DistinctIds(q.options)
    && (forall o | o in q.options :: o in pool)
    && q.userAnswer.None? && q.isCorrect.None?
  }

  /** In a well-formed question exactly one option carries the id of the
      correct character, and it is that character. */
  lemma CorrectOptionUnique(q: ExamQuestion, correct: Character, index: nat, pool: seq<Character>)
    requires WellFormed(q, correct, index, pool)
    ensures exists k | 0 <= k < |q.options| :: q.options[k] == correct
              && forall m | 0 <= m < |q.options| && m != k :: q.options[m].id != correct.id
  {
    var k :| 0 <= k < |q.options| && q.options[k] == correct;
    forall m | 0 <= m < |q.options| && m != k ensures q.options[m].id != correct.id {
      if m < k {
        assert q.options[m].id != q.options[k].id;
      } else {
        assert q.options[k].id != q.options[m].id;
      }
    }
  }

  /** Swapping positions keeps the ids pairwise different. */
  lemma {:induction false} ShuffleDownKeepsDistinctIds(s: seq<Character>, rand: Draws, i: nat)
    requires i < |s| && DistinctIds(s)
    ensures DistinctIds(Helpers.ShuffleDown(s, rand, i))
    decreases i
  {
    if i > 0 {
      var j := Helpers.SwapIndex(|s|, rand, i);
      var t := Helpers.Swap(s, i, j);
      forall x, y | 0 <= x < y < |t| ensures t[x].id != t[y].id {
        var x' := if x == i then j else if x == j then i else x;
        var y' := if y == i then j else if y == j then i else y;
        assert t[x] == s[x'] && t[y] == s[y'];
        assert x' != y';
      }
      ShuffleDownKeepsDistinctIds(t, rand, i - 1);
    }
  }

  lemma QuestionForSpec(correct: Character, index: nat, pool: seq<Character>, draws: Draws, order: Draws, limit: nat)
    requires correct in pool
    ensures QuestionFor(correct, index, pool, draws, order, limit).Success? <==>
              DrawDistractors(pool, correct, draws, limit).Success?
    ensures QuestionFor(correct, index, pool, draws, order, limit).Success? ==>
              WellFormed(QuestionFor(correct, index, pool, draws, order, limit).value, correct, index, pool)
  {
    var ds := DrawDistractors(pool, correct, draws, limit);
    if ds.Success? {
      DrawDistractorsSpec(pool, correct, draws, limit);
      OptionsWellFormed(correct, ds.value, pool, order);
    }
  }

  /** Shuffling the correct character with three distinct distractors from
      the pool gives four options with distinct ids, all from the pool. */
  lemma OptionsWellFormed(correct: Character, d: seq<Character>, pool: seq<Character>, order: Draws)
    requires correct in pool && |d| == 3 && DistinctIds(d) && correct.id !in Ids(d)
    requires forall c | c in d :: c in pool
    ensures var options := Helpers.Shuffled([correct] + d, order);
              |options| == 4 && correct in options && DistinctIds(options) && forall o | o in options :: o in pool
  {
    var base := [correct] + d;
    assert forall o | o in base :: o in pool;
    Helpers.ShuffledSpec(base, order);
    SameElements(Helpers.Shuffled(base, order), base);
    PrependDistinct(correct, d);
    ShuffleDownKeepsDistinctIds(base, order, |base| - 1);
  }

  /** Sequences with the same multiset have the same elements. */
  lemma SameElements<T>(a: seq<T>, b: seq<T>)
    requires multiset(a) == multiset(b)
    ensures forall x :: x in a <==> x in b
  {
    forall x ensures x in a <==> x in b {
      assert x in a <==> x in multiset(a);
    }
  }

  /** A character whose id is new keeps the ids distinct. */
  lemma PrependDistinct(c: Character, d: seq<Character>)
    requires DistinctIds(d) && c.id !in Ids(d)
    ensures DistinctIds([c] + d)
  {
    var base := [c] + d;
    forall x, y | 0 <= x < y < |base| ensures base[x].id != base[y].id {
      assert base[y] == d[y - 1];
      if x == 0 {
        assert base[y].id in Ids(d);
      } else {
        assert base[x] == d[x - 1];
      }
    }
  }

  /** The questions up to `n` exist exactly when every one of their draws
      succeeds. */
  lemma {:induction false} QuestionsUpToSucceeds(cs: seq<Character>, n: nat, pool: seq<Character>, rand: nat -> Draws,
                                                 orders: nat -> Draws, limit: nat)
    requires n <= |cs|
    ensures QuestionsUpTo(cs, n, pool, rand, orders, limit).Success? <==>
              forall i | 0 <= i < n :: DrawDistractors(pool, cs[i], rand(i), limit).Success?
    decreases n
  {
    if n > 0 {
      QuestionsUpToSucceedsStep(cs, n, pool, rand, orders, limit);
      QuestionsUpToSucceeds(cs, n - 1, pool, rand, orders, limit);
    }
  }

  lemma QuestionsUpToSucceedsStep(cs: seq<Character>, n: nat, pool: seq<Character>, rand: nat -> Draws,
                                  orders: nat -> Draws, limit: nat)
    requires 0 < n <= |cs|
    ensures QuestionsUpTo(cs, n, pool, rand, orders, limit).Success? <==>
              QuestionsUpTo(cs, n - 1, pool, rand, orders, limit).Success?
              && DrawDistractors(pool, cs[n - 1], rand(n - 1), limit).Success?
  {
  }

  /** With a non-empty pool, the only error is the draw budget. */
  lemma {:induction false} QuestionsUpToError(cs: seq<Character>, n: nat, pool: seq<Character>, rand: nat -> Draws,
                                              orders: nat -> Draws, limit: nat)
    requires n <= |cs| && |pool| > 0
    ensures QuestionsUpTo(cs, n, pool, rand, orders, limit).Failure? ==>
              QuestionsUpTo(cs, n, pool, rand, orders, limit).error == DrawBudgetExhausted
    decreases n
  {
    if n > 0 {
      QuestionsUpToError(cs, n - 1, pool, rand, orders, limit);
      DrawLoopFailsOnBudget(pool, rand(n - 1), 0, limit, [], {cs[n - 1].id});
    }
  }

  /** Question `i` is a well-formed question on `cs[i]`. */
  lemma {:induction false} QuestionsUpToWellFormed(cs: seq<Character>, n: nat, pool: seq<Character>, rand: nat -> Draws,
                                                   orders: nat -> Draws, limit: nat)
    requires n <= |cs|
    requires forall c | c in cs :: c in pool
    ensures QuestionsUpTo(cs, n, pool, rand, orders, limit).Success? ==>
              var qs := QuestionsUpTo(cs, n, pool, rand, orders, limit).value;
              |qs| == n && AllWellFormed(qs, cs, pool)
    decreases n
  {
    if n > 0 {
      var earlier := QuestionsUpTo(cs, n - 1, pool, rand, orders, limit);
      if earlier.Success? {
        var e := earlier.value;
        var q := QuestionFor(cs[n - 1], n - 1, pool, rand(n - 1), orders(n - 1), limit);
        QuestionsUpToNext(cs, n - 1, pool, rand, orders, limit, e);
        if q.Success? {
          QuestionsUpToWellFormed(cs, n - 1, pool, rand, orders, limit);
          assert WellFormed(q.value, cs[n - 1], n - 1, pool) by {
            assert cs[n - 1] in cs;
            QuestionForSpec(cs[n - 1], n - 1, pool, rand(n - 1), orders(n - 1), limit);
          }
          WellFormedSnoc(cs, pool, e, q.value);
        }
      }
    }
  }

  /** Question `i` is a well-formed question on character `i`. */
  ghost predicate AllWellFormed(qs: seq<ExamQuestion>, cs: seq<Character>, pool: seq<Character>) {
    |qs| <= |cs| && forall i | 0 <= i < |qs| :: WellFormed(qs[i], cs[i], i, pool)
  }

  lemma WellFormedSnoc(cs: seq<Character>, pool: seq<Character>, qs: seq<ExamQuestion>, q: ExamQuestion)
    requires |qs| < |cs| && AllWellFormed(qs, cs, pool)
    requires WellFormed(q, cs[|qs|], |qs|, pool)
    ensures AllWellFormed(qs + [q], cs, pool)
  {
    forall i | 0 <= i < |qs| + 1 ensures WellFormed((qs + [q])[i], cs[i], i, pool) {
      if i < |qs| {
        assert (qs + [q])[i] == qs[i];
      }
    }
  }

  /** The only way the loop fails is the budget. */
  lemma {:induction false} DrawLoopFailsOnBudget(pool: seq<Character>, draws: Draws, k: nat, limit: nat, picked: seq<Character>, used: set<int>)
    requires |pool| > 0
    ensures DrawLoop(pool, draws, k, limit, picked, used).Failure? ==>
              DrawLoop(pool, draws, k, limit, picked, used).error == DrawBudgetExhausted
    decreases limit - k
  {
    if |picked| < 3 && k < limit {
      var c := pool[RandomIndex(draws(k), |pool|)];
      if c.id in used {
        DrawLoopFailsOnBudget(pool, draws, k + 1, limit, picked, used);
      } else {
        DrawLoopFailsOnBudget(pool, draws, k + 1, limit, picked + [c], used + {c.id});
      }
    }
  }

  /** The exam fails with "stage not found" exactly when no stage has the id.
      Otherwise it has one well-formed question per character of the stage,
      in order, exactly when every question's draws find three distractors,
      and the only other outcome is the draw budget running out. */
  lemma ExamForSpec(stageId: int, data: CharactersData, rand: nat -> Draws, orders: nat -> Draws, limit: nat)
    ensures ExamFor(stageId, data, rand, orders, limit) == Failure(StageNotFound(stageId)) <==>
              GetStageById(stageId, data).None?
    ensures GetStageById(stageId, data).Some? ==>
              var cs := GetStageById(stageId, data).value.characters;
              && (ExamFor(stageId, data, rand, orders, limit).Success? <==>
                    forall i | 0 <= i < |cs| :: DrawDistractors(AllCharacters(data), cs[i], rand(i), limit).Success?)
              && (ExamFor(stageId, data, rand, orders, limit).Failure? ==>
                    ExamFor(stageId, data, rand, orders, limit).error == DrawBudgetExhausted)
              && (ExamFor(stageId, data, rand, orders, limit).Success? ==>
                    var qs := ExamFor(stageId, data, rand, orders, limit).value;
                    |qs| == |cs| && forall i | 0 <= i < |cs| :: WellFormed(qs[i], cs[i], i, AllCharacters(data)))
  {
    var found := GetStageById(stageId, data);
    if found.Some? {
      var cs := found.value.characters;
      GetStageByIdIsFirstMatch(stageId, data);
      StageCharactersInPool(data.levels, found.value);
      QuestionsUpToSucceeds(cs, |cs|, AllCharacters(data), rand, orders, limit);
      QuestionsUpToWellFormed(cs, |cs|, AllCharacters(data), rand, orders, limit);
      if |cs| > 0 {
        assert cs[0] in AllCharacters(data);
        QuestionsUpToError(cs, |cs|, AllCharacters(data), rand, orders, limit);
      }
    }
  }
}
