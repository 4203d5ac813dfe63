/** The character database (levels of stages of characters) and the two
    lookups over it. Each lookup walks the levels in order, and within a level
    the stages (and characters) in order, returning the first match. */
module Catalog {
  import opened Wrappers

  /** A character entry; `glyph` is the entry's `char` field. */
  datatype Character = Character(id: int, glyph: string, pinyin: string, strokes: int, icon: string, category: string)

  datatype Stage = Stage(stageId: int, level: int, stageInLevel: int, name: string, characters: seq<Character>)

  datatype Level = Level(level: int, name: string, strokeRange: string, stages: seq<Stage>)

  /** The database; its metadata block is not part of the model. */
  datatype CharactersData = CharactersData(levels: seq<Level>)

  /** `stages.find(s => s.stageId === id)`. */
  function FindStage(stages: seq<Stage>, id: int): (r: Option<Stage>)
    ensures r.None? <==> forall k | 0 <= k < |stages| :: stages[k].stageId != id
    ensures r.Some? ==> exists k | 0 <= k < |stages| :: stages[k] == r.value && r.value.stageId == id
                          && forall m | 0 <= m < k :: stages[m].stageId != id
    decreases |stages|
  {
    if stages == [] then None
    else if stages[0].stageId == id then Some(stages[0])
    else
      var r := FindStage(stages[1..], id);
      assert forall k | 1 <= k < |stages| :: stages[k] == stages[1..][k - 1];
      if r.Some? then
        var k :| 0 <= k < |stages| - 1 && stages[1..][k] == r.value && r.value.stageId == id
                 && forall m | 0 <= m < k :: stages[1..][m].stageId != id;
        assert stages[k + 1] == r.value;
        r
      else r
  }

  /** `characters.find(c => c.id === id)`. */
  function FindCharacter(cs: seq<Character>, id: int): (r: Option<Character>)
    ensures r.None? <==> forall k | 0 <= k < |cs| :: cs[k].id != id
    ensures r.Some? ==> exists k | 0 <= k < |cs| :: cs[k] == r.value && r.value.id == id
                          && forall m | 0 <= m < k :: cs[m].id != id
    decreases |cs|
  {
    if cs == [] then None
    else if cs[0].id == id then Some(cs[0])
    else
      var r := FindCharacter(cs[1..], id);
      assert forall k | 1 <= k < |cs| :: cs[k] == cs[1..][k - 1];
      if r.Some? then
        var k :| 0 <= k < |cs| - 1 && cs[1..][k] == r.value && r.value.id == id
                 && forall m | 0 <= m < k :: cs[1..][m].id != id;
        assert cs[k + 1] == r.value;
        r
      else r
  }

  /** `getStageById` over a sequence of levels: the first level whose stages
      contain a match decides. */
  function StageInLevels(levels: seq<Level>, id: int): Option<Stage>
    decreases |levels|
  {
    if levels == [] then None
    else
      var found := FindStage(levels[0].stages, id);
      if found.Some? then found else StageInLevels(levels[1..], id)
  }

  function GetStageById(id: int, data: CharactersData): Option<Stage> {
    StageInLevels(data.levels, id)
  }

  /** `getCharacterById` within one level's stages. */
  function CharacterInStages(stages: seq<Stage>, id: int): Option<Character>
    decreases |stages|
  {
    if stages == [] then None
    else
      var found := FindCharacter(stages[0].characters, id);
      if found.Some? then found else CharacterInStages(stages[1..], id)
  }

  function CharacterInLevels(levels: seq<Level>, id: int): Option<Character>
    decreases |levels|
  {
    if levels == [] then None
    else
      var found := CharacterInStages(levels[0].stages, id);
      if found.Some? then found else CharacterInLevels(levels[1..], id)
  }

  function GetCharacterById(id: int, data: CharactersData): Option<Character> {
    CharacterInLevels(data.levels, id)
  }

  /** All stages, in level order and then stage order. */
  function StagesOf(levels: seq<Level>): seq<Stage>
    decreases |levels|
  {
    if levels == [] then [] else levels[0].stages + StagesOf(levels[1..])
  }

  function AllStages(data: CharactersData): seq<Stage> {
    StagesOf(data.levels)
  }

  /** All characters of some stages, in order. */
  function CharactersOf(stages: seq<Stage>): seq<Character>
    decreases |stages|
  {
    if stages == [] then [] else stages[0].characters + CharactersOf(stages[1..])
  }

  /** All characters, in level, stage and character order: the distractor
      pool of an exam. */
  function AllCharacters(data: CharactersData): seq<Character> {
    CharactersOf(AllStages(data))
  }

  lemma {:induction false} FindStageAppend(a: seq<Stage>, b: seq<Stage>, id: int)
    ensures FindStage(a + b, id) == if FindStage(a, id).Some? then FindStage(a, id) else FindStage(b, id)
    decreases |a|
  {
    if a == [] {
      assert a + b == b;
    } else {
      assert (a + b)[0] == a[0] && (a + b)[1..] == a[1..] + b;
      FindStageAppend(a[1..], b, id);
    }
  }

  lemma {:induction false} FindCharacterAppend(a: seq<Character>, b: seq<Character>, id: int)
    ensures FindCharacter(a + b, id) == if FindCharacter(a, id).Some? then FindCharacter(a, id) else FindCharacter(b, id)
    decreases |a|
  {
    if a == [] {
      assert a + b == b;
    } else {
      assert (a + b)[0] == a[0] && (a + b)[1..] == a[1..] + b;
      FindCharacterAppend(a[1..], b, id);
    }
  }

  lemma {:induction false} StageInLevelsIsFind(levels: seq<Level>, id: int)
    ensures StageInLevels(levels, id) == FindStage(StagesOf(levels), id)
    decreases |levels|
  {
    if levels != [] {
      StageInLevelsIsFind(levels[1..], id);
      FindStageAppend(levels[0].stages, StagesOf(levels[1..]), id);
    }
  }

  /** `getStageById` is a search of all stages in level-then-stage order: it
      returns the first stage with the id, and nothing exactly when no stage
      has it. */
  lemma GetStageByIdIsFirstMatch(id: int, data: CharactersData)
    ensures GetStageById(id, data) == FindStage(AllStages(data), id)
    ensures GetStageById(id, data).None? <==>
              forall k | 0 <= k < |AllStages(data)| :: AllStages(data)[k].stageId != id
    ensures GetStageById(id, data).Some? ==>
              GetStageById(id, data).value in AllStages(data) && GetStageById(id, data).value.stageId == id
  {
    StageInLevelsIsFind(data.levels, id);
  }

  lemma {:induction false} CharacterInStagesIsFind(stages: seq<Stage>, id: int)
    ensures CharacterInStages(stages, id) == FindCharacter(CharactersOf(stages), id)
    decreases |stages|
  {
    if stages != [] {
      CharacterInStagesIsFind(stages[1..], id);
      FindCharacterAppend(stages[0].characters, CharactersOf(stages[1..]), id);
    }
  }

  lemma {:induction false} CharactersOfAppend(a: seq<Stage>, b: seq<Stage>)
    ensures CharactersOf(a + b) == CharactersOf(a) + CharactersOf(b)
    decreases |a|
  {
    if a == [] {
      assert a + b == b;
    } else {
      assert (a + b)[0] == a[0] && (a + b)[1..] == a[1..] + b;
      CharactersOfAppend(a[1..], b);
    }
  }

  lemma {:induction false} StagesOfAppend(a: seq<Level>, b: seq<Level>)
    ensures StagesOf(a + b) == StagesOf(a) + StagesOf(b)
    decreases |a|
  {
    if a == [] {
      assert a + b == b;
    } else {
      assert (a + b)[0] == a[0] && (a + b)[1..] == a[1..] + b;
      StagesOfAppend(a[1..], b);
    }
  }

  lemma {:induction false} CharacterInLevelsIsFind(levels: seq<Level>, id: int)
    ensures CharacterInLevels(levels, id) == FindCharacter(CharactersOf(StagesOf(levels)), id)
    decreases |levels|
  {
    if levels != [] {
      CharacterInLevelsIsFind(levels[1..], id);
      CharacterInStagesIsFind(levels[0].stages, id);
      CharactersOfAppend(levels[0].stages, StagesOf(levels[1..]));
      FindCharacterAppend(CharactersOf(levels[0].stages), CharactersOf(StagesOf(levels[1..])), id);
    }
  }

  /** `getCharacterById` is a search of all characters in level, stage and
      character order: the first character with the id, or nothing exactly
      when no character has it. */
  lemma GetCharacterByIdIsFirstMatch(id: int, data: CharactersData)
    ensures GetCharacterById(id, data) == FindCharacter(AllCharacters(data), id)
    ensures GetCharacterById(id, data).None? <==>
              forall k | 0 <= k < |AllCharacters(data)| :: AllCharacters(data)[k].id != id
    ensures GetCharacterById(id, data).Some? ==>
              GetCharacterById(id, data).value in AllCharacters(data) && GetCharacterById(id, data).value.id == id
  {
    CharacterInLevelsIsFind(data.levels, id);
  }

  /** The characters of a stage found by `getStageById` are in the pool. */
  lemma {:induction false} StageCharactersInPool(levels: seq<Level>, s: Stage)
    requires s in StagesOf(levels)
    ensures forall c | c in s.characters :: c in CharactersOf(StagesOf(levels))
    decreases |levels|
  {
    if levels != [] {
      CharactersOfAppend(levels[0].stages, StagesOf(levels[1..]));
      if s in levels[0].stages {
        StageInStagesPool(levels[0].stages, s);
      } else {
        StageCharactersInPool(levels[1..], s);
      }
    }
  }

  lemma {:induction false} StageInStagesPool(stages: seq<Stage>, s: Stage)
    requires s in stages
    ensures forall c | c in s.characters :: c in CharactersOf(stages)
    decreases |stages|
  {
    if stages[0] != s {
      StageInStagesPool(stages[1..], s);
    }
  }
}
