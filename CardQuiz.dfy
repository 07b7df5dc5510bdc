/** Flashcard-quiz option generation: the correct back of the current card
    plus up to three other backs drawn at random from the same file, in
    random order. */
module CardQuiz {
  import opened StudyData
  import opened Shuffle

  /** The generated options for one card, kept until the index changes. */
  datatype OptionsCache = OptionsCache(index: nat, options: seq<string>, correct: string)

  function Min(a: nat, b: nat): nat
  {
    if a <= b then a else b
  }

  /** `currentData.map(c => c.back)`. */
  function Backs(cards: seq<Record>): (backs: seq<string>)
    requires AllCards(cards)
    ensures |backs| == |cards|
  {
    seq(|cards|, k requires 0 <= k < |cards| => cards[k].back)
  }

  /** `allBacks.filter(txt => txt !== correct)`: every back that differs from
      the correct one, duplicates included, in file order. */
  function WrongPool(backs: seq<string>, correct: string): (pool: seq<string>)
    ensures forall x :: multiset(pool)[x] == if x == correct then 0 else multiset(backs)[x]
    ensures |pool| == |backs| - multiset(backs)[correct]
  {
    if backs == [] then []
    else
      assert backs == [backs[0]] + backs[1..];
      (if backs[0] == correct then [] else [backs[0]]) + WrongPool(backs[1..], correct)
  }

  /** The draws of the two shuffles fit the sizes of the wrong pool and of
      the option list. */
  predicate DrawsFit(backs: seq<string>, correct: string, poolDraws: seq<nat>, optionDraws: seq<nat>)
  {
    ValidDraws(poolDraws, |WrongPool(backs, correct)|) &&
    ValidDraws(optionDraws, 1 + Min(3, |WrongPool(backs, correct)|))
  }

  /** The distractors: the first three of the shuffled wrong pool. They are
      drawn without replacement from the wrong pool, and all of it is drawn
      when it holds at most three backs. */
  function Distractors(backs: seq<string>, correct: string, poolDraws: seq<nat>): (ds: seq<string>)
    requires ValidDraws(poolDraws, |WrongPool(backs, correct)|)
    ensures |ds| == Min(3, |WrongPool(backs, correct)|)
    ensures multiset(ds) <= multiset(WrongPool(backs, correct))
    ensures |WrongPool(backs, correct)| <= 3 ==> multiset(ds) == multiset(WrongPool(backs, correct))
  {
    var pool := Shuffled(WrongPool(backs, correct), poolDraws);
    var m := Min(3, |pool|);
    assert pool == pool[..m] + pool[m..];
    assert multiset(pool) == multiset(pool[..m]) + multiset(pool[m..]);
    pool[..m]
  }

  /** The option list: the correct back followed by the distractors,
      shuffled again, so some order of exactly those entries. */
  function GenerateOptions(backs: seq<string>, correct: string, poolDraws: seq<nat>, optionDraws: seq<nat>): (opts: seq<string>)
    requires DrawsFit(backs, correct, poolDraws, optionDraws)
    ensures |opts| == 1 + Min(3, |WrongPool(backs, correct)|)
    ensures multiset(opts) == multiset{correct} + multiset(Distractors(backs, correct, poolDraws))
  {
    var list := [correct] + Distractors(backs, correct, poolDraws);
    assert multiset(list) == multiset{correct} + multiset(Distractors(backs, correct, poolDraws));
    Shuffled(list, optionDraws)
  }

  /** The generated options hold the correct back exactly once, one entry
      per distractor besides it, and otherwise only backs that differ from
      the correct one, each at most as often as it occurs among the backs. */
  lemma GeneratedOptionsShape(backs: seq<string>, correct: string, poolDraws: seq<nat>, optionDraws: seq<nat>)
    requires DrawsFit(backs, correct, poolDraws, optionDraws)
    ensures |GenerateOptions(backs, correct, poolDraws, optionDraws)| == 1 + Min(3, |backs| - multiset(backs)[correct])
    ensures multiset(GenerateOptions(backs, correct, poolDraws, optionDraws))[correct] == 1
    ensures multiset(GenerateOptions(backs, correct, poolDraws, optionDraws)) - multiset{correct}
              <= multiset(WrongPool(backs, correct))
    ensures forall x :: x in GenerateOptions(backs, correct, poolDraws, optionDraws) && x != correct ==>
              x in backs
  {
    var wrong := WrongPool(backs, correct);
    var ds := Distractors(backs, correct, poolDraws);
    var opts := GenerateOptions(backs, correct, poolDraws, optionDraws);
    assert multiset(ds)[correct] <= multiset(wrong)[correct] == 0;
    forall x | x in opts && x != correct
      ensures x in backs
    {
      assert multiset(opts)[x] > 0;
      assert multiset(ds)[x] <= multiset(wrong)[x] == multiset(backs)[x];
    }
  }

  /** When at most three backs differ from the correct one, every one of
      them is offered. */
  lemma SmallPoolShowsAll(backs: seq<string>, correct: string, poolDraws: seq<nat>, optionDraws: seq<nat>)
    requires DrawsFit(backs, correct, poolDraws, optionDraws)
    requires |WrongPool(backs, correct)| <= 3
    ensures multiset(GenerateOptions(backs, correct, poolDraws, optionDraws))
              == multiset{correct} + multiset(WrongPool(backs, correct))
  {
  }

  /** When the backs are pairwise different, so are the options. */
  lemma DistinctBacksGiveDistinctOptions(backs: seq<string>, correct: string, poolDraws: seq<nat>, optionDraws: seq<nat>)
    requires DrawsFit(backs, correct, poolDraws, optionDraws)
    requires forall x :: multiset(backs)[x] <= 1
    ensures forall x :: multiset(GenerateOptions(backs, correct, poolDraws, optionDraws))[x] <= 1
  {
    GeneratedOptionsShape(backs, correct, poolDraws, optionDraws);
    var opts := GenerateOptions(backs, correct, poolDraws, optionDraws);
    var wrong := WrongPool(backs, correct);
    forall x
      ensures multiset(opts)[x] <= 1
    {
      if x != correct {
        assert (multiset(opts) - multiset{correct})[x] == multiset(opts)[x];
        assert multiset(wrong)[x] == multiset(backs)[x];
      }
    }
  }

  /** Four cards at index 0 whose other three backs differ from the first:
      the options are some order of exactly the four backs. */
  lemma FourCardScenario(b1: string, others: seq<string>, poolDraws: seq<nat>, optionDraws: seq<nat>)
    requires |others| == 3 && b1 !in others
    requires DrawsFit([b1] + others, b1, poolDraws, optionDraws)
    ensures multiset(GenerateOptions([b1] + others, b1, poolDraws, optionDraws)) == multiset([b1] + others)
  {
    WrongPoolCons(b1, others, b1);
    WrongPoolOfAbsent(others, b1);
    SmallPoolShowsAll([b1] + others, b1, poolDraws, optionDraws);
  }

  /** One step of the filter: the first back is kept unless it is the
      correct one. */
  lemma WrongPoolCons(x: string, rest: seq<string>, correct: string)
    ensures WrongPool([x] + rest, correct) == (if x == correct then [] else [x]) + WrongPool(rest, correct)
  {
    assert ([x] + rest)[1..] == rest;
  }

  /** When the correct back does not occur, the filter keeps every back in
      its order. */
  lemma {:induction false} WrongPoolOfAbsent(backs: seq<string>, correct: string)
    requires correct !in backs
    ensures WrongPool(backs, correct) == backs
  {
    if backs != [] {
      WrongPoolCons(backs[0], backs[1..], correct);
      assert [backs[0]] + backs[1..] == backs;
      WrongPoolOfAbsent(backs[1..], correct);
    }
  }

  /** The option generation of the flashcard-quiz view, on arrays, with the
      two in-place shuffles. */
  method BuildOptions(cards: seq<Record>, index: nat, poolDraws: seq<nat>, optionDraws: seq<nat>)
    returns (cache: OptionsCache)
    requires AllCards(cards) && index < |cards|
    requires DrawsFit(Backs(cards), cards[index].back, poolDraws, optionDraws)
    ensures cache.index == index && cache.correct == cards[index].back
    ensures cache.options == GenerateOptions(Backs(cards), cards[index].back, poolDraws, optionDraws)
  {
    var allBacks := Backs(cards);
    var correct := cards[index].back;
    var pool := WrongPool(allBacks, correct);
    var wrongPool := new string[|pool|](k requires 0 <= k < |pool| => pool[k]);
    assert wrongPool[..] == pool;
    ShuffleInPlace(wrongPool, poolDraws);
    var distractors := wrongPool[..Min(3, wrongPool.Length)];
    var list := [correct] + distractors;
    var opts := new string[|list|](k requires 0 <= k < |list| => list[k]);
    assert opts[..] == list;
    ShuffleInPlace(opts, optionDraws);
    cache := OptionsCache(index, opts[..], correct);
  }
}
