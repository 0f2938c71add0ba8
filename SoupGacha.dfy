/** The soup gacha: a modal that draws a random soup recipe. It steps from ready to spinning (a
  * display that changes every 100 ms) to a result, optionally restricted to miso soups. The two
  * timers are the methods `Tick` and `Finish`, and `Math.random()` is their parameter. */
module SoupGacha {
  import opened Wrappers
  import opened SeqUtil
  import opened Strings
  import opened MealTypes

  const Miso := "味噌"
  const MisoKana := "みそ"
  const Tonjiru := "豚汁"

  /** The alerts shown when there is nothing to draw from. */
  const NoMisoMessage := "「味噌」や「豚汁」のレシピが見つかりません！\nまずはレシピを追加してください。"
  const NoSoupMessage := "スープのレシピがありません！"

  /** What the spinning display shows while no recipe (or a nameless one) is on it. */
  const Placeholder := "..."

  /** A recipe counts as miso soup when its name mentions 味噌, みそ or 豚汁. */
  predicate IsMisoSoup(r: Recipe) {
    Contains(r.name, Miso) || Contains(r.name, MisoKana) || Contains(r.name, Tonjiru)
  }

  /** The recipes a draw picks from: all of them, or in miso mode the miso soups, in list order. */
  function Candidates(recipes: seq<Recipe>, misoMode: bool): (c: seq<Recipe>)
    ensures !misoMode ==> c == recipes
    ensures misoMode ==> forall i :: 0 <= i < |c| ==> c[i] in recipes && IsMisoSoup(c[i])
    ensures misoMode ==> forall i :: 0 <= i < |recipes| && IsMisoSoup(recipes[i]) ==> recipes[i] in c
    ensures |c| <= |recipes|
  {
    if misoMode then Filter(recipes, IsMisoSoup) else recipes
  }

  /** A draw has nothing to pick from exactly when there are no recipes, or in miso mode when no
    * recipe's name mentions one of the three words. */
  lemma NoCandidatesIff(recipes: seq<Recipe>, misoMode: bool)
    ensures Candidates(recipes, misoMode) == [] <==>
      forall i :: 0 <= i < |recipes| ==> misoMode && !IsMisoSoup(recipes[i])
  {
    var c := Candidates(recipes, misoMode);
    if c != [] {
      var k :| 0 <= k < |recipes| && recipes[k] == c[0];
    }
  }

  /** In miso mode every candidate is a miso soup, and there are as many candidates as miso
    * soups among the recipes. */
  lemma {:induction false} MisoCandidatesAmongAll(recipes: seq<Recipe>)
    ensures Count(Candidates(recipes, true), IsMisoSoup) == |Candidates(recipes, true)|
    ensures |Candidates(recipes, true)| == Count(recipes, IsMisoSoup)
  {
    FilterAll(Filter(recipes, IsMisoSoup), IsMisoSoup);
  }

  /** `Math.floor(random * n)`: the index a random number in [0, 1) picks among `n` entries. */
  function PickIndex(n: nat, random: real): (k: nat)
    requires n > 0 && 0.0 <= random < 1.0
    ensures k < n
    ensures k as real <= random * n as real < k as real + 1.0
  {
    var x := random * n as real;
    assert 0.0 <= x < n as real by {
      assert random * n as real < 1.0 * n as real;
    }
    x.Floor
  }

  /** Every entry can be drawn: the random number `k / n` picks entry `k`. */
  lemma PickReachesAll(n: nat, k: nat)
    requires k < n
    ensures PickIndex(n, k as real / n as real) == k
  {
    var random := k as real / n as real;
    assert random * n as real == k as real;
  }

  /** The spinning text: the displayed recipe's name, or `...` while there is none. */
  function SpinningLabel(display: Option<Recipe>): (s: string)
    ensures display.Some? && display.value.name != "" ==> s == display.value.name
    ensures display.None? || display.value.name == "" ==> s == Placeholder
  {
    if display.Some? && display.value.name != "" then display.value.name else Placeholder
  }

  datatype Step = Ready | Spinning | ResultShown

  class Gacha {
    var step: Step
    var display: Option<Recipe>
    var result: Option<Recipe>
    var misoMode: bool
    var pool: seq<Recipe>

    /** A spin always has something to pick from, and a shown result is on the display and was
      * drawn from the pool. */
    predicate Valid()
      reads this
    {
      (step == Spinning ==> pool != [])
      && (step == ResultShown ==> result.Some? && result.value in pool && display == result)
    }

    /** The modal's initial state: ready, nothing shown, miso mode off, an empty pool. */
    constructor()
      ensures Valid()
      ensures step == Ready && display == None && result == None && !misoMode && pool == []
    {
      step := Ready;
      display := None;
      result := None;
      misoMode := false;
      pool := [];
    }

    /** Opening the modal resets it to ready with nothing shown and miso mode off; the pool of
      * the previous draw stays. */
    method Open()
      modifies this
      ensures Valid()
      ensures step == Ready && display == None && result == None && !misoMode
      ensures pool == old(pool)
    {
      step := Ready;
      display := None;
      result := None;
      misoMode := false;
    }

    /** The miso-mode switch flips the mode and nothing else. */
    method ToggleMiso()
      requires Valid()
      modifies this
      ensures Valid()
      ensures misoMode == !old(misoMode)
      ensures step == old(step) && display == old(display) && result == old(result) && pool == old(pool)
    {
      misoMode := !misoMode;
    }

    /** `handleStartGacha`: without candidates it raises the alert for the mode and changes
      * nothing; otherwise the candidates become the pool and the spin starts. */
    method Start(recipes: seq<Recipe>) returns (alert: Option<string>)
      requires Valid()
      modifies this
      ensures Valid()
      ensures var c := Candidates(recipes, old(misoMode));
        if c == [] then
          alert == Some(if old(misoMode) then NoMisoMessage else NoSoupMessage)
          && step == old(step) && pool == old(pool)
        else
          alert == None && step == Spinning && pool == c
      ensures display == old(display) && result == old(result) && misoMode == old(misoMode)
    {
      var candidates := Candidates(recipes, misoMode);
      if |candidates| == 0 {
        alert := Some(if misoMode then NoMisoMessage else NoSoupMessage);
        return;
      }
      alert := None;
      pool := candidates;
      step := Spinning;
    }

    /** The 100 ms interval while spinning: a random pool entry goes on the display. */
    method Tick(random: real)
      requires Valid() && step == Spinning && 0.0 <= random < 1.0
      modifies this
      ensures Valid()
      ensures display == Some(old(pool)[PickIndex(|old(pool)|, random)])
      ensures display.value in pool
      ensures step == old(step) && result == old(result) && misoMode == old(misoMode) && pool == old(pool)
    {
      display := Some(pool[PickIndex(|pool|, random)]);
    }

    /** The 2 s timeout: the final pick from the pool becomes the result and the display. */
    method Finish(random: real)
      requires Valid() && step == Spinning && 0.0 <= random < 1.0
      modifies this
      ensures Valid()
      ensures result == Some(old(pool)[PickIndex(|old(pool)|, random)])
      ensures step == ResultShown && display == result
      ensures misoMode == old(misoMode) && pool == old(pool)
    {
      var final := pool[PickIndex(|pool|, random)];
      result := Some(final);
      display := Some(final);
      step := ResultShown;
    }

    /** "もう一回": back to ready, keeping the rest. */
    method Retry()
      requires Valid()
      modifies this
      ensures Valid()
      ensures step == Ready
      ensures display == old(display) && result == old(result) && misoMode == old(misoMode) && pool == old(pool)
    {
      step := Ready;
    }

    /** "これにする！": the recipe handed to `onConfirm` is the drawn result, a member of the pool
      * the draw started from. */
    method Confirm() returns (r: Recipe)
      requires Valid() && step == ResultShown
      ensures result == Some(r) && r in pool
    {
      r := result.value;
    }
  }

  /** A whole draw, from ready: the result is one of the candidates, and there is none exactly
    * when there are no candidates. The interval's display changes in between touch neither the
    * pool nor the result (see `Tick`). */
  method Draw(g: Gacha, recipes: seq<Recipe>, final: real) returns (r: Option<Recipe>)
    requires g.Valid() && g.step == Ready && 0.0 <= final < 1.0
    modifies g
    ensures g.Valid()
    ensures var c := Candidates(recipes, old(g.misoMode));
      (r.None? <==> c == []) && (r.Some? ==> r.value in c && g.step == ResultShown && g.result == r)
  {
    var alert := g.Start(recipes);
    if alert.Some? {
      return None;
    }
    g.Finish(final);
    r := g.result;
  }
}
