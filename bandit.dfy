/** A UCB1 multi-armed bandit over named arms, kept in insertion order. */
module Bandit {
  import opened Wrappers
  import opened Dicts

  /** Pull count and accumulated reward of one arm. */
  datatype ArmStats = ArmStats(n: nat, totalReward: real) {
    /** `mean`: the average reward, 0.0 before the first pull. */
    function Mean(): real {
      if n > 0 then totalReward / (n as real) else 0.0
    }
  }

  /** The mean times the pull count is the total reward; an arm never
      pulled has mean 0.0. */
  lemma MeanFacts(st: ArmStats)
    ensures st.n > 0 ==> st.Mean() * (st.n as real) == st.totalReward
    ensures st.n == 0 ==> st.Mean() == 0.0
  {
  }

  /** The initial `best_ucb`, -1e9. */
  const NO_SCORE: real := -1000000000.0

  /** `st.mean + c * sqrt(2 log t / st.n)`; the square-root term is the
      parameter `explore(t, n)`. */
  function Ucb(st: ArmStats, t: nat, c: real, explore: (nat, nat) -> real): real {
    st.Mean() + c * explore(t, st.n)
  }

  /** `sum(st.n for st in arms.values())` over the first `k` arms. */
  function Pulls(arms: Dict<string, ArmStats>, k: nat): nat
    requires k <= |arms|
  {
    if k == 0 then 0 else Pulls(arms, k - 1) + arms[k - 1].1.n
  }

  /** The arms' UCB scores, in insertion order. */
  function Scores(arms: Dict<string, ArmStats>, c: real, explore: (nat, nat) -> real): (s: seq<real>)
    ensures |s| == |arms|
    ensures forall i | 0 <= i < |arms| :: s[i] == Ucb(arms[i].1, Pulls(arms, |arms|), c, explore)
  {
    seq(|arms|, i requires 0 <= i < |arms| => Ucb(arms[i].1, Pulls(arms, |arms|), c, explore))
  }

  /** The first position among the first `k` with the highest score above
      -1e9, or -1 when none is above it. */
  function Best(scores: seq<real>, k: nat): (j: int)
    requires k <= |scores|
    ensures -1 <= j < k
  {
    if k == 0 then -1
    else
      var b := Best(scores, k - 1);
      var top := if b == -1 then NO_SCORE else scores[b];
      if scores[k - 1] > top then k - 1 else b
  }

  /** `Best` finds the first maximum above -1e9, and -1 means that no score
      is above it. */
  lemma {:induction false} BestIsFirstMax(scores: seq<real>, k: nat)
    requires k <= |scores|
    ensures var j := Best(scores, k);
      && (j >= 0 ==> (scores[j] > NO_SCORE
            && (forall i | 0 <= i < k :: scores[i] <= scores[j])
            && (forall i | 0 <= i < j :: scores[i] < scores[j])))
      && (j == -1 ==> forall i | 0 <= i < k :: scores[i] <= NO_SCORE)
  {
    if k > 0 {
      BestIsFirstMax(scores, k - 1);
    }
  }

  /** One more score: it becomes the best exactly when it beats the best so far. */
  lemma BestStep(scores: seq<real>, k: nat)
    requires k < |scores|
    ensures var b := Best(scores, k);
      Best(scores, k + 1) == if scores[k] > (if b == -1 then NO_SCORE else scores[b]) then k else b
  {
  }

  /** The first arm never pulled, or -1. */
  function FirstUnexplored(arms: Dict<string, ArmStats>): (j: int)
    ensures -1 <= j < |arms|
    ensures j == -1 <==> forall i | 0 <= i < |arms| :: arms[i].1.n != 0
    ensures j >= 0 ==> arms[j].1.n == 0 && forall i | 0 <= i < j :: arms[i].1.n != 0
  {
    if arms == [] then -1
    else if arms[0].1.n == 0 then 0
    else
      var j := FirstUnexplored(arms[1..]);
      assert forall i | 0 < i < |arms| :: arms[i] == arms[1..][i - 1];
      if j == -1 then -1 else j + 1
  }

  class UCB1 {
    var arms: Dict<string, ArmStats>
    var c: real

    ghost predicate Valid()
      reads this
    {
      DistinctKeys(arms)
    }

    /** `UCB1()`: no arms and c = 1.0. */
    constructor()
      ensures Valid() && arms == [] && c == 1.0
    {
      arms := [];
      c := 1.0;
    }

    /** `add_arm(name)`: a zeroed arm for a new name; an existing arm is
        left alone. */
    method AddArm(name: string)
      requires Valid()
      modifies this
      ensures Valid() && c == old(c)
      ensures HasKey(old(arms), name) ==> arms == old(arms)
      ensures !HasKey(old(arms), name) ==> arms == old(arms) + [(name, ArmStats(0, 0.0))]
    {
      if !HasKey(arms, name) {
        PutDistinct(arms, name, ArmStats(0, 0.0));
        arms := Put(arms, name, ArmStats(0, 0.0));
      }
    }

    /** `update(name, reward)`: one more pull and the reward added; a
        KeyError for an unknown arm. */
    method Update(name: string, reward: real) returns (r: Raising<()>)
      requires Valid()
      modifies this
      ensures Valid() && c == old(c)
      ensures !HasKey(old(arms), name) ==> r == Raised(KeyError(name)) && arms == old(arms)
      ensures HasKey(old(arms), name) ==> (r == Returned(())
        && var st := Get(old(arms), name).value;
           arms == Put(old(arms), name, ArmStats(st.n + 1, st.totalReward + reward)))
      ensures forall k | k != name :: Get(arms, k) == Get(old(arms), k)
    {
      match Get(arms, name)
      case None =>
        r := Raised(KeyError(name));
      case Some(st) =>
        PutDistinct(arms, name, ArmStats(st.n + 1, st.totalReward + reward));
        forall k | k != name
          ensures Get(Put(arms, name, ArmStats(st.n + 1, st.totalReward + reward)), k) == Get(arms, k)
        {
          PutOther(arms, name, ArmStats(st.n + 1, st.totalReward + reward), k);
        }
        arms := Put(arms, name, ArmStats(st.n + 1, st.totalReward + reward));
        r := Returned(());
    }

    /** `select()`: the first arm never pulled; otherwise the first arm of
        highest UCB score above -1e9; an AssertionError when no arm
        qualifies (in particular with no arms at all). */
    method Select(explore: (nat, nat) -> real) returns (r: Raising<string>)
      ensures FirstUnexplored(arms) >= 0 ==> r == Returned(arms[FirstUnexplored(arms)].0)
      ensures FirstUnexplored(arms) == -1 ==>
        var j := Best(Scores(arms, c, explore), |arms|);
        r == if j == -1 then Raised(AssertionError) else Returned(arms[j].0)
      ensures r.Returned? ==> HasKey(arms, r.value)
      ensures arms == [] ==> r == Raised(AssertionError)
    {
      var a := arms;
      var u := FindUnexplored(a);
      if u >= 0 {
        return Returned(a[u].0);
      }
      var t := TotalPulls(a);
      var bestK := BestArm(a, c, explore, t);
      if bestK.None? {
        return Raised(AssertionError);
      }
      return Returned(bestK.value);
    }
  }

  /** The first loop of `select`: the first arm never pulled. */
  method FindUnexplored(a: Dict<string, ArmStats>) returns (j: int)
    ensures j == FirstUnexplored(a)
  {
    var i := 0;
    while i < |a|
      invariant 0 <= i <= |a|
      invariant forall k | 0 <= k < i :: a[k].1.n != 0
    {
      if a[i].1.n == 0 {
        return i;
      }
      i := i + 1;
    }
    return -1;
  }

  /** `t = sum(st.n for st in arms.values())` */
  method TotalPulls(a: Dict<string, ArmStats>) returns (t: nat)
    ensures t == Pulls(a, |a|)
  {
    t := 0;
    var i := 0;
    while i < |a|
      invariant 0 <= i <= |a| && t == Pulls(a, i)
    {
      t := t + a[i].1.n;
      i := i + 1;
    }
  }

  /** The scoring loop of `select`: the first arm of highest score above
      -1e9, if any. */
  method BestArm(a: Dict<string, ArmStats>, c: real, explore: (nat, nat) -> real, t: nat) returns (bestK: Option<string>)
    requires t == Pulls(a, |a|)
    ensures var b := Best(Scores(a, c, explore), |a|);
      bestK == if b == -1 then None else Some(a[b].0)
  {
    ghost var scores := Scores(a, c, explore);
    bestK := None;
    var bestUcb := NO_SCORE;
    var i := 0;
    while i < |a|
      invariant 0 <= i <= |a|
      invariant var b := Best(scores, i);
        bestK == (if b == -1 then None else Some(a[b].0))
        && bestUcb == (if b == -1 then NO_SCORE else scores[b])
    {
      var ucb := Ucb(a[i].1, t, c, explore);
      BestStep(scores, i);
      if ucb > bestUcb {
        bestUcb := ucb;
        bestK := Some(a[i].0);
      }
      i := i + 1;
    }
  }
}
