/** The phase table: each phase names the tools it admits and the
    instruction shown to the model while it is active. */
module StateMachine {
  import opened Wrappers
  import opened Dicts

  datatype Phase = Phase(name: string, allowedTools: seq<string>, instruction: string)

  /** `{p.name: p for p in phases}`: phases are inserted in list order, so
      a repeated name keeps its first position and takes the last phase. */
  function PhaseTable(phases: seq<Phase>): (t: Dict<string, Phase>)
    ensures DistinctKeys(t)
    decreases |phases|
  {
    if phases == [] then []
    else
      var prev := PhaseTable(phases[..|phases| - 1]);
      var p := phases[|phases| - 1];
      PutDistinct(prev, p.name, p);
      Put(prev, p.name, p)
  }

  /** `p` is the last phase in the list called `n`. */
  ghost predicate LastNamed(phases: seq<Phase>, n: string, p: Phase) {
    exists i | 0 <= i < |phases| :: phases[i] == p && p.name == n && forall j | i < j < |phases| :: phases[j].name != n
  }

  ghost predicate Named(phases: seq<Phase>, n: string) {
    exists i | 0 <= i < |phases| :: phases[i].name == n
  }

  datatype StateMachine = StateMachine(phases: Dict<string, Phase>) {
    /** `get(name)`: `self.phases[name]`, a KeyError for an unknown name. */
    function Get(name: string): (r: Raising<Phase>)
      ensures r.Raised? <==> !HasKey(phases, name)
      ensures r.Raised? ==> r.exc == KeyError(name)
    {
      match Dicts.Get(phases, name)
      case Some(p) => Returned(p)
      case None => Raised(KeyError(name))
    }
  }

  /** `StateMachine(phases)` */
  function NewStateMachine(phases: seq<Phase>): (m: StateMachine)
    ensures DistinctKeys(m.phases)
  {
    StateMachine(PhaseTable(phases))
  }

  /** The table holds a name exactly when some phase has it, and it keeps
      the last phase of that name. */
  lemma PhaseTableGet(phases: seq<Phase>, n: string)
    ensures Dicts.Get(PhaseTable(phases), n).Some? <==> Named(phases, n)
    ensures Dicts.Get(PhaseTable(phases), n).Some? ==> LastNamed(phases, n, Dicts.Get(PhaseTable(phases), n).value)
  {
    PhaseTableHas(phases, n);
    PhaseTableLast(phases, n);
  }

  lemma {:induction false} PhaseTableHas(phases: seq<Phase>, n: string)
    ensures Dicts.Get(PhaseTable(phases), n).Some? <==> Named(phases, n)
    decreases |phases|
  {
    if phases != [] {
      var init := phases[..|phases| - 1];
      var p := phases[|phases| - 1];
      PhaseTableHas(init, n);
      NamedSnoc(phases, n);
      if p.name != n {
        PutOther(PhaseTable(init), p.name, p, n);
      }
    }
  }

  lemma {:induction false} PhaseTableLast(phases: seq<Phase>, n: string)
    ensures Dicts.Get(PhaseTable(phases), n).Some? ==> LastNamed(phases, n, Dicts.Get(PhaseTable(phases), n).value)
    decreases |phases|
  {
    if phases != [] {
      var init := phases[..|phases| - 1];
      var p := phases[|phases| - 1];
      PhaseTableLast(init, n);
      var prev := PhaseTable(init);
      if p.name == n {
        assert phases[|phases| - 1] == p;
      } else {
        PutOther(prev, p.name, p, n);
        if Dicts.Get(prev, n).Some? {
          LastNamedSnoc(phases, n, Dicts.Get(prev, n).value);
        }
      }
    }
  }

  /** A name occurs in a list exactly when it occurs before the last phase
      or is the last phase's. */
  lemma NamedSnoc(phases: seq<Phase>, n: string)
    requires phases != []
    ensures Named(phases, n) <==> Named(phases[..|phases| - 1], n) || phases[|phases| - 1].name == n
  {
    var init := phases[..|phases| - 1];
    if Named(phases, n) && phases[|phases| - 1].name != n {
      var i :| 0 <= i < |phases| && phases[i].name == n;
      assert init[i].name == n;
    }
    if Named(init, n) {
      var i :| 0 <= i < |init| && init[i].name == n;
      assert phases[i].name == n;
    }
  }

  /** A last phase with another name does not change which phase is the
      last one called `n`. */
  lemma LastNamedSnoc(phases: seq<Phase>, n: string, q: Phase)
    requires phases != [] && phases[|phases| - 1].name != n
    requires LastNamed(phases[..|phases| - 1], n, q)
    ensures LastNamed(phases, n, q)
  {
    var init := phases[..|phases| - 1];
    var i :| 0 <= i < |init| && init[i] == q && q.name == n && forall j | i < j < |init| :: init[j].name != n;
    assert phases[i] == q;
    forall j | i < j < |phases|
      ensures phases[j].name != n
    {
      if j < |init| {
        assert phases[j] == init[j];
      }
    }
  }

  /** `get(name)` on a machine built from `phases`: the last phase of that
      name, or a KeyError when no phase has it. */
  lemma GetLastNamed(phases: seq<Phase>, n: string)
    ensures NewStateMachine(phases).Get(n).Returned? <==> Named(phases, n)
    ensures NewStateMachine(phases).Get(n).Returned? ==> LastNamed(phases, n, NewStateMachine(phases).Get(n).value)
    ensures NewStateMachine(phases).Get(n).Raised? ==> NewStateMachine(phases).Get(n).exc == KeyError(n)
  {
    PhaseTableGet(phases, n);
  }

  /** The table's keys are exactly the names in the list. */
  lemma PhaseTableKeys(phases: seq<Phase>, n: string)
    ensures n in Keys(PhaseTable(phases)) <==> Named(phases, n)
  {
    PhaseTableGet(phases, n);
    var t := PhaseTable(phases);
    if n in Keys(t) {
      var i :| 0 <= i < |t| && Keys(t)[i] == n;
      assert t[i].0 == n;
    }
  }
}
