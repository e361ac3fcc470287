/**
 * The transition-rule builder of the operation generator: an edge is an
 * immutable record, `to(status, modifiers...)` starts from a default edge
 * for the destination and applies the modifiers, in order, as field
 * setters. `minPhase`, `revertible` and `emit` are the three modifiers.
 */
module OpgenBuilder {
  import opened Wrappers
  import opened Scpb
  import opened Scop

  /** An emission function: builds the operation of an edge from the element. */
  type Emission = ForeignKey -> Op

  /** One declared transition step. */
  datatype Edge = Edge(to: Status, minPhase: Phase, revertible: bool, emit: Option<Emission>)

  /** The modifiers accepted by `to`. */
  datatype Modifier =
    | MinPhase(phase: Phase)
    | Revertible(flag: bool)
    | Emit(fn: Emission)

  /** The two directions a rule sequence is declared for. */
  datatype Direction = AddDirection | DropDirection

  /** The phase of an edge that declares no `minPhase`: the earliest one. */
  const DefaultPhase: Phase := StatementPhase

  /** The revertibility of an edge that declares no `revertible`. */
  const DefaultRevertible: bool := true

  /** The edge `to(s)` starts from before any modifier is applied. */
  function DefaultEdge(s: Status): Edge {
    Edge(s, DefaultPhase, DefaultRevertible, None)
  }

  /** Applies one modifier to an edge: each modifier sets exactly one field. */
  function SetField(e: Edge, m: Modifier): Edge {
    match m
    case MinPhase(p) => e.(minPhase := p)
    case Revertible(b) => e.(revertible := b)
    case Emit(f) => e.(emit := Some(f))
  }

  /** Applies the modifiers to an edge in the order they are written. */
  function Apply(e: Edge, mods: seq<Modifier>): Edge
    decreases |mods|
  {
    if |mods| == 0 then e else Apply(SetField(e, mods[0]), mods[1..])
  }

  /** `to(s, mods...)`: the edge to `s` carrying the given modifiers. */
  function To(s: Status, mods: seq<Modifier>): Edge {
    Apply(DefaultEdge(s), mods)
  }

  /*
   * Reference definitions of what the builder yields, read from the end of the
   * modifier list: the phase of the last `minPhase`, the flag of the last
   * `revertible`, the function of the last `emit`, or the starting value when
   * the list has no such modifier.
   */

  ghost function LastPhase(mods: seq<Modifier>, d: Phase): Phase
    decreases |mods|
  {
    if |mods| == 0 then d
    else if mods[|mods| - 1].MinPhase? then mods[|mods| - 1].phase
    else LastPhase(mods[..|mods| - 1], d)
  }

  ghost function LastRevertible(mods: seq<Modifier>, d: bool): bool
    decreases |mods|
  {
    if |mods| == 0 then d
    else if mods[|mods| - 1].Revertible? then mods[|mods| - 1].flag
    else LastRevertible(mods[..|mods| - 1], d)
  }

  ghost function LastEmit(mods: seq<Modifier>, d: Option<Emission>): Option<Emission>
    decreases |mods|
  {
    if |mods| == 0 then d
    else if mods[|mods| - 1].Emit? then Some(mods[|mods| - 1].fn)
    else LastEmit(mods[..|mods| - 1], d)
  }

  /** True when no modifier in the list is a `minPhase`. */
  ghost predicate NoPhase(mods: seq<Modifier>) {
    forall i :: 0 <= i < |mods| ==> !mods[i].MinPhase?
  }

  /** True when no modifier in the list is a `revertible`. */
  ghost predicate NoRevertible(mods: seq<Modifier>) {
    forall i :: 0 <= i < |mods| ==> !mods[i].Revertible?
  }

  /** Applying a list followed by one more modifier is applying that modifier last. */
  lemma {:induction false} ApplySnoc(e: Edge, mods: seq<Modifier>, m: Modifier)
    ensures Apply(e, mods + [m]) == SetField(Apply(e, mods), m)
    decreases |mods|
  {
    if |mods| == 0 {
      assert mods + [m] == [m];
      assert [m][1..] == [];
    } else {
      assert (mods + [m])[0] == mods[0];
      assert (mods + [m])[1..] == mods[1..] + [m];
      ApplySnoc(SetField(e, mods[0]), mods[1..], m);
    }
  }

  /**
   * What applying modifiers does to each field: the destination never
   * changes, and every other field is the one its last modifier set.
   */
  lemma {:induction false} ApplyFields(e: Edge, mods: seq<Modifier>)
    ensures Apply(e, mods).to == e.to
    ensures Apply(e, mods).minPhase == LastPhase(mods, e.minPhase)
    ensures Apply(e, mods).revertible == LastRevertible(mods, e.revertible)
    ensures Apply(e, mods).emit == LastEmit(mods, e.emit)
    decreases |mods|
  {
    if |mods| > 0 {
      var init, m := mods[..|mods| - 1], mods[|mods| - 1];
      assert mods == init + [m];
      ApplySnoc(e, init, m);
      ApplyFields(e, init);
    }
  }

  /** A list without a `minPhase` keeps the starting phase. */
  lemma {:induction false} LastPhaseDefault(mods: seq<Modifier>, d: Phase)
    requires NoPhase(mods)
    ensures LastPhase(mods, d) == d
    decreases |mods|
  {
    if |mods| > 0 {
      assert !mods[|mods| - 1].MinPhase?;
      LastPhaseDefault(mods[..|mods| - 1], d);
    }
  }

  /** A list without a `revertible` keeps the starting flag. */
  lemma {:induction false} LastRevertibleDefault(mods: seq<Modifier>, d: bool)
    requires NoRevertible(mods)
    ensures LastRevertible(mods, d) == d
    decreases |mods|
  {
    if |mods| > 0 {
      assert !mods[|mods| - 1].Revertible?;
      LastRevertibleDefault(mods[..|mods| - 1], d);
    }
  }

  /**
   * The edge `to(s, mods...)`: its destination is `s`; without a `minPhase`
   * or a `revertible` modifier it carries the default phase and the default
   * revertibility; otherwise the value its last such modifier set.
   */
  lemma ToFields(s: Status, mods: seq<Modifier>)
    ensures To(s, mods).to == s
    ensures To(s, mods).minPhase == LastPhase(mods, DefaultPhase)
    ensures To(s, mods).revertible == LastRevertible(mods, DefaultRevertible)
    ensures To(s, mods).emit == LastEmit(mods, None)
    ensures NoPhase(mods) ==> To(s, mods).minPhase == DefaultPhase
    ensures NoRevertible(mods) ==> To(s, mods).revertible == DefaultRevertible
  {
    ApplyFields(DefaultEdge(s), mods);
    if NoPhase(mods) {
      LastPhaseDefault(mods, DefaultPhase);
    }
    if NoRevertible(mods) {
      LastRevertibleDefault(mods, DefaultRevertible);
    }
  }

  /** The status a sequence of the given direction must end at. */
  function Terminal(d: Direction): Status {
    match d
    case AddDirection => Public
    case DropDirection => Absent
  }

  /**
   * The structural invariants a rule sequence is meant to satisfy: it is
   * non-empty and ends at its direction's terminal status, its destinations
   * are pairwise distinct, a non-revertible edge is followed only by
   * non-revertible ones, minimum phases never decrease, and every edge has an
   * emission function.
   */
  ghost predicate WellFormed(edges: seq<Edge>, d: Direction) {
    && |edges| > 0
    && edges[|edges| - 1].to == Terminal(d)
    && (forall i, j :: 0 <= i < j < |edges| ==> edges[i].to != edges[j].to)
    && (forall i, j :: 0 <= i < j < |edges| && !edges[i].revertible ==> !edges[j].revertible)
    && (forall i, j :: 0 <= i < j < |edges| ==> edges[i].minPhase.Rank() <= edges[j].minPhase.Rank())
    && (forall i :: 0 <= i < |edges| ==> edges[i].emit.Some?)
  }
}
