/**
 * The transition rule of the foreign-key element: an add sequence of one
 * edge to PUBLIC whose emission is the not-implemented placeholder, and a
 * drop sequence of one edge to ABSENT that may not run before the
 * pre-commit phase, is not revertible, and emits the operation that drops
 * the outbound foreign-key reference from the origin table.
 */
module OpgenOutForeignKey {
  import opened Wrappers
  import opened Scpb
  import opened Scop
  import opened OpgenBuilder
  import opened OpgenRegistry

  /** The emission of the add edge: the placeholder, whatever the element. */
  function AddEmission(fk: ForeignKey): Op {
    NotImplemented
  }

  /** The emission of the drop edge: drop the reference held by the origin table. */
  function DropEmission(fk: ForeignKey): Op {
    DropForeignKeyRef(fk.originID, fk.name, true)
  }

  /** `add(to(PUBLIC, emit(...)))` */
  function ForeignKeyAdd(): seq<Edge> {
    [To(Public, [Emit(AddEmission)])]
  }

  /** `drop(to(ABSENT, minPhase(PreCommitPhase), revertible(false), emit(...)))` */
  function ForeignKeyDrop(): seq<Edge> {
    [To(Absent, [MinPhase(PreCommitPhase), Revertible(false), Emit(DropEmission)])]
  }

  /** The `init` block: registers both sequences under the foreign-key element type. */
  method Init(registry: Registry)
    modifies registry
    ensures ForeignKeyType in registry.rules
    ensures registry.rules[ForeignKeyType] == Rules(ForeignKeyAdd(), ForeignKeyDrop())
    ensures forall t :: t != ForeignKeyType ==>
              (t in registry.rules <==> t in old(registry.rules))
    ensures forall t :: t != ForeignKeyType && t in old(registry.rules) ==>
              registry.rules[t] == old(registry.rules)[t]
  {
    registry.Register(ForeignKeyType, ForeignKeyAdd(), ForeignKeyDrop());
  }

  /**
   * The add sequence is one edge to PUBLIC with the default phase and
   * revertibility, whose emission yields the placeholder for every element.
   */
  lemma ForeignKeyAddEdge()
    ensures |ForeignKeyAdd()| == 1
    ensures ForeignKeyAdd()[0].to == Public
    ensures ForeignKeyAdd()[0].minPhase == DefaultPhase
    ensures ForeignKeyAdd()[0].revertible == DefaultRevertible
    ensures ForeignKeyAdd()[0].emit.Some?
    ensures forall fk :: ForeignKeyAdd()[0].emit.value(fk) == NotImplemented
  {
    var mods := [Emit(AddEmission)];
    ToFields(Public, mods);
    assert mods[..0] == [];
  }

  /**
   * The drop sequence is one edge to ABSENT, not before the pre-commit phase,
   * not revertible, whose emission copies the origin table and the name.
   */
  lemma ForeignKeyDropEdge()
    ensures |ForeignKeyDrop()| == 1
    ensures ForeignKeyDrop()[0].to == Absent
    ensures ForeignKeyDrop()[0].minPhase == PreCommitPhase
    ensures !ForeignKeyDrop()[0].revertible
    ensures ForeignKeyDrop()[0].emit.Some?
    ensures forall fk :: ForeignKeyDrop()[0].emit.value(fk) ==
              DropForeignKeyRef(fk.originID, fk.name, true)
  {
    var mods := [MinPhase(PreCommitPhase), Revertible(false), Emit(DropEmission)];
    ToFields(Absent, mods);
    var first, firstTwo := mods[..1], mods[..2];
    assert firstTwo[..1] == first;
    assert LastPhase(firstTwo, DefaultPhase) == LastPhase(first, DefaultPhase) == PreCommitPhase;
  }

  /**
   * Two foreign keys that agree on the origin table and the name yield the
   * same drop operation, and two that differ in either yield different ones:
   * the operation names exactly the reference being dropped.
   */
  lemma DropEmissionIdentifiesReference(a: ForeignKey, b: ForeignKey)
    ensures ForeignKeyDrop()[0].emit.Some?
    ensures (ForeignKeyDrop()[0].emit.value(a) == ForeignKeyDrop()[0].emit.value(b))
            <==> (a.originID == b.originID && a.name == b.name)
  {
    ForeignKeyDropEdge();
  }

  /** The drop edge of the foreign key `{OriginID: 7, Name: "fk1"}` emits `{7, "fk1", true}`. */
  lemma DropEmissionExample()
    ensures ForeignKeyDrop()[0].emit.Some?
    ensures ForeignKeyDrop()[0].emit.value(ForeignKey(7, "fk1")) == DropForeignKeyRef(7, "fk1", true)
  {
    ForeignKeyDropEdge();
  }

  /**
   * Both registered sequences end at their direction's terminal status, keep
   * their destinations distinct, never follow a non-revertible edge by a
   * revertible one, never lower the minimum phase, and emit on every edge.
   */
  lemma ForeignKeyRulesWellFormed()
    ensures WellFormed(ForeignKeyAdd(), AddDirection)
    ensures WellFormed(ForeignKeyDrop(), DropDirection)
  {
    ForeignKeyAddEdge();
    ForeignKeyDropEdge();
  }

  /**
   * A planner's view of the rule: in a registry where the foreign-key type
   * holds the sequences `init` registers, looking up the drop sequence and
   * emitting its one edge for the element `{OriginID: 7, Name: "fk1"}`
   * yields `{TableID: 7, Name: "fk1", Outbound: true}`.
   */
  method LookupAndEmitDrop(registry: Registry) returns (op: Op)
    requires ForeignKeyType in registry.rules
    requires registry.rules[ForeignKeyType] == Rules(ForeignKeyAdd(), ForeignKeyDrop())
    ensures op == DropForeignKeyRef(7, "fk1", true)
  {
    ForeignKeyDropEdge();
    var edges := registry.Lookup(ForeignKeyType, DropDirection);
    var edge := edges.value[0];
    op := edge.emit.value(ForeignKey(7, "fk1"));
  }
}
