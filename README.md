# Foreign-key transition rule of the schema-change operation generator

This project models the rule that the declarative schema changer's operation
generator (`opgen`) registers for the foreign-key schema element. The rule is
a small per-element state machine with two directions:

- **add**: one edge to `PUBLIC`. Its emission function returns the
  "not implemented" placeholder.
- **drop**: one edge to `ABSENT`. The edge may not run before the pre-commit
  phase and is not revertible. It emits a `DropForeignKeyRef` operation naming
  the element's origin table and constraint name, marked outbound.

The package's `init` block records both sequences in the process-wide rule
registry, keyed by the foreign-key element type.

Files and modules:

- `scpb.dfy` (`Scpb`): the statuses `ABSENT` and `PUBLIC`, descriptor IDs
  (unsigned 32-bit), the element types the registry is keyed by, and the two
  fields of a foreign-key element that the rule reads (`OriginID`, `Name`).
- `scop.dfy` (`Scop`): transaction phases and the operations an emission
  function can return (`NotImplemented`, `DropForeignKeyRef`).
- `opgen_builder.dfy` (`OpgenBuilder`): the rule builder. An edge is an
  immutable record `{to, minPhase, revertible, emit}`. `To(s, mods)` starts
  from a default edge to `s` (statement phase, revertible, no emission). It
  then applies the modifiers `MinPhase`, `Revertible` and `Emit` in order,
  each one setting one field. Reference functions read each field back from
  the last modifier that sets it, and lemmas tie the two together.
- `opgen_registry.dfy` (`OpgenRegistry`): the registry, a class whose `rules`
  map goes from element type to the add and drop sequences. `Register` updates
  one entry and `Lookup` reads one.
- `opgen_out_foreign_key.dfy` (`OpgenOutForeignKey`): the two emission
  functions, the two sequences, `Init` (the `init` block) and the lemmas about
  the rule.

## Model

| member | source | states |
|---|---|---|
| `OpgenBuilder.ApplySnoc` | pkg/sql/schemachanger/scplan/opgen/opgen_out_foreign_key.go:28-39 | applying a modifier list followed by one more modifier is the same as applying the list and then that modifier, so modifiers take effect in the order written |
| `OpgenBuilder.ApplyFields` | pkg/sql/schemachanger/scplan/opgen/opgen_out_foreign_key.go:28-39 | modifiers never change an edge's destination; the phase, the revertibility and the emission are each the value set by the last modifier of that kind, or the starting value when there is none |
| `OpgenBuilder.LastPhaseDefault` | pkg/sql/schemachanger/scplan/opgen/opgen_out_foreign_key.go:21-25 | a modifier list with no `minPhase` keeps the starting phase |
| `OpgenBuilder.LastRevertibleDefault` | pkg/sql/schemachanger/scplan/opgen/opgen_out_foreign_key.go:21-25 | a modifier list with no `revertible` keeps the starting revertibility |
| `OpgenBuilder.ToFields` | pkg/sql/schemachanger/scplan/opgen/opgen_out_foreign_key.go:21-39 | `to(s, mods...)` yields an edge to `s` whose phase, revertibility and emission come from its modifiers; an edge without a `minPhase` or `revertible` modifier has the builder's default phase (statement phase) or revertibility (true) |
| `OpgenRegistry.Registry.Register` | pkg/sql/schemachanger/scplan/opgen/opgen_out_foreign_key.go:19 | registering stores the add and drop sequences under the element type and leaves every other entry as it was |
| `OpgenRegistry.Registry.Lookup` | pkg/sql/schemachanger/scplan/opgen/opgen_out_foreign_key.go:18-41 | the read-only accessor through which the planner uses what `init` registers (the accessor itself is defined outside this file): it returns a sequence exactly when the element type is registered and has at least one edge for the requested direction, and then that sequence; an unregistered type or an empty direction yields `None`, never an empty sequence |
| `OpgenOutForeignKey.Init` | pkg/sql/schemachanger/scplan/opgen/opgen_out_foreign_key.go:18-41 | after `init` the foreign-key type maps to the declared add and drop sequences; every other element type has the same entry, or the same absence, as before |
| `OpgenOutForeignKey.ForeignKeyAddEdge` | pkg/sql/schemachanger/scplan/opgen/opgen_out_foreign_key.go:20-26 | the add sequence has exactly one edge; it goes to `PUBLIC`, keeps the default phase and revertibility, and its emission returns the not-implemented placeholder for every foreign-key element |
| `OpgenOutForeignKey.ForeignKeyDropEdge` | pkg/sql/schemachanger/scplan/opgen/opgen_out_foreign_key.go:27-40 | the drop sequence has exactly one edge; it goes to `ABSENT`, has minimum phase `PreCommitPhase`, is not revertible, and for every element `e` emits `DropForeignKeyRef{TableID: e.OriginID, Name: e.Name, Outbound: true}` |
| `OpgenOutForeignKey.DropEmissionIdentifiesReference` | pkg/sql/schemachanger/scplan/opgen/opgen_out_foreign_key.go:32-38 | two foreign-key elements yield the same drop operation if and only if they agree on `OriginID` and `Name` |
| `OpgenOutForeignKey.DropEmissionExample` | pkg/sql/schemachanger/scplan/opgen/opgen_out_foreign_key.go:32-38 | the element `{OriginID: 7, Name: "fk1"}` yields `{TableID: 7, Name: "fk1", Outbound: true}` |
| `OpgenOutForeignKey.ForeignKeyRulesWellFormed` | pkg/sql/schemachanger/scplan/opgen/opgen_out_foreign_key.go:19-41 | each registered sequence is non-empty, ends at its direction's terminal status (`PUBLIC` for add, `ABSENT` for drop) and has an emission on every edge; the ordering clauses of `WellFormed` (distinct destinations, no revertible edge after a non-revertible one, non-decreasing phases) hold trivially because each sequence has one edge |
| `OpgenOutForeignKey.LookupAndEmitDrop` | pkg/sql/schemachanger/scplan/opgen/opgen_out_foreign_key.go:27-40 | in a registry holding the foreign-key entry that `init` registers, looking up the drop sequence and emitting its edge for `{OriginID: 7, Name: "fk1"}` gives `{TableID: 7, Name: "fk1", Outbound: true}`; the registry is only read |

## Left out

- The builder helpers `add`, `drop`, `to`, `minPhase`, `revertible`, `emit`
  and `notImplemented`, `opRegistry` and `register` are defined in files that
  are not part of this model. They are modelled only as the record
  constructors, field setters and map update that their use here implies. The
  defaults (statement phase, revertible) are the builder's documented
  defaults, not read from code.
- The registry's lookup accessor is defined outside this file. `Registry.Lookup`
  follows its documented behaviour: a type with no edges in the requested
  direction is reported as not registered.
- `add(...)` and `drop(...)` are modelled by the two parameter positions of
  `Register` rather than as functions that tag a sequence with its direction.
- Registration-time validation is not modelled: rejection of a duplicate
  registration, of a missing or repeated `emit`, and of a sequence that
  breaks the progression invariants. `Register` overwrites an existing entry,
  and a repeated modifier overrides the earlier one. `WellFormed` states the
  invariants as a predicate, proved of the foreign-key sequences, not checked
  by `Register`.
- `notImplemented(this)` is modelled as a bare `NotImplemented` operation.
  Whatever the placeholder records about the element lives in code that is not
  part of this model.
- Only the `OriginID` and `Name` fields of `scpb.ForeignKey`, and only the
  statuses `ABSENT` and `PUBLIC`, are modelled. As a result,
  `DropEmissionIdentifiesReference` compares two elements that have only those
  fields. Dafny functions are pure, so the emission cannot depend on anything
  but its argument.
- Edges of every element type are typed over the foreign-key element, the
  only element whose fields are modelled. Other element types appear in the
  registry only as keys (`OtherType`).
- The planner that walks edges from a current to a target status, the
  executor, the "not implemented" failure the planner reports, and the
  ordering of Go `init` functions at process start are all outside this file.
- The blob service tests in the repository concern file I/O and are not part
  of this model.
