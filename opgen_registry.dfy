/**
 * The operation generator's registry: for each element type, the add and
 * drop edge sequences its rule file registered.
 */
module OpgenRegistry {
  import opened Wrappers
  import opened Scpb
  import opened OpgenBuilder

  /** The two sequences registered for one element type. */
  datatype Rules = Rules(add: seq<Edge>, drop: seq<Edge>) {

    /** The sequence declared for a direction. */
    function Edges(d: Direction): seq<Edge> {
      match d
      case AddDirection => add
      case DropDirection => drop
    }
  }

  /** The process-wide table the element rule files register into. */
  class Registry {
    var rules: map<ElementType, Rules>

    /** A registry with nothing registered yet. */
    constructor ()
      ensures rules == map[]
    {
      rules := map[];
    }

    /**
     * `register(sample, add(...), drop(...))`: records the two sequences
     * under the element type of the sample; every other entry is kept.
     */
    method Register(t: ElementType, add: seq<Edge>, drop: seq<Edge>)
      modifies this
      ensures rules == old(rules)[t := Rules(add, drop)]
    {
      rules := rules[t := Rules(add, drop)];
    }

    /**
     * The sequence registered for an element type and direction, or `None`
     * when the type was never registered or has no edges in that direction:
     * a lookup never hands out an empty sequence.
     */
    method Lookup(t: ElementType, d: Direction) returns (r: Option<seq<Edge>>)
      ensures r.Some? <==> t in rules && |rules[t].Edges(d)| > 0
      ensures r.Some? ==> r.value == rules[t].Edges(d) && |r.value| > 0
    {
      if t in rules && |rules[t].Edges(d)| > 0 {
        r := Some(rules[t].Edges(d));
      } else {
        r := None;
      }
    }
  }
}
