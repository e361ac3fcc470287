/**
 * The part of the schema-element package (scpb) that the foreign-key
 * transition rule uses: the two element statuses the rule targets, the
 * element types the registry is keyed by, and the two fields of a
 * foreign-key element that its emission functions read.
 */
module Scpb {

  /** Element statuses. Only the two destinations of the foreign-key rule are modelled. */
  datatype Status = Absent | Public

  /** Descriptor identifiers are unsigned 32-bit integers. */
  newtype DescID = x: int | 0 <= x < 0x1_0000_0000

  /**
   * The element types the registry is keyed by. `ForeignKeyType` is the type
   * registered by the rule modelled here; `OtherType` stands for the types
   * registered by the other element files of the package.
   */
  datatype ElementType = ForeignKeyType | OtherType(typeName: string)

  /** A foreign-key element: the table it originates from and its constraint name. */
  datatype ForeignKey = ForeignKey(originID: DescID, name: string)
}
