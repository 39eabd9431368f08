/** Component schemas and the registry that numbers them. */
module Schema {
  import opened Base

  /** `Math` stands for the engine's vector, colour, transform and box types, whose size and alignment
      come from the engine's headers. */
  datatype FieldType =
    | Bool | I8 | I16 | I32 | I64 | U8 | U16 | U32 | U64 | F32 | F64
    | Math(width: nat, boundary: nat)
    | StringFixed | Blob

  datatype Priority = Realtime | High | Medium | Low | SpawnOnly | Local

  datatype Field = Field(kind: FieldType, offset: nat, byteSize: nat, count: nat, priority: Priority, networked: bool)

  datatype Schema = Schema(size: nat, alignment: nat, fields: seq<Field>, networked: bool)

  type Registry = seq<Schema>

  /** The smallest registry that takes part in replication: one networked type with one byte, of the tier that is sent
      every 0.05 seconds. */
  const ONE_BYTE: Registry := [Schema(1, 1, [Field(U8, 0, 1, 1, High, true)], true)]

  /** Ids start at 1; id 0 is the invalid type. */
  predicate Registered(reg: Registry, t: TypeId) {
    1 <= t <= |reg|
  }

  function SchemaOf(reg: Registry, t: TypeId): Schema
    requires Registered(reg, t)
  {
    reg[t - 1]
  }

  function SizeOf(reg: Registry, t: TypeId): nat
    requires Registered(reg, t)
  {
    SchemaOf(reg, t).size
  }
}
