/** The dynamically typed values an event carries (Go's `interface{}`). */
module Values {

  /** A 64-bit IEEE float, carried as its bit pattern: the filter copies
      coordinates and never computes with them. */
  datatype Float64 = Float64(bits: bv64)

  /** One event value. `Map` is exactly Go's `map[string]interface{}`; every
      other dynamic type (integers, slices, maps with other key types, ...)
      is an `Other`, told apart only by an identity. */
  datatype Value =
    | Nil
    | Str(s: string)
    | Num(f: Float64)
    | Map(m: map<string, Value>)
    | Other(id: nat)

  /** An event: a mutable mapping from field names to values. Go hands maps
      around by reference, so the filter's caller sees every update made
      through this object. */
  class Event {
    var fields: map<string, Value>

    constructor (fields: map<string, Value>)
      ensures this.fields == fields
    {
      this.fields := fields;
    }
  }

  /** The field accessor: reads (possibly nested) fields of an event and
      yields what it finds, `Nil` when nothing is there. */
  type ValueRender = map<string, Value> -> Value
}
