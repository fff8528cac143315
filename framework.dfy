/**
 * The attribute values of the Terraform plugin framework (`types.Int64`,
 * `types.String`, `types.Bool`). Their implementation is not part of this
 * model; what the model relies on is written out here as definitions:
 * a value is null, unknown or known, and the `Value…` accessors return the
 * Go zero value unless the value is known.
 */
module Framework {
  import opened Base

  datatype Nullable<+T> = Null | Unknown | Known(value: T)

  type Int64 = Nullable<int64>
  type String = Nullable<string>
  type Bool = Nullable<bool>

  /** `types.Int64Value(v)`, `types.StringValue(s)`, `types.BoolValue(b)`. */
  function Int64Value(v: int64): Int64 { Known(v) }
  function StringValue(s: string): String { Known(s) }
  function BoolValue(b: bool): Bool { Known(b) }

  /** `types.StringNull()`. */
  function StringNull(): String { Null }

  /** `ValueInt64()`: the value when known, 0 when null or unknown. */
  function ValueInt64(v: Int64): int64 {
    if v.Known? then v.value else 0
  }

  /** `ValueString()`: the value when known, "" when null or unknown. */
  function ValueString(v: String): string {
    if v.Known? then v.value else ""
  }

  /** `ValueBool()`: the value when known, false when null or unknown. */
  function ValueBool(v: Bool): bool {
    if v.Known? then v.value else false
  }
}
