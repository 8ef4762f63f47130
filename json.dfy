/**
 * JSON values as the adapters build them: the `map[string]interface{}` payloads,
 * the `ExtraParams` passthrough map and the arrays of message objects.
 */
module Json {

  /** A Go `float64`. The adapters only forward floats, so the model keeps the
      IEEE 754 bit pattern and looks inside only to tell finite from NaN/Inf. */
  datatype Float64 = Float64(bits: bv64) {
    /** False exactly for NaN and the infinities (all exponent bits set). */
    predicate IsFinite() {
      (bits >> 52) & 0x7FF != 0x7FF
    }
  }

  datatype Json =
    | JNull
    | JBool(b: bool)
    | JInt(i: int)
    | JFloat(f: Float64)
    | JString(s: string)
    | JArray(items: seq<Json>)
    | JObject(fields: map<string, Json>)

  /** `json.Marshal` succeeds on the value: it refuses NaN and infinite floats
      (an UnsupportedValueError), wherever they sit in the tree. */
  predicate Encodable(j: Json) {
    match j
    case JFloat(f) => f.IsFinite()
    case JArray(items) => forall i :: 0 <= i < |items| ==> Encodable(items[i])
    case JObject(fields) => forall k :: k in fields ==> Encodable(fields[k])
    case _ => true
  }
}
