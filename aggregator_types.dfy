/** The data types of the aggregated configuration (pkg/aggregator/types.go). */
module AggregatorTypes {

  /**
   * A decoded YAML/JSON value. The source holds fragments as map[string]interface{};
   * here the dynamic value is a tagged union. YAML floats are represented by reals.
   */
  datatype Value =
    | Null
    | Bool(b: bool)
    | Int(i: int)
    | Float(f: real)
    | Str(s: string)
    | List(items: seq<Value>)
    | Mapping(fields: map<string, Value>)

  /** The type `obj` of the source: one decoded configuration fragment. */
  type Obj = map<string, Value>

  /** The key under which every merged entry records the namespace it came from. */
  const Namespace: string := "namespace"

  /** The merged artifact; it is serialised as `configs: [...]`. */
  datatype GlobalConfig = GlobalConfig(configs: seq<Obj>)
}
