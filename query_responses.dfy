/** The normalised result of a query (LongitudeQueryResponse). */
module QueryResponses {
  import opened Values

  /** A duration in seconds, as measured by the adapter. */
  type Duration = real

  /** The `{'type': <type name>}` record kept per field. */
  datatype FieldType = FieldType(typeName: string)

  datatype QueryResponse = QueryResponse(
    rows: seq<map<string, Value>>,
    fields: map<string, FieldType>,
    profiling: map<string, Duration>)
}
