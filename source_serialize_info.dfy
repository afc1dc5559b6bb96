/**
 * The fixed table that tells, for each source configuration parameter, the Avro
 * type its value is serialised as.
 */
module SourceSerializeInfo {
  import opened Wrappers

  /** The Avro types the table uses. */
  datatype AvroType = BYTES | STRING | INT

  /** The source configuration parameters the table has a row for. */
  datatype SourceParameter =
    | TimestampExtractionFunction
    | SocketHostAddress
    | SocketHostPort
    | KafkaTopic
    | KafkaConsumerConfig
    | WatermarkPredicate
    | ParsingTimestampFromWatermark
    | Period
    | ExpectedDelay

  /**
   * The configuration key strings are constants of other parameter classes; the table
   * is written against a naming of the parameters. Names must be pairwise distinct,
   * as the immutable-map builder refuses a duplicate key.
   */
  predicate DistinctNames(keyName: SourceParameter -> string) {
    forall p, q :: keyName(p) == keyName(q) ==> p == q
  }

  /**
   * An assumed naming of the two text-socket parameters. The class the table takes
   * them from is not part of this model; the strings are those its namesake in the
   * sources package and the sink parameters of the same package declare.
   */
  predicate TextSocketNames(keyName: SourceParameter -> string) {
    keyName(SocketHostAddress) == "SocketHostAddress" && keyName(SocketHostPort) == "SocketHostPort"
  }

  /** The rows of the table: each parameter with the Avro type of its value. */
  function RowType(p: SourceParameter): AvroType {
    match p
    case TimestampExtractionFunction => BYTES
    case SocketHostAddress => STRING
    case SocketHostPort => INT
    case KafkaTopic => STRING
    case KafkaConsumerConfig => BYTES
    case WatermarkPredicate => BYTES
    case ParsingTimestampFromWatermark => BYTES
    case Period => INT
    case ExpectedDelay => INT
  }

  const AllParameters: set<SourceParameter> :=
    {TimestampExtractionFunction, SocketHostAddress, SocketHostPort, KafkaTopic, KafkaConsumerConfig,
     WatermarkPredicate, ParsingTimestampFromWatermark, Period, ExpectedDelay}

  /** The table, key string to Avro type, built once. */
  function AvroSerializedTypes(keyName: SourceParameter -> string): map<string, AvroType>
    requires DistinctNames(keyName)
  {
    map p | p in AllParameters :: keyName(p) := RowType(p)
  }

  /** The Avro type of a configuration key, None (null) for a key the table lacks. */
  function GetAvroSerializedTypeInfo(keyName: SourceParameter -> string, key: string): (r: Option<AvroType>)
    requires DistinctNames(keyName)
    ensures r.None? <==> forall p :: keyName(p) != key
  {
    Get(AvroSerializedTypes(keyName), key)
  }

  /** A parameter's key finds that parameter's row. */
  lemma LookupRow(keyName: SourceParameter -> string, p: SourceParameter)
    requires DistinctNames(keyName)
    ensures GetAvroSerializedTypeInfo(keyName, keyName(p)) == Some(RowType(p))
  {
    assert p in AllParameters;
    var m := AvroSerializedTypes(keyName);
    assert keyName(p) in m;
    var q :| q in AllParameters && keyName(q) == keyName(p) && m[keyName(p)] == RowType(q);
  }

  /** Every row of the table, as the source lists it. */
  lemma TableRows(keyName: SourceParameter -> string)
    requires DistinctNames(keyName)
    ensures GetAvroSerializedTypeInfo(keyName, keyName(TimestampExtractionFunction)) == Some(BYTES)
    ensures GetAvroSerializedTypeInfo(keyName, keyName(SocketHostAddress)) == Some(STRING)
    ensures GetAvroSerializedTypeInfo(keyName, keyName(SocketHostPort)) == Some(INT)
    ensures GetAvroSerializedTypeInfo(keyName, keyName(KafkaTopic)) == Some(STRING)
    ensures GetAvroSerializedTypeInfo(keyName, keyName(KafkaConsumerConfig)) == Some(BYTES)
    ensures GetAvroSerializedTypeInfo(keyName, keyName(WatermarkPredicate)) == Some(BYTES)
    ensures GetAvroSerializedTypeInfo(keyName, keyName(ParsingTimestampFromWatermark)) == Some(BYTES)
    ensures GetAvroSerializedTypeInfo(keyName, keyName(Period)) == Some(INT)
    ensures GetAvroSerializedTypeInfo(keyName, keyName(ExpectedDelay)) == Some(INT)
  {
    LookupRow(keyName, TimestampExtractionFunction);
    LookupRow(keyName, SocketHostAddress);
    LookupRow(keyName, SocketHostPort);
    LookupRow(keyName, KafkaTopic);
    LookupRow(keyName, KafkaConsumerConfig);
    LookupRow(keyName, WatermarkPredicate);
    LookupRow(keyName, ParsingTimestampFromWatermark);
    LookupRow(keyName, Period);
    LookupRow(keyName, ExpectedDelay);
  }

  /** Under the assumed text-socket naming: host address as STRING, host port as INT. */
  lemma TextSocketRows(keyName: SourceParameter -> string)
    requires DistinctNames(keyName) && TextSocketNames(keyName)
    ensures GetAvroSerializedTypeInfo(keyName, "SocketHostAddress") == Some(STRING)
    ensures GetAvroSerializedTypeInfo(keyName, "SocketHostPort") == Some(INT)
  {
    TableRows(keyName);
  }
}
