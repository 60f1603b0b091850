/**
 * Parsing of one leaf-list entry from the format-specific elements that
 * represent it.
 */
module LeafSetEntryParser {
  import opened Outcomes
  import opened NodeTaxonomy
  import SerializerDispatcher

  /** A leaf-set entry node: bound to its leaf-list schema and holding one value. */
  datatype LeafSetEntry<V> = LeafSetEntry(schema: Schema, value: V)

  /**
   * Parses an entry: exactly one element must be given; `extract` (the
   * format's value parser) reads the value from it under the schema.
   */
  function Parse<E, V>(elements: seq<E>, schema: Schema, extract: (E, Schema) -> V): (r: Result<LeafSetEntry<V>, Error>)
    requires LeafListSchemaNode in schema.types
    ensures r.Success? <==> |elements| == 1
    ensures r.Failure? ==> r.error == BadCount(|elements|)
    ensures r.Success? ==> r.value.schema == schema && r.value.value == extract(elements[0], schema)
  {
    var size := |elements|;
    if size != 1 then Failure(BadCount(size))
    else
      var value := extract(elements[0], schema);
      Success(LeafSetEntry(schema, value))
  }

  /** Examples of the count rule: the error carries the actual number of elements. */
  lemma ParseRejectsOtherCounts<E, V>(a: E, b: E, schema: Schema, extract: (E, Schema) -> V)
    requires LeafListSchemaNode in schema.types
    ensures Parse([], schema, extract) == Failure(BadCount(0))
    ensures Parse([a, b], schema, extract) == Failure(BadCount(2))
    ensures Parse([a, b, a, b, a], schema, extract) == Failure(BadCount(5))
  {
  }

  /** The extractor is not consulted when the count is wrong: any two extractors give the same failure. */
  lemma ExtractorUnusedOnFailure<E, V>(elements: seq<E>, schema: Schema, f: (E, Schema) -> V, g: (E, Schema) -> V)
    requires LeafListSchemaNode in schema.types && |elements| != 1
    ensures Parse(elements, schema, f) == Parse(elements, schema, g)
  {
  }

  /**
   * The entry depends only on the value extracted from the sole element, so
   * parsing equal input twice gives equal entries.
   */
  lemma ParseDeterminedByExtractedValue<E, V>(x: E, y: E, schema: Schema, f: (E, Schema) -> V, g: (E, Schema) -> V)
    requires LeafListSchemaNode in schema.types
    requires f(x, schema) == g(y, schema)
    ensures Parse([x], schema, f) == Parse([y], schema, g)
    ensures Parse([x], schema, f).Success?
  {
  }

  /**
   * A leaf that the dispatcher serializes successfully always parses back as an
   * entry: its output is a single element, and the entry holds the value the
   * extractor reads from that element.
   */
  lemma LeafOutputParses<E, V>(ser: SerializerDispatcher.Serializers<E>, leafSchema: Schema, node: DataNode,
                              listSchema: Schema, extract: (E, Schema) -> V)
    requires LeafNode in node.types && ContainerNode !in node.types
    requires SerializerDispatcher.DispatchChildElement(ser, leafSchema, node).Success?
    requires LeafListSchemaNode in listSchema.types
    ensures var out := SerializerDispatcher.DispatchChildElement(ser, leafSchema, node).value;
      && out == ser.leafNodeSerializer(leafSchema, node)
      && Parse(out, listSchema, extract) == Success(LeafSetEntry(listSchema, extract(out[0], listSchema)))
  {
    ClassifyCases(node.types);
    SerializerDispatcher.SuccessIsSerializerOutput(ser, leafSchema, node);
  }
}
