/**
 * Dispatch of a data-tree child to the serializer for its kind, after checking
 * that the schema object is of the kind that child requires.
 */
module SerializerDispatcher {
  import opened Outcomes
  import opened NodeTaxonomy

  /**
   * The six per-kind serializers a concrete dispatcher provides, each turning a
   * schema and a data node into a sequence of serialized elements.
   */
  datatype Serializers<E> = Serializers(
    containerNodeSerializer: (Schema, DataNode) -> seq<E>,
    leafNodeSerializer: (Schema, DataNode) -> seq<E>,
    leafSetNodeSerializer: (Schema, DataNode) -> seq<E>,
    mapNodeSerializer: (Schema, DataNode) -> seq<E>,
    choiceNodeSerializer: (Schema, DataNode) -> seq<E>,
    augmentationNodeSerializer: (Schema, DataNode) -> seq<E>)
  {
    /** The serializer responsible for children of kind `k`. */
    function Select(k: Kind): (Schema, DataNode) -> seq<E>
    {
      match k
      case Container => containerNodeSerializer
      case Leaf => leafNodeSerializer
      case LeafSet => leafSetNodeSerializer
      case Map => mapNodeSerializer
      case Choice => choiceNodeSerializer
      case Augmentation => augmentationNodeSerializer
    }
  }

  /** Passes exactly when the schema object is an instance of `expected`. */
  function CheckSchemaCompatibility(schema: Schema, expected: SchemaType): (c: Check<Error>)
    ensures c.Pass? <==> expected in schema.types
    ensures c.Fail? ==> c.error == IncompatibleSchema(expected)
  {
    if expected in schema.types then Pass else Fail(IncompatibleSchema(expected))
  }

  /** Passes exactly when one element was produced; otherwise reports the count. */
  function CheckOnlyOneSerializedElement<E>(elements: seq<E>): (c: Check<Error>)
    ensures c.Pass? <==> |elements| == 1
    ensures c.Fail? ==> c.error == BadCount(|elements|)
  {
    var size := |elements|;
    if size == 1 then Pass else Fail(BadCount(size))
  }

  function OnAugmentationSchema<E>(ser: Serializers<E>, schema: Schema, node: DataNode): (r: Result<seq<E>, Error>)
    requires AugmentationNode in node.types
    ensures AugmentationSchema !in schema.types ==> r == Failure(IncompatibleSchema(AugmentationSchema))
    ensures AugmentationSchema in schema.types ==> r == Success(ser.augmentationNodeSerializer(schema, node))
  {
    var compatible := CheckSchemaCompatibility(schema, AugmentationSchema);
    if compatible.Fail? then Failure(compatible.error)
    else Success(ser.augmentationNodeSerializer(schema, node))
  }

  function OnChoiceNode<E>(ser: Serializers<E>, schema: Schema, node: DataNode): (r: Result<seq<E>, Error>)
    requires ChoiceNode in node.types
    ensures ChoiceSchemaNode !in schema.types ==> r == Failure(IncompatibleSchema(ChoiceSchemaNode))
    ensures ChoiceSchemaNode in schema.types ==> r == Success(ser.choiceNodeSerializer(schema, node))
  {
    var compatible := CheckSchemaCompatibility(schema, ChoiceSchemaNode);
    if compatible.Fail? then Failure(compatible.error)
    else Success(ser.choiceNodeSerializer(schema, node))
  }

  function OnListNode<E>(ser: Serializers<E>, schema: Schema, node: DataNode): (r: Result<seq<E>, Error>)
    requires MapNode in node.types
    ensures ListSchemaNode !in schema.types ==> r == Failure(IncompatibleSchema(ListSchemaNode))
    ensures ListSchemaNode in schema.types ==> r == Success(ser.mapNodeSerializer(schema, node))
  {
    var compatible := CheckSchemaCompatibility(schema, ListSchemaNode);
    if compatible.Fail? then Failure(compatible.error)
    else Success(ser.mapNodeSerializer(schema, node))
  }

  function OnLeafListNode<E>(ser: Serializers<E>, schema: Schema, node: DataNode): (r: Result<seq<E>, Error>)
    requires LeafSetNode in node.types
    ensures LeafListSchemaNode !in schema.types ==> r == Failure(IncompatibleSchema(LeafListSchemaNode))
    ensures LeafListSchemaNode in schema.types ==> r == Success(ser.leafSetNodeSerializer(schema, node))
  {
    var compatible := CheckSchemaCompatibility(schema, LeafListSchemaNode);
    if compatible.Fail? then Failure(compatible.error)
    else Success(ser.leafSetNodeSerializer(schema, node))
  }

  function OnLeafNode<E>(ser: Serializers<E>, schema: Schema, node: DataNode): (r: Result<seq<E>, Error>)
    requires LeafNode in node.types
    ensures LeafSchemaNode !in schema.types ==> r == Failure(IncompatibleSchema(LeafSchemaNode))
    ensures LeafSchemaNode in schema.types && |ser.leafNodeSerializer(schema, node)| == 1 ==>
      r == Success(ser.leafNodeSerializer(schema, node))
    ensures LeafSchemaNode in schema.types && |ser.leafNodeSerializer(schema, node)| != 1 ==>
      r == Failure(BadCount(|ser.leafNodeSerializer(schema, node)|))
  {
    var compatible := CheckSchemaCompatibility(schema, LeafSchemaNode);
    if compatible.Fail? then Failure(compatible.error)
    else
      var elements := ser.leafNodeSerializer(schema, node);
      var count := CheckOnlyOneSerializedElement(elements);
      if count.Fail? then Failure(count.error)
      else Success(elements)
  }

  function OnContainerNode<E>(ser: Serializers<E>, schema: Schema, node: DataNode): (r: Result<seq<E>, Error>)
    requires ContainerNode in node.types
    ensures ContainerSchemaNode !in schema.types ==> r == Failure(IncompatibleSchema(ContainerSchemaNode))
    ensures ContainerSchemaNode in schema.types && |ser.containerNodeSerializer(schema, node)| == 1 ==>
      r == Success(ser.containerNodeSerializer(schema, node))
    ensures ContainerSchemaNode in schema.types && |ser.containerNodeSerializer(schema, node)| != 1 ==>
      r == Failure(BadCount(|ser.containerNodeSerializer(schema, node)|))
  {
    var compatible := CheckSchemaCompatibility(schema, ContainerSchemaNode);
    if compatible.Fail? then Failure(compatible.error)
    else
      var elements := ser.containerNodeSerializer(schema, node);
      var count := CheckOnlyOneSerializedElement(elements);
      if count.Fail? then Failure(count.error)
      else Success(elements)
  }

  /**
   * Serializes one child. The result is decided by the child's kind under the
   * priority table: an unclassifiable child is unsupported; a schema of the
   * wrong kind is an incompatible-schema error; a container or leaf must
   * serialize to exactly one element; any other serializer output is returned
   * as it is.
   */
  function DispatchChildElement<E>(ser: Serializers<E>, schema: Schema, node: DataNode): (r: Result<seq<E>, Error>)
    ensures match Classify(node.types)
      case None => r == Failure(UnsupportedNode)
      case Some(k) =>
        var out := ser.Select(k)(schema, node);
        if RequiredSchema(k) !in schema.types then r == Failure(IncompatibleSchema(RequiredSchema(k)))
        else if SingleValued(k) && |out| != 1 then r == Failure(BadCount(|out|))
        else r == Success(out)
  {
    ClassifyCases(node.types);
    if ContainerNode in node.types then
      OnContainerNode(ser, schema, node)
    else if LeafNode in node.types then
      OnLeafNode(ser, schema, node)
    else if MixinNode in node.types then
      if LeafSetNode in node.types then
        OnLeafListNode(ser, schema, node)
      else if MapNode in node.types then
        OnListNode(ser, schema, node)
      else if ChoiceNode in node.types then
        OnChoiceNode(ser, schema, node)
      else if AugmentationNode in node.types then
        OnAugmentationSchema(ser, schema, node)
      else
        Failure(UnsupportedNode)
    else
      Failure(UnsupportedNode)
  }

  // Properties of the dispatcher

  /** A container with a container schema yields its serializer's output when that is one element, else a count error. */
  lemma ContainerDispatch<E>(ser: Serializers<E>, schema: Schema, node: DataNode)
    requires ContainerNode in node.types && ContainerSchemaNode in schema.types
    ensures var out := ser.containerNodeSerializer(schema, node);
      DispatchChildElement(ser, schema, node) == if |out| == 1 then Success(out) else Failure(BadCount(|out|))
  {
    ClassifyCases(node.types);
  }

  /** A leaf (that is not also a container) with a leaf schema: same single-element rule. */
  lemma LeafDispatch<E>(ser: Serializers<E>, schema: Schema, node: DataNode)
    requires LeafNode in node.types && ContainerNode !in node.types && LeafSchemaNode in schema.types
    ensures var out := ser.leafNodeSerializer(schema, node);
      DispatchChildElement(ser, schema, node) == if |out| == 1 then Success(out) else Failure(BadCount(|out|))
  {
    ClassifyCases(node.types);
  }

  /** Mixin kinds with a compatible schema return their serializer's output unchanged, whatever its length. */
  lemma MixinDispatchUnchecked<E>(ser: Serializers<E>, schema: Schema, node: DataNode)
    requires Classify(node.types).Some? && !SingleValued(Classify(node.types).value)
    requires RequiredSchema(Classify(node.types).value) in schema.types
    ensures DispatchChildElement(ser, schema, node) == Success(ser.Select(Classify(node.types).value)(schema, node))
  {
  }

  /**
   * With a schema of the wrong kind the dispatch fails naming the expected kind,
   * and the outcome is the same for any two serializer tables.
   */
  lemma IncompatibleSchemaFails<E>(ser: Serializers<E>, other: Serializers<E>, schema: Schema, node: DataNode, k: Kind)
    requires Classify(node.types) == Some(k) && RequiredSchema(k) !in schema.types
    ensures DispatchChildElement(ser, schema, node) == Failure(IncompatibleSchema(RequiredSchema(k)))
    ensures DispatchChildElement(ser, schema, node) == DispatchChildElement(other, schema, node)
  {
  }

  /** Dispatch reports an unsupported node exactly when the child has no recognised kind. */
  lemma UnsupportedExactly<E>(ser: Serializers<E>, schema: Schema, node: DataNode)
    ensures DispatchChildElement(ser, schema, node) == Failure(UnsupportedNode) <==> Classify(node.types) == None
  {
  }

  /**
   * On success the output is exactly what the selected serializer produced, the
   * schema is of the required kind, and a container or leaf produced one element.
   */
  lemma SuccessIsSerializerOutput<E>(ser: Serializers<E>, schema: Schema, node: DataNode)
    requires DispatchChildElement(ser, schema, node).Success?
    ensures Classify(node.types).Some?
    ensures var k := Classify(node.types).value;
      && RequiredSchema(k) in schema.types
      && DispatchChildElement(ser, schema, node).value == ser.Select(k)(schema, node)
      && (SingleValued(k) ==> |DispatchChildElement(ser, schema, node).value| == 1)
  {
  }

  /** Only the serializer of the child's own kind matters: tables that agree on it dispatch alike. */
  lemma OnlySelectedSerializerMatters<E>(ser: Serializers<E>, other: Serializers<E>, schema: Schema, node: DataNode, k: Kind)
    requires Classify(node.types) == Some(k)
    requires ser.Select(k)(schema, node) == other.Select(k)(schema, node)
    ensures DispatchChildElement(ser, schema, node) == DispatchChildElement(other, schema, node)
  {
  }
}
