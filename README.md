# YANG normalized-node transform: child dispatch and leaf-list entry parsing

This project models two stateless pieces of the yangtools normalized-node
transform layer and proves their contracts in Dafny 4.11.

- **`BaseNodeSerializerDispatcher.dispatchChildElement`** serializes one child of
  a data container. It tells the child's kind apart with a chain of
  `instanceof` tests: container, then leaf, then, for a `MixinNode` only,
  leaf-set, map, choice and augmentation. It checks that the schema object is
  of the schema interface that kind requires. It then calls the per-kind
  serializer. For containers and leaves it also insists on exactly one
  serialized element. Anything else is an illegal argument.
- **`LeafSetEntryNodeBaseParser.parse`** builds a leaf-set entry node from the
  elements that represent it. It demands exactly one element, reads the value
  from it with the format's `parseLeafListEntry`, and binds the value to the
  leaf-list schema.

Both files are pure decision logic, so the model is functions and lemmas.

Modelling choices:

- Runtime types are sets of interfaces. A data node carries the set of
  data-tree interfaces its class implements (`NodeTaxonomy.DataNode.types`).
  A schema object carries the set of schema interfaces its class implements
  (`Schema.types`). So `x instanceof T` and
  `T.class.isAssignableFrom(x.getClass())` both become `T in x.types`. An
  object implementing one interface is the singleton case. A set is used so
  that a node implementing several interfaces exercises the priority order of
  the `instanceof` chain.
- The priority order also has an independent definition: a rule table
  (`DispatchOrder`) read by `FirstMatch`. `Classify` is that table.
  `ClassifyCases` proves that the table gives the same kind as the
  dispatcher's `instanceof` chain.
- The abstract getters `get…NodeSerializer()` become the six function-valued
  fields of `SerializerDispatcher.Serializers<E>`. The abstract
  `parseLeafListEntry` becomes the `extract` parameter of `Parse`.
  `Builders.leafSetEntryBuilder(schema).withValue(value).build()` becomes the
  `LeafSetEntry(schema, value)` datatype value.
- An `Iterable<E>` becomes a finite `seq<E>`. `Iterables.size` becomes `|s|`.
  `elements.iterator().next()` becomes `elements[0]`.
- A thrown `IllegalArgumentException` becomes a `Failure` carrying an `Error`.
  There are three errors: `UnsupportedNode`, `IncompatibleSchema(expected)` and
  `BadCount(count)`. The parser's count failure uses `BadCount` too.
- Dafny's `Parse` requires `LeafListSchemaNode in schema.types`. In Java the
  parameter's static type `LeafListSchemaNode` guarantees this.

## Model

| member | source | states |
|---|---|---|
| SerializerDispatcher.DispatchChildElement | yang/yang-data-impl/src/main/java/org/opendaylight/yangtools/yang/data/impl/schema/transform/base/serializer/NodeSerializerDispatcher.java:47-65 | the result of dispatching a child: unsupported when the child has no kind; an incompatible-schema error naming the required schema when the schema is of another kind; a count error when a container or leaf serializer gives other than one element; otherwise exactly the selected serializer's output |
| SerializerDispatcher.CheckSchemaCompatibility | yang/yang-data-impl/src/main/java/org/opendaylight/yangtools/yang/data/impl/schema/transform/base/serializer/NodeSerializerDispatcher.java:123-128 | passes exactly when the schema object is an instance of the expected schema interface, else fails naming that interface |
| SerializerDispatcher.CheckOnlyOneSerializedElement | yang/yang-data-impl/src/main/java/org/opendaylight/yangtools/yang/data/impl/schema/transform/base/serializer/NodeSerializerDispatcher.java:105-111 | passes exactly when there is one element, else fails with the actual count |
| SerializerDispatcher.OnContainerNode | yang/yang-data-impl/src/main/java/org/opendaylight/yangtools/yang/data/impl/schema/transform/base/serializer/NodeSerializerDispatcher.java:113-121 | wrong schema gives an incompatible-schema error; otherwise the container serializer's output when it has length 1, a count error with its length when not |
| SerializerDispatcher.OnLeafNode | yang/yang-data-impl/src/main/java/org/opendaylight/yangtools/yang/data/impl/schema/transform/base/serializer/NodeSerializerDispatcher.java:96-103 | wrong schema gives an incompatible-schema error; otherwise the leaf serializer's output when it has length 1, a count error with its length when not |
| SerializerDispatcher.OnLeafListNode | yang/yang-data-impl/src/main/java/org/opendaylight/yangtools/yang/data/impl/schema/transform/base/serializer/NodeSerializerDispatcher.java:89-94 | wrong schema gives an incompatible-schema error naming the leaf-list schema; otherwise the leaf-set serializer's output unchanged |
| SerializerDispatcher.OnListNode | yang/yang-data-impl/src/main/java/org/opendaylight/yangtools/yang/data/impl/schema/transform/base/serializer/NodeSerializerDispatcher.java:83-87 | wrong schema gives an incompatible-schema error naming the list schema; otherwise the map serializer's output unchanged |
| SerializerDispatcher.OnChoiceNode | yang/yang-data-impl/src/main/java/org/opendaylight/yangtools/yang/data/impl/schema/transform/base/serializer/NodeSerializerDispatcher.java:74-81 | wrong schema gives an incompatible-schema error naming the choice schema; otherwise the choice serializer's output unchanged |
| SerializerDispatcher.OnAugmentationSchema | yang/yang-data-impl/src/main/java/org/opendaylight/yangtools/yang/data/impl/schema/transform/base/serializer/NodeSerializerDispatcher.java:67-72 | wrong schema gives an incompatible-schema error naming the augmentation schema; otherwise the augmentation serializer's output unchanged |
| SerializerDispatcher.ContainerDispatch | yang/yang-data-impl/src/main/java/org/opendaylight/yangtools/yang/data/impl/schema/transform/base/serializer/NodeSerializerDispatcher.java:49-50 | a container with a container schema yields the container serializer's output if it is one element, else a count error with the actual length |
| SerializerDispatcher.LeafDispatch | yang/yang-data-impl/src/main/java/org/opendaylight/yangtools/yang/data/impl/schema/transform/base/serializer/NodeSerializerDispatcher.java:51-52 | a leaf that is not a container, with a leaf schema, yields the leaf serializer's output if it is one element, else a count error with the actual length |
| SerializerDispatcher.MixinDispatchUnchecked | yang/yang-data-impl/src/main/java/org/opendaylight/yangtools/yang/data/impl/schema/transform/base/serializer/NodeSerializerDispatcher.java:53-62 | leaf-set, map, choice and augmentation children with a compatible schema return their serializer's output unchanged, empty or long |
| SerializerDispatcher.IncompatibleSchemaFails | yang/yang-data-impl/src/main/java/org/opendaylight/yangtools/yang/data/impl/schema/transform/base/serializer/NodeSerializerDispatcher.java:123-128 | with a schema of the wrong kind dispatch fails naming the expected schema, and the result is the same for any serializer table |
| SerializerDispatcher.UnsupportedExactly | yang/yang-data-impl/src/main/java/org/opendaylight/yangtools/yang/data/impl/schema/transform/base/serializer/NodeSerializerDispatcher.java:53-64 | dispatch reports an unsupported node if and only if the child has no recognised kind |
| SerializerDispatcher.SuccessIsSerializerOutput | yang/yang-data-impl/src/main/java/org/opendaylight/yangtools/yang/data/impl/schema/transform/base/serializer/NodeSerializerDispatcher.java:49-62 | a successful result is exactly the selected serializer's output, for a compatible schema, with one element for containers and leaves |
| SerializerDispatcher.OnlySelectedSerializerMatters | yang/yang-data-impl/src/main/java/org/opendaylight/yangtools/yang/data/impl/schema/transform/base/serializer/NodeSerializerDispatcher.java:49-62 | two serializer tables that agree on the child's own kind give the same dispatch result |
| NodeTaxonomy.RequiredSchemaInjective | yang/yang-data-impl/src/main/java/org/opendaylight/yangtools/yang/data/impl/schema/transform/base/serializer/NodeSerializerDispatcher.java:130-140 | each kind requires its own schema interface; no two kinds share one |
| NodeTaxonomy.FirstMatchIsEarliest | yang/yang-data-impl/src/main/java/org/opendaylight/yangtools/yang/data/impl/schema/transform/base/serializer/NodeSerializerDispatcher.java:49-62 | the earliest matching rule of the priority table decides the kind |
| NodeTaxonomy.FirstMatchSound | yang/yang-data-impl/src/main/java/org/opendaylight/yangtools/yang/data/impl/schema/transform/base/serializer/NodeSerializerDispatcher.java:49-62 | any kind the priority table returns comes from its earliest matching rule |
| NodeTaxonomy.FirstMatchNone | yang/yang-data-impl/src/main/java/org/opendaylight/yangtools/yang/data/impl/schema/transform/base/serializer/NodeSerializerDispatcher.java:63-64 | the priority table finds no kind if and only if no rule matches |
| NodeTaxonomy.ClassifyCases | yang/yang-data-impl/src/main/java/org/opendaylight/yangtools/yang/data/impl/schema/transform/base/serializer/NodeSerializerDispatcher.java:49-64 | the priority table agrees with the instanceof chain: container, leaf, then for mixins only leaf-set, map, choice, augmentation |
| NodeTaxonomy.MixinKindsOnlyForMixins | yang/yang-data-impl/src/main/java/org/opendaylight/yangtools/yang/data/impl/schema/transform/base/serializer/NodeSerializerDispatcher.java:53-62 | the four mixin kinds are chosen only for a mixin node that is neither a container nor a leaf |
| NodeTaxonomy.UnclassifiedNodes | yang/yang-data-impl/src/main/java/org/opendaylight/yangtools/yang/data/impl/schema/transform/base/serializer/NodeSerializerDispatcher.java:53-64 | a child has no kind if and only if it is neither container nor leaf and is either not a mixin or a mixin of none of the four kinds |
| LeafSetEntryParser.Parse | yang/yang-data-impl/src/main/java/org/opendaylight/yangtools/yang/data/impl/schema/transform/base/parser/LeafSetEntryNodeBaseParser.java:27-32 | succeeds if and only if there is exactly one element; a failure carries the actual count; a success is an entry bound to the given schema holding the extractor's value for the sole element |
| LeafSetEntryParser.ParseRejectsOtherCounts | yang/yang-data-impl/src/main/java/org/opendaylight/yangtools/yang/data/impl/schema/transform/base/parser/LeafSetEntryNodeBaseParser.java:28-29 | zero, two and five elements fail with counts 0, 2 and 5 |
| LeafSetEntryParser.ExtractorUnusedOnFailure | yang/yang-data-impl/src/main/java/org/opendaylight/yangtools/yang/data/impl/schema/transform/base/parser/LeafSetEntryNodeBaseParser.java:28-30 | with a wrong count the extractor is never consulted: any two extractors give the same failure |
| LeafSetEntryParser.ParseDeterminedByExtractedValue | yang/yang-data-impl/src/main/java/org/opendaylight/yangtools/yang/data/impl/schema/transform/base/parser/LeafSetEntryNodeBaseParser.java:30-31 | the entry depends only on the extracted value, so parsing the same single element twice gives equal entries |
| LeafSetEntryParser.LeafOutputParses | yang/yang-data-impl/src/main/java/org/opendaylight/yangtools/yang/data/impl/schema/transform/base/parser/LeafSetEntryNodeBaseParser.java:28-31 | the output of a successful leaf dispatch is the leaf serializer's output and always parses as an entry holding the extractor's value for its sole element |

## Left out

- Null arguments are not modelled. A null schema makes `getClass()` throw, and a null child falls through to the unsupported-node error. Dafny values are never null.
- Exception message text is not modelled. Errors carry only the expected schema interface or the element count.
- Laziness and single-pass consumption of `Iterable` are not modelled: the elements are a finite sequence.
- `Iterables.size` saturates at `Integer.MAX_VALUE`. The model counts with unbounded naturals, so reported counts beyond that bound differ.
- Java class hierarchies are not modelled. A node's interface set is arbitrary, so the model does not assume that `LeafSetNode`, `MapNode`, `ChoiceNode` and `AugmentationNode` extend `MixinNode`.
- The concrete serializers, the concrete `parseLeafListEntry` implementations and the node builder are not part of this model. They are parameters.
- Round trips through concrete codecs (string, integer, boolean values) depend on those codecs and are not stated. `LeafOutputParses` states what the core itself guarantees about that composition.
- The tree walker that calls the dispatcher once per child is not part of this model.
