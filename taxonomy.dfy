/**
 * The kinds of normalized data-tree children, the schema kind each one
 * requires, and the order in which the dispatcher tells the kinds apart.
 */
module NodeTaxonomy {
  import opened Outcomes

  /** Data-tree interfaces that the runtime class of a child node may implement. */
  datatype NodeType =
    | ContainerNode
    | LeafNode
    | MixinNode
    | LeafSetNode
    | MapNode
    | ChoiceNode
    | AugmentationNode

  /** Schema-model interfaces that the runtime class of a schema object may implement. */
  datatype SchemaType =
    | ContainerSchemaNode
    | LeafSchemaNode
    | LeafListSchemaNode
    | ListSchemaNode
    | ChoiceSchemaNode
    | AugmentationSchema

  /**
   * A data-tree child: the interfaces its class implements and its path
   * argument. `x instanceof T` is `T in x.types`. The identifier is read by
   * no member of the model; it lets distinct nodes of the same types exist,
   * which the per-kind serializers may tell apart.
   */
  datatype DataNode = DataNode(types: set<NodeType>, identifier: string)

  /**
   * A schema object: the schema interfaces its class implements (an object of
   * an unrelated class implements none) and its name.
   * `T.class.isAssignableFrom(s.getClass())` is `T in s.types`. The name is
   * read by no member of the model; it lets distinct schemas of the same types
   * exist, which the serializers and the entry parser may tell apart.
   */
  datatype Schema = Schema(types: set<SchemaType>, name: string)

  /** Argument errors raised while serializing a child or parsing an entry. */
  datatype Error =
    | UnsupportedNode
    | IncompatibleSchema(expected: SchemaType)
    | BadCount(count: nat)

  /** The six kinds of child the dispatcher serializes. */
  datatype Kind = Container | Leaf | LeafSet | Map | Choice | Augmentation

  /** The schema interface a child of kind `k` must be paired with. */
  function RequiredSchema(k: Kind): SchemaType
  {
    match k
    case Container => ContainerSchemaNode
    case Leaf => LeafSchemaNode
    case LeafSet => LeafListSchemaNode
    case Map => ListSchemaNode
    case Choice => ChoiceSchemaNode
    case Augmentation => AugmentationSchema
  }

  /** Kinds whose serialization must be exactly one element. */
  predicate SingleValued(k: Kind)
  {
    k == Container || k == Leaf
  }

  /** Each schema interface is required by at most one kind. */
  lemma RequiredSchemaInjective(k1: Kind, k2: Kind)
    ensures RequiredSchema(k1) == RequiredSchema(k2) <==> k1 == k2
  {
  }

  /**
   * One step of the classification: a node implementing `marker` (and, when
   * `underMixin`, also MixinNode) is of kind `kind`.
   */
  datatype Rule = Rule(marker: NodeType, underMixin: bool, kind: Kind)

  /** The rules in the order the dispatcher tries them. */
  const DispatchOrder: seq<Rule> := [
    Rule(ContainerNode, false, Container),
    Rule(LeafNode, false, Leaf),
    Rule(LeafSetNode, true, LeafSet),
    Rule(MapNode, true, Map),
    Rule(ChoiceNode, true, Choice),
    Rule(AugmentationNode, true, Augmentation)
  ]

  predicate Matches(rule: Rule, types: set<NodeType>)
  {
    rule.marker in types && (rule.underMixin ==> MixinNode in types)
  }

  /** The kind of the first rule that matches, if any. */
  function FirstMatch(rules: seq<Rule>, types: set<NodeType>): Option<Kind>
  {
    if rules == [] then None
    else if Matches(rules[0], types) then Some(rules[0].kind)
    else FirstMatch(rules[1..], types)
  }

  /** Rule `i` matches and no earlier rule does. */
  predicate FirstMatchAt(rules: seq<Rule>, types: set<NodeType>, i: int)
  {
    && 0 <= i < |rules|
    && Matches(rules[i], types)
    && forall j :: 0 <= j < i ==> !Matches(rules[j], types)
  }

  /** The kind of a child, by the fixed priority of DispatchOrder; None when no rule applies. */
  function Classify(types: set<NodeType>): Option<Kind>
  {
    FirstMatch(DispatchOrder, types)
  }

  /** FirstMatch picks the kind of the earliest matching rule. */
  lemma {:induction false} FirstMatchIsEarliest(rules: seq<Rule>, types: set<NodeType>, i: int)
    requires FirstMatchAt(rules, types, i)
    ensures FirstMatch(rules, types) == Some(rules[i].kind)
  {
    if i > 0 {
      assert !Matches(rules[0], types);
      forall j | 0 <= j < i - 1
        ensures !Matches(rules[1..][j], types)
      {
        assert rules[1..][j] == rules[j + 1];
      }
      FirstMatchIsEarliest(rules[1..], types, i - 1);
    }
  }

  /** Whatever FirstMatch returns comes from the earliest matching rule. */
  lemma {:induction false} FirstMatchSound(rules: seq<Rule>, types: set<NodeType>)
    requires FirstMatch(rules, types).Some?
    ensures exists i :: FirstMatchAt(rules, types, i) && rules[i].kind == FirstMatch(rules, types).value
  {
    if Matches(rules[0], types) {
      assert FirstMatchAt(rules, types, 0);
    } else {
      FirstMatchSound(rules[1..], types);
      var i :| FirstMatchAt(rules[1..], types, i) && rules[1..][i].kind == FirstMatch(rules[1..], types).value;
      forall j | 0 <= j < i + 1
        ensures !Matches(rules[j], types)
      {
        if j > 0 {
          assert rules[j] == rules[1..][j - 1];
        }
      }
      assert FirstMatchAt(rules, types, i + 1);
    }
  }

  /** FirstMatch finds nothing exactly when no rule matches. */
  lemma {:induction false} FirstMatchNone(rules: seq<Rule>, types: set<NodeType>)
    ensures FirstMatch(rules, types) == None <==> forall j :: 0 <= j < |rules| ==> !Matches(rules[j], types)
  {
    if rules != [] {
      FirstMatchNone(rules[1..], types);
      if !Matches(rules[0], types) {
        forall j | 0 <= j < |rules| && j > 0
          ensures Matches(rules[j], types) == Matches(rules[1..][j - 1], types)
        {
          assert rules[j] == rules[1..][j - 1];
        }
      }
    }
  }

  /**
   * The priority table agrees with the dispatcher's instanceof chain: container,
   * then leaf, then, only for mixin nodes, leaf-set, map, choice, augmentation.
   */
  lemma ClassifyCases(types: set<NodeType>)
    ensures Classify(types) ==
      if ContainerNode in types then Some(Container)
      else if LeafNode in types then Some(Leaf)
      else if MixinNode in types then
        if LeafSetNode in types then Some(LeafSet)
        else if MapNode in types then Some(Map)
        else if ChoiceNode in types then Some(Choice)
        else if AugmentationNode in types then Some(Augmentation)
        else None
      else None
  {
    var r := DispatchOrder;
    var t := types;
    assert FirstMatch(r, t) == if Matches(r[0], t) then Some(Container) else FirstMatch(r[1..], t);
    var r1 := r[1..];
    assert FirstMatch(r1, t) == if Matches(r1[0], t) then Some(Leaf) else FirstMatch(r1[1..], t);
    var r2 := r1[1..];
    assert FirstMatch(r2, t) == if Matches(r2[0], t) then Some(LeafSet) else FirstMatch(r2[1..], t);
    var r3 := r2[1..];
    assert FirstMatch(r3, t) == if Matches(r3[0], t) then Some(Map) else FirstMatch(r3[1..], t);
    var r4 := r3[1..];
    assert FirstMatch(r4, t) == if Matches(r4[0], t) then Some(Choice) else FirstMatch(r4[1..], t);
    var r5 := r4[1..];
    assert FirstMatch(r5, t) == if Matches(r5[0], t) then Some(Augmentation) else FirstMatch(r5[1..], t);
    assert r5[1..] == [];
  }

  /** The four mixin kinds are chosen only for a mixin that is neither a container nor a leaf. */
  lemma MixinKindsOnlyForMixins(types: set<NodeType>)
    requires Classify(types).Some? && !SingleValued(Classify(types).value)
    ensures MixinNode in types && ContainerNode !in types && LeafNode !in types
  {
    ClassifyCases(types);
  }

  /**
   * A node is unclassified exactly when it is neither a container nor a leaf and
   * either is not a mixin or is a mixin of none of the four mixin kinds.
   */
  lemma UnclassifiedNodes(types: set<NodeType>)
    ensures Classify(types) == None <==>
      && ContainerNode !in types
      && LeafNode !in types
      && (MixinNode !in types ||
          (LeafSetNode !in types && MapNode !in types && ChoiceNode !in types && AugmentationNode !in types))
  {
    ClassifyCases(types);
  }
}
