/**
  The Redshift `NodeConfigurationOption`: three members, each with a
  `...HasBeenSet` flag that every setter raises and nothing shown ever lowers.
  Its XML constructor and `OutputToStream` are not part of this model.
 */
module NodeConfigurationOptionModel {
  import opened Common

  /** A C++ `double`, held and returned unchanged; its arithmetic is not part of this model. */
  type Double(==)

  /** The observable state of an option: every member with its flag. */
  datatype OptionFields = OptionFields(
    nodeType: Tracked<string>,
    numberOfNodes: Tracked<int32>,
    estimatedDiskUtilizationPercent: Tracked<Double>)

  datatype Member =
    | NodeTypeMember
    | NumberOfNodesMember
    | EstimatedDiskUtilizationPercentMember

  function HasBeenSet(x: OptionFields, m: Member): bool {
    match m
    case NodeTypeMember => x.nodeType.hasBeenSet
    case NumberOfNodesMember => x.numberOfNodes.hasBeenSet
    case EstimatedDiskUtilizationPercentMember => x.estimatedDiskUtilizationPercent.hasBeenSet
  }

  /** Member `m`, value and flag, is the same in `x` and `y`. */
  predicate Agrees(x: OptionFields, y: OptionFields, m: Member) {
    match m
    case NodeTypeMember => x.nodeType == y.nodeType
    case NumberOfNodesMember => x.numberOfNodes == y.numberOfNodes
    case EstimatedDiskUtilizationPercentMember => x.estimatedDiskUtilizationPercent == y.estimatedDiskUtilizationPercent
  }

  /** One setter call; the `const&`, `&&` and `With...` overloads of a member share one. */
  datatype Mutation =
    | NewNodeType(nodeType: string)
    | NewNumberOfNodes(numberOfNodes: int32)
    | NewEstimatedDiskUtilizationPercent(estimatedDiskUtilizationPercent: Double)
  {
    function Target(): Member {
      match this
      case NewNodeType(_) => NodeTypeMember
      case NewNumberOfNodes(_) => NumberOfNodesMember
      case NewEstimatedDiskUtilizationPercent(_) => EstimatedDiskUtilizationPercentMember
    }
  }

  /** `x` holds the value `op` writes, with the flag raised. */
  predicate Holds(x: OptionFields, op: Mutation) {
    match op
    case NewNodeType(v) => x.nodeType == Tracked(v, true)
    case NewNumberOfNodes(v) => x.numberOfNodes == Tracked(v, true)
    case NewEstimatedDiskUtilizationPercent(v) => x.estimatedDiskUtilizationPercent == Tracked(v, true)
  }

  /** The state after one setter call: its member holds the value, every other member is kept. */
  function Apply(x: OptionFields, op: Mutation): (y: OptionFields)
    ensures Holds(y, op) && HasBeenSet(y, op.Target())
    ensures forall m :: m != op.Target() ==> Agrees(x, y, m)
  {
    match op
    case NewNodeType(v) => x.(nodeType := Tracked(v, true))
    case NewNumberOfNodes(v) => x.(numberOfNodes := Tracked(v, true))
    case NewEstimatedDiskUtilizationPercent(v) => x.(estimatedDiskUtilizationPercent := Tracked(v, true))
  }

  /** The state after the setter calls `ops`, in order. */
  function ApplyAll(x: OptionFields, ops: seq<Mutation>): OptionFields
    decreases |ops|
  {
    if ops == [] then x else ApplyAll(Apply(x, ops[0]), ops[1..])
  }

  /** Some call in `ops` sets member `m`. */
  predicate Touches(ops: seq<Mutation>, m: Member) {
    exists i :: 0 <= i < |ops| && ops[i].Target() == m
  }

  // ---------------------------------------------------------------------
  // Properties of the setters

  /** A state is determined by its members: Apply's contract leaves nothing open. */
  lemma AgreesEverywhere(x: OptionFields, y: OptionFields)
    requires forall m :: Agrees(x, y, m)
    ensures x == y
  {
    assert Agrees(x, y, NodeTypeMember) && Agrees(x, y, NumberOfNodesMember);
    assert Agrees(x, y, EstimatedDiskUtilizationPercentMember);
  }

  /**
    Apply's contract admits one state only: a state that holds the call's value
    and agrees with `x` on every other member is `Apply(x, op)`.
   */
  lemma ApplyDetermined(x: OptionFields, y: OptionFields, op: Mutation)
    requires Holds(y, op)
    requires forall m :: m != op.Target() ==> Agrees(x, y, m)
    ensures y == Apply(x, op)
  {
    var z := Apply(x, op);
    forall m
      ensures Agrees(y, z, m)
    {
      if m == op.Target() {
        assert Holds(z, op);
      } else {
        assert Agrees(x, y, m) && Agrees(x, z, m);
      }
    }
    AgreesEverywhere(y, z);
  }

  /** Setters of different members commute. */
  lemma ApplyCommutes(x: OptionFields, a: Mutation, b: Mutation)
    requires a.Target() != b.Target()
    ensures Apply(Apply(x, a), b) == Apply(Apply(x, b), a)
  {
  }

  /** A second setter call on the same member overwrites the first. */
  lemma ApplyOverwrites(x: OptionFields, a: Mutation, b: Mutation)
    requires a.Target() == b.Target()
    ensures Apply(Apply(x, a), b) == Apply(x, b)
  {
  }

  /** After any calls, a flag is set exactly when it was set before or some call set its member. */
  lemma {:induction false} ApplyAllFlags(x: OptionFields, ops: seq<Mutation>, m: Member)
    ensures HasBeenSet(ApplyAll(x, ops), m) <==> HasBeenSet(x, m) || Touches(ops, m)
    decreases |ops|
  {
    if ops != [] {
      var y := Apply(x, ops[0]);
      ApplyAllFlags(y, ops[1..], m);
      if Touches(ops[1..], m) {
        var i :| 0 <= i < |ops[1..]| && ops[1..][i].Target() == m;
        assert ops[i + 1].Target() == m;
      }
      if Touches(ops, m) && ops[0].Target() != m {
        var i :| 0 <= i < |ops| && ops[i].Target() == m;
        assert ops[1..][i - 1].Target() == m;
      }
    }
  }

  /** No setter lowers a flag. */
  lemma ApplyAllMonotone(x: OptionFields, ops: seq<Mutation>, m: Member)
    requires HasBeenSet(x, m)
    ensures HasBeenSet(ApplyAll(x, ops), m)
  {
    ApplyAllFlags(x, ops, m);
  }

  /** A member that no call sets keeps its value and flag. */
  lemma {:induction false} ApplyAllFrame(x: OptionFields, ops: seq<Mutation>, m: Member)
    requires !Touches(ops, m)
    ensures Agrees(x, ApplyAll(x, ops), m)
    decreases |ops|
  {
    if ops != [] {
      assert ops[0].Target() != m;
      assert !Touches(ops[1..], m) by {
        forall i | 0 <= i < |ops[1..]|
          ensures ops[1..][i].Target() != m
        {
          assert ops[1..][i] == ops[i + 1];
        }
      }
      ApplyAllFrame(Apply(x, ops[0]), ops[1..], m);
    }
  }

  lemma {:induction false} ApplyAllAppend(x: OptionFields, a: seq<Mutation>, b: seq<Mutation>)
    ensures ApplyAll(x, a + b) == ApplyAll(ApplyAll(x, a), b)
    decreases |a|
  {
    if a == [] {
      assert a + b == b;
    } else {
      assert (a + b)[0] == a[0] && (a + b)[1..] == a[1..] + b;
      ApplyAllAppend(Apply(x, a[0]), a[1..], b);
    }
  }

  /** The last call on a member decides its value. */
  lemma LastWriteWins(x: OptionFields, ops: seq<Mutation>, i: nat)
    requires i < |ops|
    requires forall j :: i < j < |ops| ==> ops[j].Target() != ops[i].Target()
    ensures Holds(ApplyAll(x, ops), ops[i])
  {
    var m := ops[i].Target();
    assert ops == ops[..i] + [ops[i]] + ops[i + 1..];
    ApplyAllAppend(x, ops[..i] + [ops[i]], ops[i + 1..]);
    ApplyAllAppend(x, ops[..i], [ops[i]]);
    var y := ApplyAll(x, ops[..i] + [ops[i]]);
    assert y == Apply(ApplyAll(x, ops[..i]), ops[i]);
    var rest := ops[i + 1..];
    assert !Touches(rest, m) by {
      forall k | 0 <= k < |rest|
        ensures rest[k].Target() != m
      {
        assert rest[k] == ops[i + 1 + k];
      }
    }
    ApplyAllFrame(y, rest, m);
  }

  // ---------------------------------------------------------------------
  // The class

  class NodeConfigurationOption {
    var nodeType: string
    var nodeTypeHasBeenSet: bool
    var numberOfNodes: int32
    var numberOfNodesHasBeenSet: bool
    var estimatedDiskUtilizationPercent: Double
    var estimatedDiskUtilizationPercentHasBeenSet: bool

    function Value(): OptionFields
      reads this
    {
      OptionFields(
        Tracked(nodeType, nodeTypeHasBeenSet),
        Tracked(numberOfNodes, numberOfNodesHasBeenSet),
        Tracked(estimatedDiskUtilizationPercent, estimatedDiskUtilizationPercentHasBeenSet))
    }

    /** The default constructor's body is not part of this model: it starts from a given state. */
    constructor (init: OptionFields)
      ensures Value() == init
    {
      nodeType, nodeTypeHasBeenSet := init.nodeType.value, init.nodeType.hasBeenSet;
      numberOfNodes, numberOfNodesHasBeenSet := init.numberOfNodes.value, init.numberOfNodes.hasBeenSet;
      estimatedDiskUtilizationPercent, estimatedDiskUtilizationPercentHasBeenSet := init.estimatedDiskUtilizationPercent.value, init.estimatedDiskUtilizationPercent.hasBeenSet;
    }

    // NodeType

    /** Reads the member `SetNodeType` writes, and changes nothing. */
    function GetNodeType(): (v: string)
      reads this
      ensures v == Value().nodeType.value
    {
      nodeType
    }

    /** Reads the flag `SetNodeType` raises, and changes nothing. */
    function NodeTypeHasBeenSet(): (b: bool)
      reads this
      ensures b == HasBeenSet(Value(), NodeTypeMember)
    {
      nodeTypeHasBeenSet
    }

    method SetNodeType(value: string)
      modifies this
      ensures GetNodeType() == value && NodeTypeHasBeenSet()
      ensures Value() == Apply(old(Value()), NewNodeType(value))
    {
      nodeTypeHasBeenSet := true;
      nodeType := value;
    }

    /** The `const char*` overload: the same state as the string overload on the characters read. */
    method SetNodeTypeFromCString(value: seq<char>)
      requires IsCString(value)
      modifies this
      ensures Value() == Apply(old(Value()), NewNodeType(CStringValue(value)))
    {
      nodeTypeHasBeenSet := true;
      nodeType := CStringValue(value);
    }

    method WithNodeType(value: string) returns (r: NodeConfigurationOption)
      modifies this
      ensures r == this
      ensures Value() == Apply(old(Value()), NewNodeType(value))
    {
      SetNodeType(value);
      r := this;
    }

    method WithNodeTypeFromCString(value: seq<char>) returns (r: NodeConfigurationOption)
      requires IsCString(value)
      modifies this
      ensures r == this
      ensures Value() == Apply(old(Value()), NewNodeType(CStringValue(value)))
    {
      SetNodeTypeFromCString(value);
      r := this;
    }

    // NumberOfNodes

    /** Reads the member `SetNumberOfNodes` writes, and changes nothing. */
    function GetNumberOfNodes(): (v: int32)
      reads this
      ensures v == Value().numberOfNodes.value
    {
      numberOfNodes
    }

    /** Reads the flag `SetNumberOfNodes` raises, and changes nothing. */
    function NumberOfNodesHasBeenSet(): (b: bool)
      reads this
      ensures b == HasBeenSet(Value(), NumberOfNodesMember)
    {
      numberOfNodesHasBeenSet
    }

    method SetNumberOfNodes(value: int32)
      modifies this
      ensures GetNumberOfNodes() == value && NumberOfNodesHasBeenSet()
      ensures Value() == Apply(old(Value()), NewNumberOfNodes(value))
    {
      numberOfNodesHasBeenSet := true;
      numberOfNodes := value;
    }

    method WithNumberOfNodes(value: int32) returns (r: NodeConfigurationOption)
      modifies this
      ensures r == this
      ensures Value() == Apply(old(Value()), NewNumberOfNodes(value))
    {
      SetNumberOfNodes(value);
      r := this;
    }

    // EstimatedDiskUtilizationPercent

    /** Reads the member `SetEstimatedDiskUtilizationPercent` writes, and changes nothing. */
    function GetEstimatedDiskUtilizationPercent(): (v: Double)
      reads this
      ensures v == Value().estimatedDiskUtilizationPercent.value
    {
      estimatedDiskUtilizationPercent
    }

    /** Reads the flag `SetEstimatedDiskUtilizationPercent` raises, and changes nothing. */
    function EstimatedDiskUtilizationPercentHasBeenSet(): (b: bool)
      reads this
      ensures b == HasBeenSet(Value(), EstimatedDiskUtilizationPercentMember)
    {
      estimatedDiskUtilizationPercentHasBeenSet
    }

    method SetEstimatedDiskUtilizationPercent(value: Double)
      modifies this
      ensures GetEstimatedDiskUtilizationPercent() == value && EstimatedDiskUtilizationPercentHasBeenSet()
      ensures Value() == Apply(old(Value()), NewEstimatedDiskUtilizationPercent(value))
    {
      estimatedDiskUtilizationPercentHasBeenSet := true;
      estimatedDiskUtilizationPercent := value;
    }

    method WithEstimatedDiskUtilizationPercent(value: Double) returns (r: NodeConfigurationOption)
      modifies this
      ensures r == this
      ensures Value() == Apply(old(Value()), NewEstimatedDiskUtilizationPercent(value))
    {
      SetEstimatedDiskUtilizationPercent(value);
      r := this;
    }
  }
}
