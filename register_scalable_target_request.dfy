/**
  The Application Auto Scaling `RegisterScalableTargetRequest`: seven members,
  each with a `...HasBeenSet` flag that every setter raises and nothing
  shown ever lowers. The request's serialisation is not part of this model.
 */
module RegisterScalableTargetRequestModel {
  import opened Common

  /** Member types whose definitions are not part of this model; only equality is used. */
  type ServiceNamespace(==)
  type ScalableDimension(==)
  type SuspendedState(==)

  /** The observable state of a request: every member with its flag. */
  datatype RequestFields = RequestFields(
    serviceNamespace: Tracked<ServiceNamespace>,
    resourceId: Tracked<string>,
    scalableDimension: Tracked<ScalableDimension>,
    minCapacity: Tracked<int32>,
    maxCapacity: Tracked<int32>,
    roleARN: Tracked<string>,
    suspendedState: Tracked<SuspendedState>)

  datatype Member =
    | ServiceNamespaceMember
    | ResourceIdMember
    | ScalableDimensionMember
    | MinCapacityMember
    | MaxCapacityMember
    | RoleARNMember
    | SuspendedStateMember

  function HasBeenSet(x: RequestFields, m: Member): bool {
    match m
    case ServiceNamespaceMember => x.serviceNamespace.hasBeenSet
    case ResourceIdMember => x.resourceId.hasBeenSet
    case ScalableDimensionMember => x.scalableDimension.hasBeenSet
    case MinCapacityMember => x.minCapacity.hasBeenSet
    case MaxCapacityMember => x.maxCapacity.hasBeenSet
    case RoleARNMember => x.roleARN.hasBeenSet
    case SuspendedStateMember => x.suspendedState.hasBeenSet
  }

  /** Member `m`, value and flag, is the same in `x` and `y`. */
  predicate Agrees(x: RequestFields, y: RequestFields, m: Member) {
    match m
    case ServiceNamespaceMember => x.serviceNamespace == y.serviceNamespace
    case ResourceIdMember => x.resourceId == y.resourceId
    case ScalableDimensionMember => x.scalableDimension == y.scalableDimension
    case MinCapacityMember => x.minCapacity == y.minCapacity
    case MaxCapacityMember => x.maxCapacity == y.maxCapacity
    case RoleARNMember => x.roleARN == y.roleARN
    case SuspendedStateMember => x.suspendedState == y.suspendedState
  }

  /** One setter call; the `const&`, `&&` and `With...` overloads of a member share one. */
  datatype Mutation =
    | NewServiceNamespace(serviceNamespace: ServiceNamespace)
    | NewResourceId(resourceId: string)
    | NewScalableDimension(scalableDimension: ScalableDimension)
    | NewMinCapacity(minCapacity: int32)
    | NewMaxCapacity(maxCapacity: int32)
    | NewRoleARN(roleARN: string)
    | NewSuspendedState(suspendedState: SuspendedState)
  {
    function Target(): Member {
      match this
      case NewServiceNamespace(_) => ServiceNamespaceMember
      case NewResourceId(_) => ResourceIdMember
      case NewScalableDimension(_) => ScalableDimensionMember
      case NewMinCapacity(_) => MinCapacityMember
      case NewMaxCapacity(_) => MaxCapacityMember
      case NewRoleARN(_) => RoleARNMember
      case NewSuspendedState(_) => SuspendedStateMember
    }
  }

  /** `x` holds the value `op` writes, with the flag raised. */
  predicate Holds(x: RequestFields, op: Mutation) {
    match op
    case NewServiceNamespace(v) => x.serviceNamespace == Tracked(v, true)
    case NewResourceId(v) => x.resourceId == Tracked(v, true)
    case NewScalableDimension(v) => x.scalableDimension == Tracked(v, true)
    case NewMinCapacity(v) => x.minCapacity == Tracked(v, true)
    case NewMaxCapacity(v) => x.maxCapacity == Tracked(v, true)
    case NewRoleARN(v) => x.roleARN == Tracked(v, true)
    case NewSuspendedState(v) => x.suspendedState == Tracked(v, true)
  }

  /** The state after one setter call: its member holds the value, every other member is kept. */
  function Apply(x: RequestFields, op: Mutation): (y: RequestFields)
    ensures Holds(y, op) && HasBeenSet(y, op.Target())
    ensures forall m :: m != op.Target() ==> Agrees(x, y, m)
  {
    match op
    case NewServiceNamespace(v) => x.(serviceNamespace := Tracked(v, true))
    case NewResourceId(v) => x.(resourceId := Tracked(v, true))
    case NewScalableDimension(v) => x.(scalableDimension := Tracked(v, true))
    case NewMinCapacity(v) => x.(minCapacity := Tracked(v, true))
    case NewMaxCapacity(v) => x.(maxCapacity := Tracked(v, true))
    case NewRoleARN(v) => x.(roleARN := Tracked(v, true))
    case NewSuspendedState(v) => x.(suspendedState := Tracked(v, true))
  }

  /** The state after the setter calls `ops`, in order. */
  function ApplyAll(x: RequestFields, ops: seq<Mutation>): RequestFields
    decreases |ops|
  {
    if ops == [] then x else ApplyAll(Apply(x, ops[0]), ops[1..])
  }

  /** Some call in `ops` sets member `m`. */
  predicate Touches(ops: seq<Mutation>, m: Member) {
    exists i :: 0 <= i < |ops| && ops[i].Target() == m
  }

  // ---------------------------------------------------------------------
  // Properties of the setters

  /** A state is determined by its members: Apply's contract leaves nothing open. */
  lemma AgreesEverywhere(x: RequestFields, y: RequestFields)
    requires forall m :: Agrees(x, y, m)
    ensures x == y
  {
    assert Agrees(x, y, ServiceNamespaceMember) && Agrees(x, y, ResourceIdMember);
    assert Agrees(x, y, ScalableDimensionMember) && Agrees(x, y, MinCapacityMember);
    assert Agrees(x, y, MaxCapacityMember) && Agrees(x, y, RoleARNMember);
    assert Agrees(x, y, SuspendedStateMember);
  }

  /**
    Apply's contract admits one state only: a state that holds the call's value
    and agrees with `x` on every other member is `Apply(x, op)`.
   */
  lemma ApplyDetermined(x: RequestFields, y: RequestFields, op: Mutation)
    requires Holds(y, op)
    requires forall m :: m != op.Target() ==> Agrees(x, y, m)
    ensures y == Apply(x, op)
  {
    var z := Apply(x, op);
    forall m
      ensures Agrees(y, z, m)
    {
      if m == op.Target() {
        assert Holds(z, op);
      } else {
        assert Agrees(x, y, m) && Agrees(x, z, m);
      }
    }
    AgreesEverywhere(y, z);
  }

  /** Setters of different members commute. */
  lemma ApplyCommutes(x: RequestFields, a: Mutation, b: Mutation)
    requires a.Target() != b.Target()
    ensures Apply(Apply(x, a), b) == Apply(Apply(x, b), a)
  {
  }

  /** A second setter call on the same member overwrites the first. */
  lemma ApplyOverwrites(x: RequestFields, a: Mutation, b: Mutation)
    requires a.Target() == b.Target()
    ensures Apply(Apply(x, a), b) == Apply(x, b)
  {
  }

  /** After any calls, a flag is set exactly when it was set before or some call set its member. */
  lemma {:induction false} ApplyAllFlags(x: RequestFields, ops: seq<Mutation>, m: Member)
    ensures HasBeenSet(ApplyAll(x, ops), m) <==> HasBeenSet(x, m) || Touches(ops, m)
    decreases |ops|
  {
    if ops != [] {
      var y := Apply(x, ops[0]);
      ApplyAllFlags(y, ops[1..], m);
      if Touches(ops[1..], m) {
        var i :| 0 <= i < |ops[1..]| && ops[1..][i].Target() == m;
        assert ops[i + 1].Target() == m;
      }
      if Touches(ops, m) && ops[0].Target() != m {
        var i :| 0 <= i < |ops| && ops[i].Target() == m;
        assert ops[1..][i - 1].Target() == m;
      }
    }
  }

  /** No setter lowers a flag. */
  lemma ApplyAllMonotone(x: RequestFields, ops: seq<Mutation>, m: Member)
    requires HasBeenSet(x, m)
    ensures HasBeenSet(ApplyAll(x, ops), m)
  {
    ApplyAllFlags(x, ops, m);
  }

  /** A member that no call sets keeps its value and flag. */
  lemma {:induction false} ApplyAllFrame(x: RequestFields, ops: seq<Mutation>, m: Member)
    requires !Touches(ops, m)
    ensures Agrees(x, ApplyAll(x, ops), m)
    decreases |ops|
  {
    if ops != [] {
      assert ops[0].Target() != m;
      assert !Touches(ops[1..], m) by {
        forall i | 0 <= i < |ops[1..]|
          ensures ops[1..][i].Target() != m
        {
          assert ops[1..][i] == ops[i + 1];
        }
      }
      ApplyAllFrame(Apply(x, ops[0]), ops[1..], m);
    }
  }

  lemma {:induction false} ApplyAllAppend(x: RequestFields, a: seq<Mutation>, b: seq<Mutation>)
    ensures ApplyAll(x, a + b) == ApplyAll(ApplyAll(x, a), b)
    decreases |a|
  {
    if a == [] {
      assert a + b == b;
    } else {
      assert (a + b)[0] == a[0] && (a + b)[1..] == a[1..] + b;
      ApplyAllAppend(Apply(x, a[0]), a[1..], b);
    }
  }

  /** The last call on a member decides its value. */
  lemma LastWriteWins(x: RequestFields, ops: seq<Mutation>, i: nat)
    requires i < |ops|
    requires forall j :: i < j < |ops| ==> ops[j].Target() != ops[i].Target()
    ensures Holds(ApplyAll(x, ops), ops[i])
  {
    var m := ops[i].Target();
    assert ops == ops[..i] + [ops[i]] + ops[i + 1..];
    ApplyAllAppend(x, ops[..i] + [ops[i]], ops[i + 1..]);
    ApplyAllAppend(x, ops[..i], [ops[i]]);
    var y := ApplyAll(x, ops[..i] + [ops[i]]);
    assert y == Apply(ApplyAll(x, ops[..i]), ops[i]);
    var rest := ops[i + 1..];
    assert !Touches(rest, m) by {
      forall k | 0 <= k < |rest|
        ensures rest[k].Target() != m
      {
        assert rest[k] == ops[i + 1 + k];
      }
    }
    ApplyAllFrame(y, rest, m);
  }

  // ---------------------------------------------------------------------
  // The class

  class RegisterScalableTargetRequest {
    var serviceNamespace: ServiceNamespace
    var serviceNamespaceHasBeenSet: bool
    var resourceId: string
    var resourceIdHasBeenSet: bool
    var scalableDimension: ScalableDimension
    var scalableDimensionHasBeenSet: bool
    var minCapacity: int32
    var minCapacityHasBeenSet: bool
    var maxCapacity: int32
    var maxCapacityHasBeenSet: bool
    var roleARN: string
    var roleARNHasBeenSet: bool
    var suspendedState: SuspendedState
    var suspendedStateHasBeenSet: bool

    function Value(): RequestFields
      reads this
    {
      RequestFields(
        Tracked(serviceNamespace, serviceNamespaceHasBeenSet),
        Tracked(resourceId, resourceIdHasBeenSet),
        Tracked(scalableDimension, scalableDimensionHasBeenSet),
        Tracked(minCapacity, minCapacityHasBeenSet),
        Tracked(maxCapacity, maxCapacityHasBeenSet),
        Tracked(roleARN, roleARNHasBeenSet),
        Tracked(suspendedState, suspendedStateHasBeenSet))
    }

    /** The default constructor's body is not part of this model: it starts from a given state. */
    constructor (init: RequestFields)
      ensures Value() == init
    {
      serviceNamespace, serviceNamespaceHasBeenSet := init.serviceNamespace.value, init.serviceNamespace.hasBeenSet;
      resourceId, resourceIdHasBeenSet := init.resourceId.value, init.resourceId.hasBeenSet;
      scalableDimension, scalableDimensionHasBeenSet := init.scalableDimension.value, init.scalableDimension.hasBeenSet;
      minCapacity, minCapacityHasBeenSet := init.minCapacity.value, init.minCapacity.hasBeenSet;
      maxCapacity, maxCapacityHasBeenSet := init.maxCapacity.value, init.maxCapacity.hasBeenSet;
      roleARN, roleARNHasBeenSet := init.roleARN.value, init.roleARN.hasBeenSet;
      suspendedState, suspendedStateHasBeenSet := init.suspendedState.value, init.suspendedState.hasBeenSet;
    }

    /** The operation name this request is sent under. */
    function GetServiceRequestName(): (name: string)
      ensures name == "RegisterScalableTarget"
    {
      "RegisterScalableTarget"
    }

    // ServiceNamespace

    /** Reads the member `SetServiceNamespace` writes, and changes nothing. */
    function GetServiceNamespace(): (v: ServiceNamespace)
      reads this
      ensures v == Value().serviceNamespace.value
    {
      serviceNamespace
    }

    /** Reads the flag `SetServiceNamespace` raises, and changes nothing. */
    function ServiceNamespaceHasBeenSet(): (b: bool)
      reads this
      ensures b == HasBeenSet(Value(), ServiceNamespaceMember)
    {
      serviceNamespaceHasBeenSet
    }

    method SetServiceNamespace(value: ServiceNamespace)
      modifies this
      ensures GetServiceNamespace() == value && ServiceNamespaceHasBeenSet()
      ensures Value() == Apply(old(Value()), NewServiceNamespace(value))
    {
      serviceNamespaceHasBeenSet := true;
      serviceNamespace := value;
    }

    method WithServiceNamespace(value: ServiceNamespace) returns (r: RegisterScalableTargetRequest)
      modifies this
      ensures r == this
      ensures Value() == Apply(old(Value()), NewServiceNamespace(value))
    {
      SetServiceNamespace(value);
      r := this;
    }

    // ResourceId

    /** Reads the member `SetResourceId` writes, and changes nothing. */
    function GetResourceId(): (v: string)
      reads this
      ensures v == Value().resourceId.value
    {
      resourceId
    }

    /** Reads the flag `SetResourceId` raises, and changes nothing. */
    function ResourceIdHasBeenSet(): (b: bool)
      reads this
      ensures b == HasBeenSet(Value(), ResourceIdMember)
    {
      resourceIdHasBeenSet
    }

    method SetResourceId(value: string)
      modifies this
      ensures GetResourceId() == value && ResourceIdHasBeenSet()
      ensures Value() == Apply(old(Value()), NewResourceId(value))
    {
      resourceIdHasBeenSet := true;
      resourceId := value;
    }

    /** The `const char*` overload: the same state as the string overload on the characters read. */
    method SetResourceIdFromCString(value: seq<char>)
      requires IsCString(value)
      modifies this
      ensures Value() == Apply(old(Value()), NewResourceId(CStringValue(value)))
    {
      resourceIdHasBeenSet := true;
      resourceId := CStringValue(value);
    }

    method WithResourceId(value: string) returns (r: RegisterScalableTargetRequest)
      modifies this
      ensures r == this
      ensures Value() == Apply(old(Value()), NewResourceId(value))
    {
      SetResourceId(value);
      r := this;
    }

    method WithResourceIdFromCString(value: seq<char>) returns (r: RegisterScalableTargetRequest)
      requires IsCString(value)
      modifies this
      ensures r == this
      ensures Value() == Apply(old(Value()), NewResourceId(CStringValue(value)))
    {
      SetResourceIdFromCString(value);
      r := this;
    }

    // ScalableDimension

    /** Reads the member `SetScalableDimension` writes, and changes nothing. */
    function GetScalableDimension(): (v: ScalableDimension)
      reads this
      ensures v == Value().scalableDimension.value
    {
      scalableDimension
    }

    /** Reads the flag `SetScalableDimension` raises, and changes nothing. */
    function ScalableDimensionHasBeenSet(): (b: bool)
      reads this
      ensures b == HasBeenSet(Value(), ScalableDimensionMember)
    {
      scalableDimensionHasBeenSet
    }

    method SetScalableDimension(value: ScalableDimension)
      modifies this
      ensures GetScalableDimension() == value && ScalableDimensionHasBeenSet()
      ensures Value() == Apply(old(Value()), NewScalableDimension(value))
    {
      scalableDimensionHasBeenSet := true;
      scalableDimension := value;
    }

    method WithScalableDimension(value: ScalableDimension) returns (r: RegisterScalableTargetRequest)
      modifies this
      ensures r == this
      ensures Value() == Apply(old(Value()), NewScalableDimension(value))
    {
      SetScalableDimension(value);
      r := this;
    }

    // MinCapacity

    /** Reads the member `SetMinCapacity` writes, and changes nothing. */
    function GetMinCapacity(): (v: int32)
      reads this
      ensures v == Value().minCapacity.value
    {
      minCapacity
    }

    /** Reads the flag `SetMinCapacity` raises, and changes nothing. */
    function MinCapacityHasBeenSet(): (b: bool)
      reads this
      ensures b == HasBeenSet(Value(), MinCapacityMember)
    {
      minCapacityHasBeenSet
    }

    method SetMinCapacity(value: int32)
      modifies this
      ensures GetMinCapacity() == value && MinCapacityHasBeenSet()
      ensures Value() == Apply(old(Value()), NewMinCapacity(value))
    {
      minCapacityHasBeenSet := true;
      minCapacity := value;
    }

    method WithMinCapacity(value: int32) returns (r: RegisterScalableTargetRequest)
      modifies this
      ensures r == this
      ensures Value() == Apply(old(Value()), NewMinCapacity(value))
    {
      SetMinCapacity(value);
      r := this;
    }

    // MaxCapacity

    /** Reads the member `SetMaxCapacity` writes, and changes nothing. */
    function GetMaxCapacity(): (v: int32)
      reads this
      ensures v == Value().maxCapacity.value
    {
      maxCapacity
    }

    /** Reads the flag `SetMaxCapacity` raises, and changes nothing. */
    function MaxCapacityHasBeenSet(): (b: bool)
      reads this
      ensures b == HasBeenSet(Value(), MaxCapacityMember)
    {
      maxCapacityHasBeenSet
    }

    method SetMaxCapacity(value: int32)
      modifies this
      ensures GetMaxCapacity() == value && MaxCapacityHasBeenSet()
      ensures Value() == Apply(old(Value()), NewMaxCapacity(value))
    {
      maxCapacityHasBeenSet := true;
      maxCapacity := value;
    }

    method WithMaxCapacity(value: int32) returns (r: RegisterScalableTargetRequest)
      modifies this
      ensures r == this
      ensures Value() == Apply(old(Value()), NewMaxCapacity(value))
    {
      SetMaxCapacity(value);
      r := this;
    }

    // RoleARN

    /** Reads the member `SetRoleARN` writes, and changes nothing. */
    function GetRoleARN(): (v: string)
      reads this
      ensures v == Value().roleARN.value
    {
      roleARN
    }

    /** Reads the flag `SetRoleARN` raises, and changes nothing. */
    function RoleARNHasBeenSet(): (b: bool)
      reads this
      ensures b == HasBeenSet(Value(), RoleARNMember)
    {
      roleARNHasBeenSet
    }

    method SetRoleARN(value: string)
      modifies this
      ensures GetRoleARN() == value && RoleARNHasBeenSet()
      ensures Value() == Apply(old(Value()), NewRoleARN(value))
    {
      roleARNHasBeenSet := true;
      roleARN := value;
    }

    /** The `const char*` overload: the same state as the string overload on the characters read. */
    method SetRoleARNFromCString(value: seq<char>)
      requires IsCString(value)
      modifies this
      ensures Value() == Apply(old(Value()), NewRoleARN(CStringValue(value)))
    {
      roleARNHasBeenSet := true;
      roleARN := CStringValue(value);
    }

    method WithRoleARN(value: string) returns (r: RegisterScalableTargetRequest)
      modifies this
      ensures r == this
      ensures Value() == Apply(old(Value()), NewRoleARN(value))
    {
      SetRoleARN(value);
      r := this;
    }

    method WithRoleARNFromCString(value: seq<char>) returns (r: RegisterScalableTargetRequest)
      requires IsCString(value)
      modifies this
      ensures r == this
      ensures Value() == Apply(old(Value()), NewRoleARN(CStringValue(value)))
    {
      SetRoleARNFromCString(value);
      r := this;
    }

    // SuspendedState

    /** Reads the member `SetSuspendedState` writes, and changes nothing. */
    function GetSuspendedState(): (v: SuspendedState)
      reads this
      ensures v == Value().suspendedState.value
    {
      suspendedState
    }

    /** Reads the flag `SetSuspendedState` raises, and changes nothing. */
    function SuspendedStateHasBeenSet(): (b: bool)
      reads this
      ensures b == HasBeenSet(Value(), SuspendedStateMember)
    {
      suspendedStateHasBeenSet
    }

    method SetSuspendedState(value: SuspendedState)
      modifies this
      ensures GetSuspendedState() == value && SuspendedStateHasBeenSet()
      ensures Value() == Apply(old(Value()), NewSuspendedState(value))
    {
      suspendedStateHasBeenSet := true;
      suspendedState := value;
    }

    method WithSuspendedState(value: SuspendedState) returns (r: RegisterScalableTargetRequest)
      modifies this
      ensures r == this
      ensures Value() == Apply(old(Value()), NewSuspendedState(value))
    {
      SetSuspendedState(value);
      r := this;
    }
  }
}
