/**
  The Pinpoint `ApplicationDateRangeKpiResponse`: six members, each with a
  `...HasBeenSet` flag that every setter raises and nothing shown ever lowers.
  Its JSON constructor and `Jsonize` are not part of this model.
 */
module ApplicationDateRangeKpiResponseModel {
  import opened Common

  /** Member types whose definitions are not part of this model; only equality is used. */
  type DateTime(==)
  type BaseKpiResult(==)

  /** The observable state of a response: every member with its flag. */
  datatype ResponseFields = ResponseFields(
    applicationId: Tracked<string>,
    endTime: Tracked<DateTime>,
    kpiName: Tracked<string>,
    kpiResult: Tracked<BaseKpiResult>,
    nextToken: Tracked<string>,
    startTime: Tracked<DateTime>)

  datatype Member =
    | ApplicationIdMember
    | EndTimeMember
    | KpiNameMember
    | KpiResultMember
    | NextTokenMember
    | StartTimeMember

  function HasBeenSet(x: ResponseFields, m: Member): bool {
    match m
    case ApplicationIdMember => x.applicationId.hasBeenSet
    case EndTimeMember => x.endTime.hasBeenSet
    case KpiNameMember => x.kpiName.hasBeenSet
    case KpiResultMember => x.kpiResult.hasBeenSet
    case NextTokenMember => x.nextToken.hasBeenSet
    case StartTimeMember => x.startTime.hasBeenSet
  }

  /** Member `m`, value and flag, is the same in `x` and `y`. */
  predicate Agrees(x: ResponseFields, y: ResponseFields, m: Member) {
    match m
    case ApplicationIdMember => x.applicationId == y.applicationId
    case EndTimeMember => x.endTime == y.endTime
    case KpiNameMember => x.kpiName == y.kpiName
    case KpiResultMember => x.kpiResult == y.kpiResult
    case NextTokenMember => x.nextToken == y.nextToken
    case StartTimeMember => x.startTime == y.startTime
  }

  /** One setter call; the `const&`, `&&` and `With...` overloads of a member share one. */
  datatype Mutation =
    | NewApplicationId(applicationId: string)
    | NewEndTime(endTime: DateTime)
    | NewKpiName(kpiName: string)
    | NewKpiResult(kpiResult: BaseKpiResult)
    | NewNextToken(nextToken: string)
    | NewStartTime(startTime: DateTime)
  {
    function Target(): Member {
      match this
      case NewApplicationId(_) => ApplicationIdMember
      case NewEndTime(_) => EndTimeMember
      case NewKpiName(_) => KpiNameMember
      case NewKpiResult(_) => KpiResultMember
      case NewNextToken(_) => NextTokenMember
      case NewStartTime(_) => StartTimeMember
    }
  }

  /** `x` holds the value `op` writes, with the flag raised. */
  predicate Holds(x: ResponseFields, op: Mutation) {
    match op
    case NewApplicationId(v) => x.applicationId == Tracked(v, true)
    case NewEndTime(v) => x.endTime == Tracked(v, true)
    case NewKpiName(v) => x.kpiName == Tracked(v, true)
    case NewKpiResult(v) => x.kpiResult == Tracked(v, true)
    case NewNextToken(v) => x.nextToken == Tracked(v, true)
    case NewStartTime(v) => x.startTime == Tracked(v, true)
  }

  /** The state after one setter call: its member holds the value, every other member is kept. */
  function Apply(x: ResponseFields, op: Mutation): (y: ResponseFields)
    ensures Holds(y, op) && HasBeenSet(y, op.Target())
    ensures forall m :: m != op.Target() ==> Agrees(x, y, m)
  {
    match op
    case NewApplicationId(v) => x.(applicationId := Tracked(v, true))
    case NewEndTime(v) => x.(endTime := Tracked(v, true))
    case NewKpiName(v) => x.(kpiName := Tracked(v, true))
    case NewKpiResult(v) => x.(kpiResult := Tracked(v, true))
    case NewNextToken(v) => x.(nextToken := Tracked(v, true))
    case NewStartTime(v) => x.(startTime := Tracked(v, true))
  }

  /** The state after the setter calls `ops`, in order. */
  function ApplyAll(x: ResponseFields, ops: seq<Mutation>): ResponseFields
    decreases |ops|
  {
    if ops == [] then x else ApplyAll(Apply(x, ops[0]), ops[1..])
  }

  /** Some call in `ops` sets member `m`. */
  predicate Touches(ops: seq<Mutation>, m: Member) {
    exists i :: 0 <= i < |ops| && ops[i].Target() == m
  }

  // ---------------------------------------------------------------------
  // Properties of the setters

  /** A state is determined by its members: Apply's contract leaves nothing open. */
  lemma AgreesEverywhere(x: ResponseFields, y: ResponseFields)
    requires forall m :: Agrees(x, y, m)
    ensures x == y
  {
    assert Agrees(x, y, ApplicationIdMember) && Agrees(x, y, EndTimeMember);
    assert Agrees(x, y, KpiNameMember) && Agrees(x, y, KpiResultMember);
    assert Agrees(x, y, NextTokenMember) && Agrees(x, y, StartTimeMember);
  }

  /**
    Apply's contract admits one state only: a state that holds the call's value
    and agrees with `x` on every other member is `Apply(x, op)`.
   */
  lemma ApplyDetermined(x: ResponseFields, y: ResponseFields, op: Mutation)
    requires Holds(y, op)
    requires forall m :: m != op.Target() ==> Agrees(x, y, m)
    ensures y == Apply(x, op)
  {
    var z := Apply(x, op);
    forall m
      ensures Agrees(y, z, m)
    {
      if m == op.Target() {
        assert Holds(z, op);
      } else {
        assert Agrees(x, y, m) && Agrees(x, z, m);
      }
    }
    AgreesEverywhere(y, z);
  }

  /** Setters of different members commute. */
  lemma ApplyCommutes(x: ResponseFields, a: Mutation, b: Mutation)
    requires a.Target() != b.Target()
    ensures Apply(Apply(x, a), b) == Apply(Apply(x, b), a)
  {
  }

  /** A second setter call on the same member overwrites the first. */
  lemma ApplyOverwrites(x: ResponseFields, a: Mutation, b: Mutation)
    requires a.Target() == b.Target()
    ensures Apply(Apply(x, a), b) == Apply(x, b)
  {
  }

  /** After any calls, a flag is set exactly when it was set before or some call set its member. */
  lemma {:induction false} ApplyAllFlags(x: ResponseFields, ops: seq<Mutation>, m: Member)
    ensures HasBeenSet(ApplyAll(x, ops), m) <==> HasBeenSet(x, m) || Touches(ops, m)
    decreases |ops|
  {
    if ops != [] {
      var y := Apply(x, ops[0]);
      ApplyAllFlags(y, ops[1..], m);
      if Touches(ops[1..], m) {
        var i :| 0 <= i < |ops[1..]| && ops[1..][i].Target() == m;
        assert ops[i + 1].Target() == m;
      }
      if Touches(ops, m) && ops[0].Target() != m {
        var i :| 0 <= i < |ops| && ops[i].Target() == m;
        assert ops[1..][i - 1].Target() == m;
      }
    }
  }

  /** No setter lowers a flag. */
  lemma ApplyAllMonotone(x: ResponseFields, ops: seq<Mutation>, m: Member)
    requires HasBeenSet(x, m)
    ensures HasBeenSet(ApplyAll(x, ops), m)
  {
    ApplyAllFlags(x, ops, m);
  }

  /** A member that no call sets keeps its value and flag. */
  lemma {:induction false} ApplyAllFrame(x: ResponseFields, ops: seq<Mutation>, m: Member)
    requires !Touches(ops, m)
    ensures Agrees(x, ApplyAll(x, ops), m)
    decreases |ops|
  {
    if ops != [] {
      assert ops[0].Target() != m;
      assert !Touches(ops[1..], m) by {
        forall i | 0 <= i < |ops[1..]|
          ensures ops[1..][i].Target() != m
        {
          assert ops[1..][i] == ops[i + 1];
        }
      }
      ApplyAllFrame(Apply(x, ops[0]), ops[1..], m);
    }
  }

  lemma {:induction false} ApplyAllAppend(x: ResponseFields, a: seq<Mutation>, b: seq<Mutation>)
    ensures ApplyAll(x, a + b) == ApplyAll(ApplyAll(x, a), b)
    decreases |a|
  {
    if a == [] {
      assert a + b == b;
    } else {
      assert (a + b)[0] == a[0] && (a + b)[1..] == a[1..] + b;
      ApplyAllAppend(Apply(x, a[0]), a[1..], b);
    }
  }

  /** The last call on a member decides its value. */
  lemma LastWriteWins(x: ResponseFields, ops: seq<Mutation>, i: nat)
    requires i < |ops|
    requires forall j :: i < j < |ops| ==> ops[j].Target() != ops[i].Target()
    ensures Holds(ApplyAll(x, ops), ops[i])
  {
    var m := ops[i].Target();
    assert ops == ops[..i] + [ops[i]] + ops[i + 1..];
    ApplyAllAppend(x, ops[..i] + [ops[i]], ops[i + 1..]);
    ApplyAllAppend(x, ops[..i], [ops[i]]);
    var y := ApplyAll(x, ops[..i] + [ops[i]]);
    assert y == Apply(ApplyAll(x, ops[..i]), ops[i]);
    var rest := ops[i + 1..];
    assert !Touches(rest, m) by {
      forall k | 0 <= k < |rest|
        ensures rest[k].Target() != m
      {
        assert rest[k] == ops[i + 1 + k];
      }
    }
    ApplyAllFrame(y, rest, m);
  }

  // ---------------------------------------------------------------------
  // The class

  class ApplicationDateRangeKpiResponse {
    var applicationId: string
    var applicationIdHasBeenSet: bool
    var endTime: DateTime
    var endTimeHasBeenSet: bool
    var kpiName: string
    var kpiNameHasBeenSet: bool
    var kpiResult: BaseKpiResult
    var kpiResultHasBeenSet: bool
    var nextToken: string
    var nextTokenHasBeenSet: bool
    var startTime: DateTime
    var startTimeHasBeenSet: bool

    function Value(): ResponseFields
      reads this
    {
      ResponseFields(
        Tracked(applicationId, applicationIdHasBeenSet),
        Tracked(endTime, endTimeHasBeenSet),
        Tracked(kpiName, kpiNameHasBeenSet),
        Tracked(kpiResult, kpiResultHasBeenSet),
        Tracked(nextToken, nextTokenHasBeenSet),
        Tracked(startTime, startTimeHasBeenSet))
    }

    /** The default constructor's body is not part of this model: it starts from a given state. */
    constructor (init: ResponseFields)
      ensures Value() == init
    {
      applicationId, applicationIdHasBeenSet := init.applicationId.value, init.applicationId.hasBeenSet;
      endTime, endTimeHasBeenSet := init.endTime.value, init.endTime.hasBeenSet;
      kpiName, kpiNameHasBeenSet := init.kpiName.value, init.kpiName.hasBeenSet;
      kpiResult, kpiResultHasBeenSet := init.kpiResult.value, init.kpiResult.hasBeenSet;
      nextToken, nextTokenHasBeenSet := init.nextToken.value, init.nextToken.hasBeenSet;
      startTime, startTimeHasBeenSet := init.startTime.value, init.startTime.hasBeenSet;
    }

    // ApplicationId

    /** Reads the member `SetApplicationId` writes, and changes nothing. */
    function GetApplicationId(): (v: string)
      reads this
      ensures v == Value().applicationId.value
    {
      applicationId
    }

    /** Reads the flag `SetApplicationId` raises, and changes nothing. */
    function ApplicationIdHasBeenSet(): (b: bool)
      reads this
      ensures b == HasBeenSet(Value(), ApplicationIdMember)
    {
      applicationIdHasBeenSet
    }

    method SetApplicationId(value: string)
      modifies this
      ensures GetApplicationId() == value && ApplicationIdHasBeenSet()
      ensures Value() == Apply(old(Value()), NewApplicationId(value))
    {
      applicationIdHasBeenSet := true;
      applicationId := value;
    }

    /** The `const char*` overload: the same state as the string overload on the characters read. */
    method SetApplicationIdFromCString(value: seq<char>)
      requires IsCString(value)
      modifies this
      ensures Value() == Apply(old(Value()), NewApplicationId(CStringValue(value)))
    {
      applicationIdHasBeenSet := true;
      applicationId := CStringValue(value);
    }

    method WithApplicationId(value: string) returns (r: ApplicationDateRangeKpiResponse)
      modifies this
      ensures r == this
      ensures Value() == Apply(old(Value()), NewApplicationId(value))
    {
      SetApplicationId(value);
      r := this;
    }

    method WithApplicationIdFromCString(value: seq<char>) returns (r: ApplicationDateRangeKpiResponse)
      requires IsCString(value)
      modifies this
      ensures r == this
      ensures Value() == Apply(old(Value()), NewApplicationId(CStringValue(value)))
    {
      SetApplicationIdFromCString(value);
      r := this;
    }

    // EndTime

    /** Reads the member `SetEndTime` writes, and changes nothing. */
    function GetEndTime(): (v: DateTime)
      reads this
      ensures v == Value().endTime.value
    {
      endTime
    }

    /** Reads the flag `SetEndTime` raises, and changes nothing. */
    function EndTimeHasBeenSet(): (b: bool)
      reads this
      ensures b == HasBeenSet(Value(), EndTimeMember)
    {
      endTimeHasBeenSet
    }

    method SetEndTime(value: DateTime)
      modifies this
      ensures GetEndTime() == value && EndTimeHasBeenSet()
      ensures Value() == Apply(old(Value()), NewEndTime(value))
    {
      endTimeHasBeenSet := true;
      endTime := value;
    }

    method WithEndTime(value: DateTime) returns (r: ApplicationDateRangeKpiResponse)
      modifies this
      ensures r == this
      ensures Value() == Apply(old(Value()), NewEndTime(value))
    {
      SetEndTime(value);
      r := this;
    }

    // KpiName

    /** Reads the member `SetKpiName` writes, and changes nothing. */
    function GetKpiName(): (v: string)
      reads this
      ensures v == Value().kpiName.value
    {
      kpiName
    }

    /** Reads the flag `SetKpiName` raises, and changes nothing. */
    function KpiNameHasBeenSet(): (b: bool)
      reads this
      ensures b == HasBeenSet(Value(), KpiNameMember)
    {
      kpiNameHasBeenSet
    }

    method SetKpiName(value: string)
      modifies this
      ensures GetKpiName() == value && KpiNameHasBeenSet()
      ensures Value() == Apply(old(Value()), NewKpiName(value))
    {
      kpiNameHasBeenSet := true;
      kpiName := value;
    }

    /** The `const char*` overload: the same state as the string overload on the characters read. */
    method SetKpiNameFromCString(value: seq<char>)
      requires IsCString(value)
      modifies this
      ensures Value() == Apply(old(Value()), NewKpiName(CStringValue(value)))
    {
      kpiNameHasBeenSet := true;
      kpiName := CStringValue(value);
    }

    method WithKpiName(value: string) returns (r: ApplicationDateRangeKpiResponse)
      modifies this
      ensures r == this
      ensures Value() == Apply(old(Value()), NewKpiName(value))
    {
      SetKpiName(value);
      r := this;
    }

    method WithKpiNameFromCString(value: seq<char>) returns (r: ApplicationDateRangeKpiResponse)
      requires IsCString(value)
      modifies this
      ensures r == this
      ensures Value() == Apply(old(Value()), NewKpiName(CStringValue(value)))
    {
      SetKpiNameFromCString(value);
      r := this;
    }

    // KpiResult

    /** Reads the member `SetKpiResult` writes, and changes nothing. */
    function GetKpiResult(): (v: BaseKpiResult)
      reads this
      ensures v == Value().kpiResult.value
    {
      kpiResult
    }

    /** Reads the flag `SetKpiResult` raises, and changes nothing. */
    function KpiResultHasBeenSet(): (b: bool)
      reads this
      ensures b == HasBeenSet(Value(), KpiResultMember)
    {
      kpiResultHasBeenSet
    }

    method SetKpiResult(value: BaseKpiResult)
      modifies this
      ensures GetKpiResult() == value && KpiResultHasBeenSet()
      ensures Value() == Apply(old(Value()), NewKpiResult(value))
    {
      kpiResultHasBeenSet := true;
      kpiResult := value;
    }

    method WithKpiResult(value: BaseKpiResult) returns (r: ApplicationDateRangeKpiResponse)
      modifies this
      ensures r == this
      ensures Value() == Apply(old(Value()), NewKpiResult(value))
    {
      SetKpiResult(value);
      r := this;
    }

    // NextToken

    /** Reads the member `SetNextToken` writes, and changes nothing. */
    function GetNextToken(): (v: string)
      reads this
      ensures v == Value().nextToken.value
    {
      nextToken
    }

    /** Reads the flag `SetNextToken` raises, and changes nothing. */
    function NextTokenHasBeenSet(): (b: bool)
      reads this
      ensures b == HasBeenSet(Value(), NextTokenMember)
    {
      nextTokenHasBeenSet
    }

    method SetNextToken(value: string)
      modifies this
      ensures GetNextToken() == value && NextTokenHasBeenSet()
      ensures Value() == Apply(old(Value()), NewNextToken(value))
    {
      nextTokenHasBeenSet := true;
      nextToken := value;
    }

    /** The `const char*` overload: the same state as the string overload on the characters read. */
    method SetNextTokenFromCString(value: seq<char>)
      requires IsCString(value)
      modifies this
      ensures Value() == Apply(old(Value()), NewNextToken(CStringValue(value)))
    {
      nextTokenHasBeenSet := true;
      nextToken := CStringValue(value);
    }

    method WithNextToken(value: string) returns (r: ApplicationDateRangeKpiResponse)
      modifies this
      ensures r == this
      ensures Value() == Apply(old(Value()), NewNextToken(value))
    {
      SetNextToken(value);
      r := this;
    }

    method WithNextTokenFromCString(value: seq<char>) returns (r: ApplicationDateRangeKpiResponse)
      requires IsCString(value)
      modifies this
      ensures r == this
      ensures Value() == Apply(old(Value()), NewNextToken(CStringValue(value)))
    {
      SetNextTokenFromCString(value);
      r := this;
    }

    // StartTime

    /** Reads the member `SetStartTime` writes, and changes nothing. */
    function GetStartTime(): (v: DateTime)
      reads this
      ensures v == Value().startTime.value
    {
      startTime
    }

    /** Reads the flag `SetStartTime` raises, and changes nothing. */
    function StartTimeHasBeenSet(): (b: bool)
      reads this
      ensures b == HasBeenSet(Value(), StartTimeMember)
    {
      startTimeHasBeenSet
    }

    method SetStartTime(value: DateTime)
      modifies this
      ensures GetStartTime() == value && StartTimeHasBeenSet()
      ensures Value() == Apply(old(Value()), NewStartTime(value))
    {
      startTimeHasBeenSet := true;
      startTime := value;
    }

    method WithStartTime(value: DateTime) returns (r: ApplicationDateRangeKpiResponse)
      modifies this
      ensures r == this
      ensures Value() == Apply(old(Value()), NewStartTime(value))
    {
      SetStartTime(value);
      r := this;
    }
  }
}
