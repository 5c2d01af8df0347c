# Generated AWS SDK model classes, in Dafny

This project models the core of a few generated AWS SDK for C++ model classes and proves properties about them.

- **The `ArtifactType` enum codec** (Amplify). Decoding hashes a name. The one known name, "TEST", decodes to `TEST`. Any other name is stored in the process-wide overflow container under its hash, and the hash becomes the enum value. Without a container it decodes to `NOT_SET`. Encoding reverses this: `TEST` gives "TEST", and any other value is looked up in the container, giving "" when there is no container.
- **`SMSTemplateResponse`** (Pinpoint). A record of seven members, each with a "has been set" flag.
  - Assigning from a JSON document copies each key that is present and raises its flag. Each tag entry is merged into the existing map one at a time.
  - `Jsonize` writes a key exactly when its flag is raised.
- **Three plain model classes**: `RegisterScalableTargetRequest` (Application Auto Scaling), `ApplicationDateRangeKpiResponse` (Pinpoint) and `NodeConfigurationOption` (Redshift).
  - Every `SetX` stores its argument and raises `XHasBeenSet`.
  - Every `WithX` calls `SetX` and returns the same object.
  - The getters read the state and do not change it.

## Layout

- `common.dfy` (`Common`) holds:
  - the 32-bit `int` of the C++ code;
  - `Option`;
  - `Tracked`, a member paired with its flag;
  - the reading of a `const char*` argument up to its NUL terminator.
- `artifact_type.dfy` (`ArtifactTypeMapper`) holds:
  - the overflow container, as a class holding a map;
  - `GetArtifactTypeForName`, a method that may update the container it is given, and `GetNameForArtifactType`, a function that reads the container;
  - `Decode` and `Encode`, which specify both on the container's contents as a value;
  - the round-trip lemmas.
- `sms_template_response.dfy` (`SMSTemplateResponseModel`) holds:
  - JSON as a map from keys to string and object values;
  - the class with its fields, the assignment from JSON (one method per `if` block of `operator=`) and `Jsonize`;
  - the two tag loops, as methods with loop invariants;
  - the specification functions `Assigned` and `Serialized`;
  - the lemmas about them, including the round trip.
- `register_scalable_target_request.dfy`, `application_date_range_kpi_response.dfy` and `node_configuration_option.dfy` hold one module per class. Each module has:
  - the class with its real fields, its getters (functions that only read) and its setters (methods that modify only the object);
  - the specifications `Apply` (one setter call as a value) and `ApplyAll` (a sequence of calls);
  - lemmas about framing, monotone flags and last-write-wins.

## Model

| member | source | states |
|---|---|---|
| ArtifactTypeMapper.TestHash | aws-cpp-sdk-amplify/source/model/ArtifactType.cpp:33 | `TEST_HASH` is the hash of the literal "TEST" |
| ArtifactTypeMapper.EnumParseOverflowContainer.StoreOverflow | aws-cpp-sdk-amplify/source/model/ArtifactType.cpp:46 | the container's map becomes the old map with `hashCode` bound to the name (insert or overwrite) |
| ArtifactTypeMapper.EnumParseOverflowContainer.RetrieveOverflow | aws-cpp-sdk-amplify/source/model/ArtifactType.cpp:63 | lookup by integer, giving "" for a missing key |
| ArtifactTypeMapper.GetArtifactTypeForName | aws-cpp-sdk-amplify/source/model/ArtifactType.cpp:36-51 | the returned value and the container's new contents are what `Decode` gives for the old contents |
| ArtifactTypeMapper.GetNameForArtifactType | aws-cpp-sdk-amplify/source/model/ArtifactType.cpp:53-68 | the returned name is what `Encode` gives for the container's contents, which it only reads |
| ArtifactTypeMapper.DecodeKnownHash | aws-cpp-sdk-amplify/source/model/ArtifactType.cpp:38-42 | a name whose hash equals `TEST_HASH` decodes to `TEST` and leaves the container unchanged |
| ArtifactTypeMapper.DecodeTest | aws-cpp-sdk-amplify/source/model/ArtifactType.cpp:33-42 | "TEST" decodes to `TEST` whatever the container holds |
| ArtifactTypeMapper.DecodeUnknownStores | aws-cpp-sdk-amplify/source/model/ArtifactType.cpp:43-48 | with a container, any other name decodes to its hash and is stored under it; the keys grow by exactly that hash and every other entry is kept |
| ArtifactTypeMapper.DecodeUnknownWithoutContainer | aws-cpp-sdk-amplify/source/model/ArtifactType.cpp:43-50 | without a container, any other name decodes to `NOT_SET` |
| ArtifactTypeMapper.DecodeAllKeepsEntries | aws-cpp-sdk-amplify/source/model/ArtifactType.cpp:43-48 | a sequence of decodes never creates or removes the container and never removes a key |
| ArtifactTypeMapper.EncodeTest | aws-cpp-sdk-amplify/source/model/ArtifactType.cpp:57-58 | `TEST` encodes to exactly "TEST" whatever the container holds |
| ArtifactTypeMapper.EncodeLooksUp | aws-cpp-sdk-amplify/source/model/ArtifactType.cpp:59-64 | with a container, any other value encodes to the entry under its integer, or "" if there is none |
| ArtifactTypeMapper.EncodeWithoutContainer | aws-cpp-sdk-amplify/source/model/ArtifactType.cpp:60-66 | without a container, every value but `TEST` encodes to "" |
| ArtifactTypeMapper.KnownRoundTrip | aws-cpp-sdk-amplify/source/model/ArtifactType.cpp:36-58 | decoding then encoding "TEST" gives "TEST" |
| ArtifactTypeMapper.UnknownRoundTrip | aws-cpp-sdk-amplify/source/model/ArtifactType.cpp:43-64 | with a container, a name whose hash is neither `TEST_HASH` nor the integer of `TEST` encodes back to itself after decoding |
| ArtifactTypeMapper.UnknownRoundTripAfter | aws-cpp-sdk-amplify/source/model/ArtifactType.cpp:43-64 | an entry stays readable through later decodes that store no other name under the same hash |
| ArtifactTypeMapper.UnknownRoundTripThrough | aws-cpp-sdk-amplify/source/model/ArtifactType.cpp:43-64 | decoding u, then names that do not collide with u, still encodes the value of u back to u |
| ArtifactTypeMapper.CollisionWithTestValue | aws-cpp-sdk-amplify/source/model/ArtifactType.cpp:47-58 | a name other than "TEST" whose hash is the integer of `TEST` encodes back as "TEST", not as itself |
| ArtifactTypeMapper.CollisionBetweenUnknowns | aws-cpp-sdk-amplify/source/model/ArtifactType.cpp:46-63 | of two names with one hash, the one decoded later is what the shared value encodes to |
| Common.CStringValue | aws-cpp-sdk-application-autoscaling/include/aws/application-autoscaling/model/RegisterScalableTargetRequest.h:268 | the characters copied from a `const char*` are a prefix of the buffer, contain no NUL, and are followed by the terminator |
| Common.CStringOfString | aws-cpp-sdk-application-autoscaling/include/aws/application-autoscaling/model/RegisterScalableTargetRequest.h:268 | a string without NUL followed by a terminator is read back as itself, whatever follows |
| SMSTemplateResponseModel.Initial | aws-cpp-sdk-pinpoint/source/model/SMSTemplateResponse.cpp:31-41 | the starting state has no flag raised and `templateType` equal to `NOT_SET` |
| SMSTemplateResponseModel.SMSTemplateResponse.constructor | aws-cpp-sdk-pinpoint/source/model/SMSTemplateResponse.cpp:31-41 | a new object's value is `Initial()` |
| SMSTemplateResponseModel.SMSTemplateResponse.FromJson | aws-cpp-sdk-pinpoint/source/model/SMSTemplateResponse.cpp:43-54 | a new object built from JSON has the value of `Initial()` assigned from that document |
| SMSTemplateResponseModel.SMSTemplateResponse.Assign | aws-cpp-sdk-pinpoint/source/model/SMSTemplateResponse.cpp:56-111 | the new value is `Assigned` applied to the old value and the document |
| SMSTemplateResponseModel.SMSTemplateResponse.AssignArn | aws-cpp-sdk-pinpoint/source/model/SMSTemplateResponse.cpp:58-63 | "Arn" present: the member is copied and its flag raised; absent: nothing changes; all other members are unchanged |
| SMSTemplateResponseModel.SMSTemplateResponse.AssignBody | aws-cpp-sdk-pinpoint/source/model/SMSTemplateResponse.cpp:65-70 | the same for "Body" |
| SMSTemplateResponseModel.SMSTemplateResponse.AssignCreationDate | aws-cpp-sdk-pinpoint/source/model/SMSTemplateResponse.cpp:72-77 | the same for "CreationDate" |
| SMSTemplateResponseModel.SMSTemplateResponse.AssignLastModifiedDate | aws-cpp-sdk-pinpoint/source/model/SMSTemplateResponse.cpp:79-84 | the same for "LastModifiedDate" |
| SMSTemplateResponseModel.SMSTemplateResponse.AssignTags | aws-cpp-sdk-pinpoint/source/model/SMSTemplateResponse.cpp:86-94 | "tags" present: its entries are merged into the existing map and the flag raised; absent: nothing changes |
| SMSTemplateResponseModel.SMSTemplateResponse.AssignTemplateName | aws-cpp-sdk-pinpoint/source/model/SMSTemplateResponse.cpp:96-101 | the same for "TemplateName" |
| SMSTemplateResponseModel.SMSTemplateResponse.AssignTemplateType | aws-cpp-sdk-pinpoint/source/model/SMSTemplateResponse.cpp:103-108 | "TemplateType" present: the enum decoder's value for the string is stored and the flag raised |
| SMSTemplateResponseModel.MergeTagEntries | aws-cpp-sdk-pinpoint/source/model/SMSTemplateResponse.cpp:88-92 | the loop's result is the old map overwritten by each JSON entry read as a string |
| SMSTemplateResponseModel.TagsToJson | aws-cpp-sdk-pinpoint/source/model/SMSTemplateResponse.cpp:143-147 | the loop's result has exactly the keys of the tags map, each written as a JSON string |
| SMSTemplateResponseModel.SMSTemplateResponse.Jsonize | aws-cpp-sdk-pinpoint/source/model/SMSTemplateResponse.cpp:113-164 | the payload is `Serialized` of the object's value, and the object is not changed |
| SMSTemplateResponseModel.AssignedFlags | aws-cpp-sdk-pinpoint/source/model/SMSTemplateResponse.cpp:56-111 | after assignment a flag is raised exactly when it was raised before or its key is present |
| SMSTemplateResponseModel.AssignedStrings | aws-cpp-sdk-pinpoint/source/model/SMSTemplateResponse.cpp:58-101 | a string member takes the string value of its key when the key is present, and keeps value and flag when it is absent |
| SMSTemplateResponseModel.AssignedNothingPresent | aws-cpp-sdk-pinpoint/source/model/SMSTemplateResponse.cpp:56-111 | a document with none of the seven keys leaves the object exactly as it was |
| SMSTemplateResponseModel.AssignedTagsMerge | aws-cpp-sdk-pinpoint/source/model/SMSTemplateResponse.cpp:86-94 | with "tags" present, the merged tags have the union of the keys, JSON entries win and old entries with other keys are kept; with it absent, the tags and their flag are unchanged |
| SMSTemplateResponseModel.AssignedTemplateType | aws-cpp-sdk-pinpoint/source/model/SMSTemplateResponse.cpp:103-108 | the template type comes from the enum decoder when the key is present and is unchanged otherwise |
| SMSTemplateResponseModel.AssignedIdempotent | aws-cpp-sdk-pinpoint/source/model/SMSTemplateResponse.cpp:56-111 | assigning the same document twice gives the same value as assigning it once |
| SMSTemplateResponseModel.SerializedHas | aws-cpp-sdk-pinpoint/source/model/SMSTemplateResponse.cpp:113-164 | the payload has a member's key exactly when its flag is raised |
| SMSTemplateResponseModel.SerializedValue | aws-cpp-sdk-pinpoint/source/model/SMSTemplateResponse.cpp:113-164 | a raised member is written under its key with its own value, the template type through the enum encoder |
| SMSTemplateResponseModel.SerializedOnlyMemberKeys | aws-cpp-sdk-pinpoint/source/model/SMSTemplateResponse.cpp:113-164 | the payload has no key but those of the seven members |
| SMSTemplateResponseModel.SerializedEmpty | aws-cpp-sdk-pinpoint/source/model/SMSTemplateResponse.cpp:113-164 | the payload is empty exactly when no flag is raised |
| SMSTemplateResponseModel.SerializedTags | aws-cpp-sdk-pinpoint/source/model/SMSTemplateResponse.cpp:141-150 | the "tags" object has exactly the entries of the tags map, each as a JSON string |
| SMSTemplateResponseModel.RoundTripFlag | aws-cpp-sdk-pinpoint/source/model/SMSTemplateResponse.cpp:43-164 | one member's flag survives `Jsonize` then construction from JSON |
| SMSTemplateResponseModel.RoundTripString | aws-cpp-sdk-pinpoint/source/model/SMSTemplateResponse.cpp:43-164 | one raised string member survives `Jsonize` then construction from JSON |
| SMSTemplateResponseModel.RoundTrip | aws-cpp-sdk-pinpoint/source/model/SMSTemplateResponse.cpp:43-164 | construction from `Jsonize(x)` reproduces every flag of x, every raised string member and the raised tags; the template type comes back through the codec |
| SMSTemplateResponseModel.AssignedFreshDefaults | aws-cpp-sdk-pinpoint/source/model/SMSTemplateResponse.cpp:43-111 | constructing from any document leaves each member whose key is absent at its default |
| SMSTemplateResponseModel.RoundTripExact | aws-cpp-sdk-pinpoint/source/model/SMSTemplateResponse.cpp:43-164 | if x's unset members hold their defaults and the enum codec round-trips x's type, construction from `Jsonize(x)` gives exactly x |
| RegisterScalableTargetRequestModel.Apply | aws-cpp-sdk-application-autoscaling/include/aws/application-autoscaling/model/RegisterScalableTargetRequest.h:75-796 | one setter call: its member then holds the argument with the flag raised, and every other member keeps its value and flag |
| RegisterScalableTargetRequestModel.AgreesEverywhere | aws-cpp-sdk-application-autoscaling/include/aws/application-autoscaling/model/RegisterScalableTargetRequest.h:800-819 | the state is exactly the members and flags listed in the class, so the frame in `Apply` leaves nothing else open |
| RegisterScalableTargetRequestModel.ApplyCommutes | aws-cpp-sdk-application-autoscaling/include/aws/application-autoscaling/model/RegisterScalableTargetRequest.h:75-796 | setters of two different members can be called in either order |
| RegisterScalableTargetRequestModel.ApplyOverwrites | aws-cpp-sdk-application-autoscaling/include/aws/application-autoscaling/model/RegisterScalableTargetRequest.h:75-796 | a second setter call on a member undoes the first |
| RegisterScalableTargetRequestModel.ApplyAllFlags | aws-cpp-sdk-application-autoscaling/include/aws/application-autoscaling/model/RegisterScalableTargetRequest.h:75-796 | after any sequence of setter calls a flag is raised exactly when it was raised before or some call set its member |
| RegisterScalableTargetRequestModel.ApplyAllMonotone | aws-cpp-sdk-application-autoscaling/include/aws/application-autoscaling/model/RegisterScalableTargetRequest.h:75-796 | no sequence of setter calls lowers a flag |
| RegisterScalableTargetRequestModel.ApplyAllFrame | aws-cpp-sdk-application-autoscaling/include/aws/application-autoscaling/model/RegisterScalableTargetRequest.h:800-819 | a member that no call in a sequence sets keeps its value and flag |
| RegisterScalableTargetRequestModel.LastWriteWins | aws-cpp-sdk-application-autoscaling/include/aws/application-autoscaling/model/RegisterScalableTargetRequest.h:75-796 | after a sequence of calls each member holds the argument of the last call that set it |
| RegisterScalableTargetRequestModel.ApplyDetermined | aws-cpp-sdk-application-autoscaling/include/aws/application-autoscaling/model/RegisterScalableTargetRequest.h:75-796 | a state that holds a setter's value and agrees with the old state on every other member is exactly `Apply`'s result, so each `Set...` changes nothing else |
| RegisterScalableTargetRequestModel.RegisterScalableTargetRequest.GetServiceNamespace | aws-cpp-sdk-application-autoscaling/include/aws/application-autoscaling/model/RegisterScalableTargetRequest.h:57 | returns the member's value in the object's state, which is the value `SetServiceNamespace` fixes; as a function it changes nothing |
| RegisterScalableTargetRequestModel.RegisterScalableTargetRequest.ServiceNamespaceHasBeenSet | aws-cpp-sdk-application-autoscaling/include/aws/application-autoscaling/model/RegisterScalableTargetRequest.h:66 | returns the member's flag in the object's state, which `SetServiceNamespace` raises; as a function it changes nothing |
| RegisterScalableTargetRequestModel.RegisterScalableTargetRequest.GetResourceId | aws-cpp-sdk-application-autoscaling/include/aws/application-autoscaling/model/RegisterScalableTargetRequest.h:136 | returns the member's value in the object's state, which is the value `SetResourceId` fixes; as a function it changes nothing |
| RegisterScalableTargetRequestModel.RegisterScalableTargetRequest.ResourceIdHasBeenSet | aws-cpp-sdk-application-autoscaling/include/aws/application-autoscaling/model/RegisterScalableTargetRequest.h:169 | returns the member's flag in the object's state, which `SetResourceId` raises; as a function it changes nothing |
| RegisterScalableTargetRequestModel.RegisterScalableTargetRequest.GetScalableDimension | aws-cpp-sdk-application-autoscaling/include/aws/application-autoscaling/model/RegisterScalableTargetRequest.h:397 | returns the member's value in the object's state, which is the value `SetScalableDimension` fixes; as a function it changes nothing |
| RegisterScalableTargetRequestModel.RegisterScalableTargetRequest.ScalableDimensionHasBeenSet | aws-cpp-sdk-application-autoscaling/include/aws/application-autoscaling/model/RegisterScalableTargetRequest.h:426 | returns the member's flag in the object's state, which `SetScalableDimension` raises; as a function it changes nothing |
| RegisterScalableTargetRequestModel.RegisterScalableTargetRequest.GetMinCapacity | aws-cpp-sdk-application-autoscaling/include/aws/application-autoscaling/model/RegisterScalableTargetRequest.h:549 | returns the member's value in the object's state, which is the value `SetMinCapacity` fixes; as a function it changes nothing |
| RegisterScalableTargetRequestModel.RegisterScalableTargetRequest.MinCapacityHasBeenSet | aws-cpp-sdk-application-autoscaling/include/aws/application-autoscaling/model/RegisterScalableTargetRequest.h:555 | returns the member's flag in the object's state, which `SetMinCapacity` raises; as a function it changes nothing |
| RegisterScalableTargetRequestModel.RegisterScalableTargetRequest.GetMaxCapacity | aws-cpp-sdk-application-autoscaling/include/aws/application-autoscaling/model/RegisterScalableTargetRequest.h:574 | returns the member's value in the object's state, which is the value `SetMaxCapacity` fixes; as a function it changes nothing |
| RegisterScalableTargetRequestModel.RegisterScalableTargetRequest.MaxCapacityHasBeenSet | aws-cpp-sdk-application-autoscaling/include/aws/application-autoscaling/model/RegisterScalableTargetRequest.h:580 | returns the member's flag in the object's state, which `SetMaxCapacity` raises; as a function it changes nothing |
| RegisterScalableTargetRequestModel.RegisterScalableTargetRequest.GetRoleARN | aws-cpp-sdk-application-autoscaling/include/aws/application-autoscaling/model/RegisterScalableTargetRequest.h:604 | returns the member's value in the object's state, which is the value `SetRoleARN` fixes; as a function it changes nothing |
| RegisterScalableTargetRequestModel.RegisterScalableTargetRequest.RoleARNHasBeenSet | aws-cpp-sdk-application-autoscaling/include/aws/application-autoscaling/model/RegisterScalableTargetRequest.h:615 | returns the member's flag in the object's state, which `SetRoleARN` raises; as a function it changes nothing |
| RegisterScalableTargetRequestModel.RegisterScalableTargetRequest.GetSuspendedState | aws-cpp-sdk-application-autoscaling/include/aws/application-autoscaling/model/RegisterScalableTargetRequest.h:701 | returns the member's value in the object's state, which is the value `SetSuspendedState` fixes; as a function it changes nothing |
| RegisterScalableTargetRequestModel.RegisterScalableTargetRequest.SuspendedStateHasBeenSet | aws-cpp-sdk-application-autoscaling/include/aws/application-autoscaling/model/RegisterScalableTargetRequest.h:720 | returns the member's flag in the object's state, which `SetSuspendedState` raises; as a function it changes nothing |
| RegisterScalableTargetRequestModel.RegisterScalableTargetRequest.SetServiceNamespace | aws-cpp-sdk-application-autoscaling/include/aws/application-autoscaling/model/RegisterScalableTargetRequest.h:75-84 | `GetServiceNamespace()` then returns the argument and `ServiceNamespaceHasBeenSet()` is true; the new state is `Apply` of the old one (by-reference and by-move overloads alike) |
| RegisterScalableTargetRequestModel.RegisterScalableTargetRequest.WithServiceNamespace | aws-cpp-sdk-application-autoscaling/include/aws/application-autoscaling/model/RegisterScalableTargetRequest.h:93-102 | returns the same object, with the new state `SetServiceNamespace` gives |
| RegisterScalableTargetRequestModel.RegisterScalableTargetRequest.SetResourceId | aws-cpp-sdk-application-autoscaling/include/aws/application-autoscaling/model/RegisterScalableTargetRequest.h:202-235 | `GetResourceId()` then returns the argument and `ResourceIdHasBeenSet()` is true; the new state is `Apply` of the old one (by-reference and by-move overloads alike) |
| RegisterScalableTargetRequestModel.RegisterScalableTargetRequest.SetResourceIdFromCString | aws-cpp-sdk-application-autoscaling/include/aws/application-autoscaling/model/RegisterScalableTargetRequest.h:268 | the `const char*` overload: the same new state as the string overload given the characters before the terminator |
| RegisterScalableTargetRequestModel.RegisterScalableTargetRequest.WithResourceId | aws-cpp-sdk-application-autoscaling/include/aws/application-autoscaling/model/RegisterScalableTargetRequest.h:301-334 | returns the same object, with the new state `SetResourceId` gives |
| RegisterScalableTargetRequestModel.RegisterScalableTargetRequest.WithResourceIdFromCString | aws-cpp-sdk-application-autoscaling/include/aws/application-autoscaling/model/RegisterScalableTargetRequest.h:367 | returns the same object, with the new state the `const char*` setter gives |
| RegisterScalableTargetRequestModel.RegisterScalableTargetRequest.SetScalableDimension | aws-cpp-sdk-application-autoscaling/include/aws/application-autoscaling/model/RegisterScalableTargetRequest.h:455-484 | `GetScalableDimension()` then returns the argument and `ScalableDimensionHasBeenSet()` is true; the new state is `Apply` of the old one (by-reference and by-move overloads alike) |
| RegisterScalableTargetRequestModel.RegisterScalableTargetRequest.WithScalableDimension | aws-cpp-sdk-application-autoscaling/include/aws/application-autoscaling/model/RegisterScalableTargetRequest.h:513-542 | returns the same object, with the new state `SetScalableDimension` gives |
| RegisterScalableTargetRequestModel.RegisterScalableTargetRequest.SetMinCapacity | aws-cpp-sdk-application-autoscaling/include/aws/application-autoscaling/model/RegisterScalableTargetRequest.h:561 | `GetMinCapacity()` then returns the argument and `MinCapacityHasBeenSet()` is true; the new state is `Apply` of the old one (by-reference and by-move overloads alike) |
| RegisterScalableTargetRequestModel.RegisterScalableTargetRequest.WithMinCapacity | aws-cpp-sdk-application-autoscaling/include/aws/application-autoscaling/model/RegisterScalableTargetRequest.h:567 | returns the same object, with the new state `SetMinCapacity` gives |
| RegisterScalableTargetRequestModel.RegisterScalableTargetRequest.SetMaxCapacity | aws-cpp-sdk-application-autoscaling/include/aws/application-autoscaling/model/RegisterScalableTargetRequest.h:586 | `GetMaxCapacity()` then returns the argument and `MaxCapacityHasBeenSet()` is true; the new state is `Apply` of the old one (by-reference and by-move overloads alike) |
| RegisterScalableTargetRequestModel.RegisterScalableTargetRequest.WithMaxCapacity | aws-cpp-sdk-application-autoscaling/include/aws/application-autoscaling/model/RegisterScalableTargetRequest.h:592 | returns the same object, with the new state `SetMaxCapacity` gives |
| RegisterScalableTargetRequestModel.RegisterScalableTargetRequest.SetRoleARN | aws-cpp-sdk-application-autoscaling/include/aws/application-autoscaling/model/RegisterScalableTargetRequest.h:626-637 | `GetRoleARN()` then returns the argument and `RoleARNHasBeenSet()` is true; the new state is `Apply` of the old one (by-reference and by-move overloads alike) |
| RegisterScalableTargetRequestModel.RegisterScalableTargetRequest.SetRoleARNFromCString | aws-cpp-sdk-application-autoscaling/include/aws/application-autoscaling/model/RegisterScalableTargetRequest.h:648 | the `const char*` overload: the same new state as the string overload given the characters before the terminator |
| RegisterScalableTargetRequestModel.RegisterScalableTargetRequest.WithRoleARN | aws-cpp-sdk-application-autoscaling/include/aws/application-autoscaling/model/RegisterScalableTargetRequest.h:659-670 | returns the same object, with the new state `SetRoleARN` gives |
| RegisterScalableTargetRequestModel.RegisterScalableTargetRequest.WithRoleARNFromCString | aws-cpp-sdk-application-autoscaling/include/aws/application-autoscaling/model/RegisterScalableTargetRequest.h:681 | returns the same object, with the new state the `const char*` setter gives |
| RegisterScalableTargetRequestModel.RegisterScalableTargetRequest.SetSuspendedState | aws-cpp-sdk-application-autoscaling/include/aws/application-autoscaling/model/RegisterScalableTargetRequest.h:739-758 | `GetSuspendedState()` then returns the argument and `SuspendedStateHasBeenSet()` is true; the new state is `Apply` of the old one (by-reference and by-move overloads alike) |
| RegisterScalableTargetRequestModel.RegisterScalableTargetRequest.WithSuspendedState | aws-cpp-sdk-application-autoscaling/include/aws/application-autoscaling/model/RegisterScalableTargetRequest.h:777-796 | returns the same object, with the new state `SetSuspendedState` gives |
| RegisterScalableTargetRequestModel.RegisterScalableTargetRequest.GetServiceRequestName | aws-cpp-sdk-application-autoscaling/include/aws/application-autoscaling/model/RegisterScalableTargetRequest.h:43 | the operation name is always "RegisterScalableTarget" |
| ApplicationDateRangeKpiResponseModel.Apply | aws-cpp-sdk-pinpoint/include/aws/pinpoint/model/ApplicationDateRangeKpiResponse.h:67-349 | one setter call: its member then holds the argument with the flag raised, and every other member keeps its value and flag |
| ApplicationDateRangeKpiResponseModel.AgreesEverywhere | aws-cpp-sdk-pinpoint/include/aws/pinpoint/model/ApplicationDateRangeKpiResponse.h:353-369 | the state is exactly the members and flags listed in the class, so the frame in `Apply` leaves nothing else open |
| ApplicationDateRangeKpiResponseModel.ApplyCommutes | aws-cpp-sdk-pinpoint/include/aws/pinpoint/model/ApplicationDateRangeKpiResponse.h:67-349 | setters of two different members can be called in either order |
| ApplicationDateRangeKpiResponseModel.ApplyOverwrites | aws-cpp-sdk-pinpoint/include/aws/pinpoint/model/ApplicationDateRangeKpiResponse.h:67-349 | a second setter call on a member undoes the first |
| ApplicationDateRangeKpiResponseModel.ApplyAllFlags | aws-cpp-sdk-pinpoint/include/aws/pinpoint/model/ApplicationDateRangeKpiResponse.h:67-349 | after any sequence of setter calls a flag is raised exactly when it was raised before or some call set its member |
| ApplicationDateRangeKpiResponseModel.ApplyAllMonotone | aws-cpp-sdk-pinpoint/include/aws/pinpoint/model/ApplicationDateRangeKpiResponse.h:67-349 | no sequence of setter calls lowers a flag |
| ApplicationDateRangeKpiResponseModel.ApplyAllFrame | aws-cpp-sdk-pinpoint/include/aws/pinpoint/model/ApplicationDateRangeKpiResponse.h:353-369 | a member that no call in a sequence sets keeps its value and flag |
| ApplicationDateRangeKpiResponseModel.LastWriteWins | aws-cpp-sdk-pinpoint/include/aws/pinpoint/model/ApplicationDateRangeKpiResponse.h:67-349 | after a sequence of calls each member holds the argument of the last call that set it |
| ApplicationDateRangeKpiResponseModel.ApplyDetermined | aws-cpp-sdk-pinpoint/include/aws/pinpoint/model/ApplicationDateRangeKpiResponse.h:67-349 | a state that holds a setter's value and agrees with the old state on every other member is exactly `Apply`'s result, so each `Set...` changes nothing else |
| ApplicationDateRangeKpiResponseModel.ApplicationDateRangeKpiResponse.GetApplicationId | aws-cpp-sdk-pinpoint/include/aws/pinpoint/model/ApplicationDateRangeKpiResponse.h:57 | returns the member's value in the object's state, which is the value `SetApplicationId` fixes; as a function it changes nothing |
| ApplicationDateRangeKpiResponseModel.ApplicationDateRangeKpiResponse.ApplicationIdHasBeenSet | aws-cpp-sdk-pinpoint/include/aws/pinpoint/model/ApplicationDateRangeKpiResponse.h:62 | returns the member's flag in the object's state, which `SetApplicationId` raises; as a function it changes nothing |
| ApplicationDateRangeKpiResponseModel.ApplicationDateRangeKpiResponse.GetEndTime | aws-cpp-sdk-pinpoint/include/aws/pinpoint/model/ApplicationDateRangeKpiResponse.h:99 | returns the member's value in the object's state, which is the value `SetEndTime` fixes; as a function it changes nothing |
| ApplicationDateRangeKpiResponseModel.ApplicationDateRangeKpiResponse.EndTimeHasBeenSet | aws-cpp-sdk-pinpoint/include/aws/pinpoint/model/ApplicationDateRangeKpiResponse.h:105 | returns the member's flag in the object's state, which `SetEndTime` raises; as a function it changes nothing |
| ApplicationDateRangeKpiResponseModel.ApplicationDateRangeKpiResponse.GetKpiName | aws-cpp-sdk-pinpoint/include/aws/pinpoint/model/ApplicationDateRangeKpiResponse.h:141 | returns the member's value in the object's state, which is the value `SetKpiName` fixes; as a function it changes nothing |
| ApplicationDateRangeKpiResponseModel.ApplicationDateRangeKpiResponse.KpiNameHasBeenSet | aws-cpp-sdk-pinpoint/include/aws/pinpoint/model/ApplicationDateRangeKpiResponse.h:152 | returns the member's flag in the object's state, which `SetKpiName` raises; as a function it changes nothing |
| ApplicationDateRangeKpiResponseModel.ApplicationDateRangeKpiResponse.GetKpiResult | aws-cpp-sdk-pinpoint/include/aws/pinpoint/model/ApplicationDateRangeKpiResponse.h:225 | returns the member's value in the object's state, which is the value `SetKpiResult` fixes; as a function it changes nothing |
| ApplicationDateRangeKpiResponseModel.ApplicationDateRangeKpiResponse.KpiResultHasBeenSet | aws-cpp-sdk-pinpoint/include/aws/pinpoint/model/ApplicationDateRangeKpiResponse.h:231 | returns the member's flag in the object's state, which `SetKpiResult` raises; as a function it changes nothing |
| ApplicationDateRangeKpiResponseModel.ApplicationDateRangeKpiResponse.GetNextToken | aws-cpp-sdk-pinpoint/include/aws/pinpoint/model/ApplicationDateRangeKpiResponse.h:263 | returns the member's value in the object's state, which is the value `SetNextToken` fixes; as a function it changes nothing |
| ApplicationDateRangeKpiResponseModel.ApplicationDateRangeKpiResponse.NextTokenHasBeenSet | aws-cpp-sdk-pinpoint/include/aws/pinpoint/model/ApplicationDateRangeKpiResponse.h:270 | returns the member's flag in the object's state, which `SetNextToken` raises; as a function it changes nothing |
| ApplicationDateRangeKpiResponseModel.ApplicationDateRangeKpiResponse.GetStartTime | aws-cpp-sdk-pinpoint/include/aws/pinpoint/model/ApplicationDateRangeKpiResponse.h:319 | returns the member's value in the object's state, which is the value `SetStartTime` fixes; as a function it changes nothing |
| ApplicationDateRangeKpiResponseModel.ApplicationDateRangeKpiResponse.StartTimeHasBeenSet | aws-cpp-sdk-pinpoint/include/aws/pinpoint/model/ApplicationDateRangeKpiResponse.h:325 | returns the member's flag in the object's state, which `SetStartTime` raises; as a function it changes nothing |
| ApplicationDateRangeKpiResponseModel.ApplicationDateRangeKpiResponse.SetApplicationId | aws-cpp-sdk-pinpoint/include/aws/pinpoint/model/ApplicationDateRangeKpiResponse.h:67-72 | `GetApplicationId()` then returns the argument and `ApplicationIdHasBeenSet()` is true; the new state is `Apply` of the old one (by-reference and by-move overloads alike) |
| ApplicationDateRangeKpiResponseModel.ApplicationDateRangeKpiResponse.SetApplicationIdFromCString | aws-cpp-sdk-pinpoint/include/aws/pinpoint/model/ApplicationDateRangeKpiResponse.h:77 | the `const char*` overload: the same new state as the string overload given the characters before the terminator |
| ApplicationDateRangeKpiResponseModel.ApplicationDateRangeKpiResponse.WithApplicationId | aws-cpp-sdk-pinpoint/include/aws/pinpoint/model/ApplicationDateRangeKpiResponse.h:82-87 | returns the same object, with the new state `SetApplicationId` gives |
| ApplicationDateRangeKpiResponseModel.ApplicationDateRangeKpiResponse.WithApplicationIdFromCString | aws-cpp-sdk-pinpoint/include/aws/pinpoint/model/ApplicationDateRangeKpiResponse.h:92 | returns the same object, with the new state the `const char*` setter gives |
| ApplicationDateRangeKpiResponseModel.ApplicationDateRangeKpiResponse.SetEndTime | aws-cpp-sdk-pinpoint/include/aws/pinpoint/model/ApplicationDateRangeKpiResponse.h:111-117 | `GetEndTime()` then returns the argument and `EndTimeHasBeenSet()` is true; the new state is `Apply` of the old one (by-reference and by-move overloads alike) |
| ApplicationDateRangeKpiResponseModel.ApplicationDateRangeKpiResponse.WithEndTime | aws-cpp-sdk-pinpoint/include/aws/pinpoint/model/ApplicationDateRangeKpiResponse.h:123-129 | returns the same object, with the new state `SetEndTime` gives |
| ApplicationDateRangeKpiResponseModel.ApplicationDateRangeKpiResponse.SetKpiName | aws-cpp-sdk-pinpoint/include/aws/pinpoint/model/ApplicationDateRangeKpiResponse.h:163-174 | `GetKpiName()` then returns the argument and `KpiNameHasBeenSet()` is true; the new state is `Apply` of the old one (by-reference and by-move overloads alike) |
| ApplicationDateRangeKpiResponseModel.ApplicationDateRangeKpiResponse.SetKpiNameFromCString | aws-cpp-sdk-pinpoint/include/aws/pinpoint/model/ApplicationDateRangeKpiResponse.h:185 | the `const char*` overload: the same new state as the string overload given the characters before the terminator |
| ApplicationDateRangeKpiResponseModel.ApplicationDateRangeKpiResponse.WithKpiName | aws-cpp-sdk-pinpoint/include/aws/pinpoint/model/ApplicationDateRangeKpiResponse.h:196-207 | returns the same object, with the new state `SetKpiName` gives |
| ApplicationDateRangeKpiResponseModel.ApplicationDateRangeKpiResponse.WithKpiNameFromCString | aws-cpp-sdk-pinpoint/include/aws/pinpoint/model/ApplicationDateRangeKpiResponse.h:218 | returns the same object, with the new state the `const char*` setter gives |
| ApplicationDateRangeKpiResponseModel.ApplicationDateRangeKpiResponse.SetKpiResult | aws-cpp-sdk-pinpoint/include/aws/pinpoint/model/ApplicationDateRangeKpiResponse.h:237-243 | `GetKpiResult()` then returns the argument and `KpiResultHasBeenSet()` is true; the new state is `Apply` of the old one (by-reference and by-move overloads alike) |
| ApplicationDateRangeKpiResponseModel.ApplicationDateRangeKpiResponse.WithKpiResult | aws-cpp-sdk-pinpoint/include/aws/pinpoint/model/ApplicationDateRangeKpiResponse.h:249-255 | returns the same object, with the new state `SetKpiResult` gives |
| ApplicationDateRangeKpiResponseModel.ApplicationDateRangeKpiResponse.SetNextToken | aws-cpp-sdk-pinpoint/include/aws/pinpoint/model/ApplicationDateRangeKpiResponse.h:277-284 | `GetNextToken()` then returns the argument and `NextTokenHasBeenSet()` is true; the new state is `Apply` of the old one (by-reference and by-move overloads alike) |
| ApplicationDateRangeKpiResponseModel.ApplicationDateRangeKpiResponse.SetNextTokenFromCString | aws-cpp-sdk-pinpoint/include/aws/pinpoint/model/ApplicationDateRangeKpiResponse.h:291 | the `const char*` overload: the same new state as the string overload given the characters before the terminator |
| ApplicationDateRangeKpiResponseModel.ApplicationDateRangeKpiResponse.WithNextToken | aws-cpp-sdk-pinpoint/include/aws/pinpoint/model/ApplicationDateRangeKpiResponse.h:298-305 | returns the same object, with the new state `SetNextToken` gives |
| ApplicationDateRangeKpiResponseModel.ApplicationDateRangeKpiResponse.WithNextTokenFromCString | aws-cpp-sdk-pinpoint/include/aws/pinpoint/model/ApplicationDateRangeKpiResponse.h:312 | returns the same object, with the new state the `const char*` setter gives |
| ApplicationDateRangeKpiResponseModel.ApplicationDateRangeKpiResponse.SetStartTime | aws-cpp-sdk-pinpoint/include/aws/pinpoint/model/ApplicationDateRangeKpiResponse.h:331-337 | `GetStartTime()` then returns the argument and `StartTimeHasBeenSet()` is true; the new state is `Apply` of the old one (by-reference and by-move overloads alike) |
| ApplicationDateRangeKpiResponseModel.ApplicationDateRangeKpiResponse.WithStartTime | aws-cpp-sdk-pinpoint/include/aws/pinpoint/model/ApplicationDateRangeKpiResponse.h:343-349 | returns the same object, with the new state `SetStartTime` gives |
| NodeConfigurationOptionModel.Apply | aws-cpp-sdk-redshift/include/aws/redshift/model/NodeConfigurationOption.h:65-132 | one setter call: its member then holds the argument with the flag raised, and every other member keeps its value and flag |
| NodeConfigurationOptionModel.AgreesEverywhere | aws-cpp-sdk-redshift/include/aws/redshift/model/NodeConfigurationOption.h:136-143 | the state is exactly the members and flags listed in the class, so the frame in `Apply` leaves nothing else open |
| NodeConfigurationOptionModel.ApplyCommutes | aws-cpp-sdk-redshift/include/aws/redshift/model/NodeConfigurationOption.h:65-132 | setters of two different members can be called in either order |
| NodeConfigurationOptionModel.ApplyOverwrites | aws-cpp-sdk-redshift/include/aws/redshift/model/NodeConfigurationOption.h:65-132 | a second setter call on a member undoes the first |
| NodeConfigurationOptionModel.ApplyAllFlags | aws-cpp-sdk-redshift/include/aws/redshift/model/NodeConfigurationOption.h:65-132 | after any sequence of setter calls a flag is raised exactly when it was raised before or some call set its member |
| NodeConfigurationOptionModel.ApplyAllMonotone | aws-cpp-sdk-redshift/include/aws/redshift/model/NodeConfigurationOption.h:65-132 | no sequence of setter calls lowers a flag |
| NodeConfigurationOptionModel.ApplyAllFrame | aws-cpp-sdk-redshift/include/aws/redshift/model/NodeConfigurationOption.h:136-143 | a member that no call in a sequence sets keeps its value and flag |
| NodeConfigurationOptionModel.LastWriteWins | aws-cpp-sdk-redshift/include/aws/redshift/model/NodeConfigurationOption.h:65-132 | after a sequence of calls each member holds the argument of the last call that set it |
| NodeConfigurationOptionModel.ApplyDetermined | aws-cpp-sdk-redshift/include/aws/redshift/model/NodeConfigurationOption.h:65-132 | a state that holds a setter's value and agrees with the old state on every other member is exactly `Apply`'s result, so each `Set...` changes nothing else |
| NodeConfigurationOptionModel.NodeConfigurationOption.GetNodeType | aws-cpp-sdk-redshift/include/aws/redshift/model/NodeConfigurationOption.h:55 | returns the member's value in the object's state, which is the value `SetNodeType` fixes; as a function it changes nothing |
| NodeConfigurationOptionModel.NodeConfigurationOption.NodeTypeHasBeenSet | aws-cpp-sdk-redshift/include/aws/redshift/model/NodeConfigurationOption.h:60 | returns the member's flag in the object's state, which `SetNodeType` raises; as a function it changes nothing |
| NodeConfigurationOptionModel.NodeConfigurationOption.GetNumberOfNodes | aws-cpp-sdk-redshift/include/aws/redshift/model/NodeConfigurationOption.h:96 | returns the member's value in the object's state, which is the value `SetNumberOfNodes` fixes; as a function it changes nothing |
| NodeConfigurationOptionModel.NodeConfigurationOption.NumberOfNodesHasBeenSet | aws-cpp-sdk-redshift/include/aws/redshift/model/NodeConfigurationOption.h:101 | returns the member's flag in the object's state, which `SetNumberOfNodes` raises; as a function it changes nothing |
| NodeConfigurationOptionModel.NodeConfigurationOption.GetEstimatedDiskUtilizationPercent | aws-cpp-sdk-redshift/include/aws/redshift/model/NodeConfigurationOption.h:117 | returns the member's value in the object's state, which is the value `SetEstimatedDiskUtilizationPercent` fixes; as a function it changes nothing |
| NodeConfigurationOptionModel.NodeConfigurationOption.EstimatedDiskUtilizationPercentHasBeenSet | aws-cpp-sdk-redshift/include/aws/redshift/model/NodeConfigurationOption.h:122 | returns the member's flag in the object's state, which `SetEstimatedDiskUtilizationPercent` raises; as a function it changes nothing |
| NodeConfigurationOptionModel.NodeConfigurationOption.SetNodeType | aws-cpp-sdk-redshift/include/aws/redshift/model/NodeConfigurationOption.h:65-70 | `GetNodeType()` then returns the argument and `NodeTypeHasBeenSet()` is true; the new state is `Apply` of the old one (by-reference and by-move overloads alike) |
| NodeConfigurationOptionModel.NodeConfigurationOption.SetNodeTypeFromCString | aws-cpp-sdk-redshift/include/aws/redshift/model/NodeConfigurationOption.h:75 | the `const char*` overload: the same new state as the string overload given the characters before the terminator |
| NodeConfigurationOptionModel.NodeConfigurationOption.WithNodeType | aws-cpp-sdk-redshift/include/aws/redshift/model/NodeConfigurationOption.h:80-85 | returns the same object, with the new state `SetNodeType` gives |
| NodeConfigurationOptionModel.NodeConfigurationOption.WithNodeTypeFromCString | aws-cpp-sdk-redshift/include/aws/redshift/model/NodeConfigurationOption.h:90 | returns the same object, with the new state the `const char*` setter gives |
| NodeConfigurationOptionModel.NodeConfigurationOption.SetNumberOfNodes | aws-cpp-sdk-redshift/include/aws/redshift/model/NodeConfigurationOption.h:106 | `GetNumberOfNodes()` then returns the argument and `NumberOfNodesHasBeenSet()` is true; the new state is `Apply` of the old one (by-reference and by-move overloads alike) |
| NodeConfigurationOptionModel.NodeConfigurationOption.WithNumberOfNodes | aws-cpp-sdk-redshift/include/aws/redshift/model/NodeConfigurationOption.h:111 | returns the same object, with the new state `SetNumberOfNodes` gives |
| NodeConfigurationOptionModel.NodeConfigurationOption.SetEstimatedDiskUtilizationPercent | aws-cpp-sdk-redshift/include/aws/redshift/model/NodeConfigurationOption.h:127 | `GetEstimatedDiskUtilizationPercent()` then returns the argument and `EstimatedDiskUtilizationPercentHasBeenSet()` is true; the new state is `Apply` of the old one (by-reference and by-move overloads alike) |
| NodeConfigurationOptionModel.NodeConfigurationOption.WithEstimatedDiskUtilizationPercent | aws-cpp-sdk-redshift/include/aws/redshift/model/NodeConfigurationOption.h:132 | returns the same object, with the new state `SetEstimatedDiskUtilizationPercent` gives |

## Left out

- `HashingUtils::HashString` is not part of this model. Every operation takes the hash as a function parameter, so each result holds for any deterministic hash, collisions included.
- `Aws::GetEnumOverflowContainer` is not part of this model. The container, or its absence, is a parameter.
- `ArtifactTypeMapper.EnumParseOverflowContainer.StoreOverflow` and `RetrieveOverflow` have no bodies in the source. Their contracts state the two behaviours the codec relies on.
- The container's thread safety is not modelled.
- `ArtifactType.h` is not part of this model. `NOT_SET` is taken to be 0 and `TEST` to be 1, the generator's usual numbering; the round-trip lemmas only use the fact that they differ.
- An enum value is a 32-bit `int`; the cast from the hash needs no wrap-around because the hash is already an `int`.
- The JSON library is replaced by a map from keys to values:
  - a `JsonVal` is a string or an object;
  - `GetString` of a value that is not a string reads as "";
  - `GetAllObjects` of a value that is not an object has no members;
  - JSON null, numbers, arrays and member order are not modelled.
- `TemplateType.h` and `TemplateTypeMapper` are not part of this model. The name-to-value and value-to-name functions are parameters, so any overflow-container update the decoder makes is not modelled.
- `SMSTemplateResponseModel.SMSTemplateResponse.Assign` returns nothing. The C++ `operator=` returns `*this`, which adds no state.
- `RegisterScalableTargetRequest::SerializePayload` and `GetRequestSpecificHeaders` have no bodies in the source.
- The `ApplicationDateRangeKpiResponse` JSON constructor, the assignment from JSON and `Jsonize` have no bodies in the source.
- The `NodeConfigurationOption` XML constructor and both `OutputToStream` overloads have no bodies in the source.
- The default constructors of the three header classes have no bodies in the source. Each Dafny constructor takes the starting state as a parameter, and the lemmas hold from any starting state.
- `ServiceNamespace`, `ScalableDimension`, `SuspendedState`, `Aws::Utils::DateTime` and `BaseKpiResult` are opaque types with equality.
- `double` is an opaque type that a setter stores and a getter returns unchanged; floating-point arithmetic and NaN comparison are not modelled.
- The `const&` and `&&` overloads of every setter are one Dafny method, since a Dafny value has no moved-from state. The state of a moved-from argument is not modelled.
- The `const char*` overloads are separate `...FromCString` methods that take the characters from the pointer onward. Their precondition asks that a NUL terminator be reached; a null pointer is not modelled.
- `ProductionVariantInstanceType.h` and `NodeConfigurationOptionsFilterName.h` declare only enums and mapper signatures; their name tables are not part of this model.
