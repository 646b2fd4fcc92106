# telefone_types, modelled in Dafny

This project models the parts of `telefone_types` that hold logic. `telefone_types` holds the Telegram Bot API types and methods used by the `telefone` bot framework. The modelled parts are:

- **The serialiser** (`telefone_types/objects/base.py`). `convert` walks a value. It drops `None` entries from every dictionary, at any depth. It maps over lists and leaves scalars as they are. `BaseObject.convert_to_dict` applies the same filter to a model's field dictionary.
- **The request helpers** (`telefone_types/methods.py`). `APIMethods.get_params` turns a method's `locals()` into the parameter dictionary of a request. `APIMethods.get_response` adds a `json_` alias for the key `json` to the caller's dictionary, in place.
- **The object schema** (`telefone_types/objects/types.py`). It has 134 pydantic classes, given as data: each class is a list of field declarations. Every field is optional and defaults to `None`. The sender field `from_` is read from the wire key `"from"`. The model covers:
  - parsing a wire object into an instance, field by field into each field's declared type, nested objects, lists and unions included (`Objects.Decode`, over a field table passed as a parameter, `Objects.Fields` being the table of the source);
  - serialising that instance again, and the exact round trip for wire values in canonical form;
  - the `Update` envelope;
  - the nesting of `Message` and `Chat`;
  - the field-less union-like classes.
- **The update kinds** (`telefone_types/updates/types.py` and `telefone_types/updates/base.py`):
  - the `BotUpdateType` enum;
  - the `UpdateTypes` table of composed classes;
  - the `BaseBotUpdate` mixin, with its fields `state_peer` and `unprepared_ctx_api`, its property `ctx_api`, and its abstract `get_state_key`, which leaves the composed classes abstract.

Modules:

- `Values` (`values.dfy`): `Json`, and Python dictionaries as ordered entry lists. It also has `d[k]` and `k in d`, `d[k] = v`, and `d.update`. Every dictionary Python builds has distinct keys (`UniqueKeys`), and these operations keep that.
- `Convert` (`convert.dfy`): `convert` and `convert_to_dict`.
- `Methods` (`methods.dfy`):
  - `get_params`, a function, because it builds a fresh dictionary.
  - `get_response`, a method on a `PyDict` object, because it writes into the dictionary it is given.
- `Objects` (`objects.dfy`): the class table and decoding.
- `Updates` (`updates.dfy`): the enum, the composition table and the mixin.

## Model

| member | source | states |
|---|---|---|
| Values.Lookup | telefone_types/methods.py:22-28 | `loc["kwargs"]`, `"json" in r` and `r["json"]`: a key is present exactly when a lookup finds a value, and the value found is the one stored under that key |
| Values.Assign | telefone_types/methods.py:28 | `d[k] = v` keeps the keys of `d` in their order and appends `k` when it is new |
| Values.AssignLookup | telefone_types/methods.py:28 | after `d[k] = v`, `k` holds `v` and every other key holds what it held |
| Values.AssignSame | telefone_types/methods.py:28 | assigning a key the value it already holds leaves the dictionary unchanged |
| Values.UpdateWith | telefone_types/methods.py:22 | `d.update(other)` keeps every key of `d` and adds every key of `other` |
| Values.UpdateWithLookup | telefone_types/methods.py:22 | after `d.update(other)`, a key of `other` holds `other`'s value and any other key keeps its value |
| Values.UpdateWithKeys | telefone_types/methods.py:22 | the keys after `d.update(other)` are those of `d` together with those of `other` |
| Values.UpdateWithUnique | telefone_types/methods.py:22 | `d.update(other)` keeps the keys distinct |
| Convert.Convert | telefone_types/objects/base.py:6-14 | `convert` yields `None` exactly for `None`; a model or a dictionary becomes a dictionary with no `None` value |
| Convert.Prune | telefone_types/objects/base.py:10 | the comprehension keeps at most the entries it is given, and none whose value is `None` |
| Convert.ConvertToDict | telefone_types/objects/base.py:17-19 | `convert_to_dict` yields a dictionary with at most one entry per field and no `None` value |
| Convert.ConvertNull | telefone_types/objects/base.py:6-14 | `convert` yields `None` exactly for `None` |
| Convert.ConvertIsPruned | telefone_types/objects/base.py:6-14 | no dictionary in the output of `convert`, at any depth, holds a `None` value |
| Convert.PruneIsPruned | telefone_types/objects/base.py:10 | the filtered dictionary holds no `None` value, and its values are converted |
| Convert.PrunedIsFixpoint | telefone_types/objects/base.py:6-14 | `convert` leaves a value unchanged when it has no `None` in any dictionary and no model inside |
| Convert.ScalarUnchanged | telefone_types/objects/base.py:14 | a value that is not a model, dictionary or list is returned unchanged |
| Convert.ConvertIdempotent | telefone_types/objects/base.py:6-14 | converting a converted value changes nothing |
| Convert.PruneKeys | telefone_types/objects/base.py:10 | a key survives exactly when some input entry has that key and a value other than `None` |
| Convert.PruneKeysSubset | telefone_types/objects/base.py:10 | `convert` introduces no key |
| Convert.PruneLookup | telefone_types/objects/base.py:10 | in a dictionary, a key with value `None` is dropped, and any other key holds its value converted |
| Convert.PruneLookupFirst | telefone_types/objects/base.py:10 | the first entry of a key with a value other than `None` survives with its value converted |
| Convert.PruneKeepsOrder | telefone_types/objects/base.py:10 | the surviving keys keep the input order |
| Convert.PruneUnique | telefone_types/objects/base.py:10 | the output dictionary has distinct keys |
| Convert.ListShapeKept | telefone_types/objects/base.py:11-13 | a list keeps its length and order, each element is converted, and `None` elements are kept |
| Convert.AllNoneBecomesEmpty | telefone_types/objects/base.py:10 | a dictionary whose values are all `None` becomes `{}` |
| Convert.EmptiedDictIsKept | telefone_types/objects/base.py:10 | a nested dictionary of `None` values is kept as `{}`, because the filter tests the value before converting it |
| Convert.ConvertToDictIsConvert | telefone_types/objects/base.py:6-19 | `convert_to_dict` on a field dictionary equals `convert` on it and on the model. It yields a dictionary with distinct keys that drops the `None` fields and converts the rest |
| Methods.PassedLocals | telefone_types/methods.py:17-21 | the comprehension keeps only entries of `loc` that are passed: not `self`, not `kwargs`, not `None` |
| Methods.PassedLocalsLookup | telefone_types/methods.py:17-21 | the comprehension keeps a local exactly when it is not `self`, not `kwargs` and not `None` |
| Methods.PassedLocalsKeys | telefone_types/methods.py:17-21 | the comprehension introduces no key |
| Methods.PassedLocalsUnique | telefone_types/methods.py:17-21 | the comprehension yields distinct keys |
| Methods.GetParams | telefone_types/methods.py:16-23 | `get_params` succeeds exactly when `loc` has a `kwargs` entry that holds a dictionary |
| Methods.GetParamsFails | telefone_types/methods.py:22 | `get_params` fails exactly when `kwargs` is missing, or when it is not a dictionary |
| Methods.GetParamsLookup | telefone_types/methods.py:16-23 | a `kwargs` entry wins, even a `None`; otherwise a local is passed with its own value unless it is `self`, `kwargs` or `None` |
| Methods.GetParamsKeys | telefone_types/methods.py:16-23 | the result's keys are the passed locals plus the keys of `kwargs` |
| Methods.GetParamsUnique | telefone_types/methods.py:16-23 | the result is a dictionary with distinct keys |
| Methods.PyDict.SetItem | telefone_types/methods.py:28 | `d[k] = v` on the dictionary object |
| Methods.Aliased | telefone_types/methods.py:27-28 | without `json` the dictionary is unchanged; afterwards the keys are the old keys, with `json_` appended when it was new |
| Methods.AliasedCopiesJson | telefone_types/methods.py:27-28 | after aliasing, `json_` holds the value of `json`, and `json` keeps it |
| Methods.AliasedFrame | telefone_types/methods.py:27-28 | aliasing changes no key but `json_`, and changes nothing when `json` is absent; `json_` is appended when new |
| Methods.AliasedIdempotent | telefone_types/methods.py:26-29 | applying `get_response` twice equals applying it once |
| Methods.GetResponse | telefone_types/methods.py:26-29 | returns the very dictionary object it was given, after copying `json` to `json_` in place. No other key changes, and nothing changes when `json` is absent |
| Objects.WireKey | telefone_types/objects/types.py:79-81 | the key a field is read from differs from its attribute name only for the sender field |
| Objects.WireKeyIsName | telefone_types/objects/types.py:79-81 | a field is read from the wire under its own name, except the sender field `from_`, which is read from `"from"` |
| Objects.FromWire | telefone_types/objects/types.py:14-29 | `cls(**o)`: the instance has exactly the declared fields of its class, in declaration order, under their attribute names |
| Objects.Decode | telefone_types/objects/types.py:14-29 | a field is `None` after parsing exactly when its wire value is `None` or absent; a dictionary under a class is parsed into that class, a list element by element, a union as its first member that takes the value |
| Objects.UnionMember | telefone_types/objects/types.py:615 | a union such as `Union["InputFile", str]` reads a dictionary as a member class and a list as a member list type, the first that takes it; it reads it as no member when none does |
| Objects.FromWireValues | telefone_types/objects/types.py:14-29 | each field of an instance holds its wire value (under its alias for `from_`) parsed into the field's declared type |
| Objects.FromWireDefaults | telefone_types/objects/types.py:14-29 | every field defaults to `None`; an object built from `{}` has every field absent and serialises to `{}` |
| Objects.FromWireReadsWireKeys | telefone_types/objects/types.py:80-81 | only the wire keys of the declared fields are read; any other key is ignored |
| Objects.FromWireUnique | telefone_types/objects/types.py:14-29 | a class with distinct field names yields a field dictionary with distinct keys |
| Objects.SerialiseDecoded | telefone_types/objects/types.py:14-29 | after parsing and serialising, a field appears exactly when its wire value is not `None`, and then as that value parsed and converted. A key that names no field never appears |
| Objects.DecodeSerialiseRoundTrip | telefone_types/objects/types.py:14-29 | parsing a canonical wire value into its declared type and serialising it gives it back exactly, at every depth: same keys, same order, same values. Canonical means each dictionary holds only fields of its class, in declaration order, under their own names, with no `None` and no sender |
| Objects.RoundTripFields | telefone_types/objects/base.py:17-19 | the same for the fields of one object: `convert_to_dict` of the parsed fields is the wire object |
| Objects.FromWireTail | telefone_types/objects/types.py:14-29 | the fields after the first do not read a wire entry that only the first field reads |
| Objects.SenderKeyRenamed | telefone_types/objects/types.py:79-81 | the sender is read from `"from"` but serialised, parsed as a `User`, under `"from_"`, and `"from"` does not come back |
| Objects.NestedSenderRenamed | telefone_types/objects/types.py:79-81 | the same holds inside a nested object of a class with the sender field, such as the `message` of an `Update` |
| Objects.UpdateEnvelope | telefone_types/objects/types.py:14-29 | `Update` is `update_id: int` followed by exactly 14 object slots, with distinct names and no sender field |
| Objects.EmptyUpdate | telefone_types/objects/types.py:14-29 | an `Update` built from `{}` has `update_id` and all 14 slots `None`, and serialises to `{}` |
| Objects.MessageShapesNest | telefone_types/objects/types.py:56-131 | `Message` embeds messages (`reply_to_message`, `pinned_message`) and its `Chat`, and `Chat` embeds its pinned `Message` |
| Objects.UnionLikeClassesAreEmpty | telefone_types/objects/types.py:441-442 | `ChatMember`, `BotCommandScope`, `MenuButton`, `InputMedia`, `InlineQueryResult`, `InputMessageContent` and `PassportElementError` declare no field, so any object of theirs serialises to `{}` |
| Objects.EmptyClassForgets | telefone_types/objects/types.py:441-442 | a class that declares no field parses any wire dictionary into an instance that serialises to `{}` |
| Objects.ChatMemberStatesAreUnionLike | telefone_types/objects/types.py:501-507 | the old and new member states of a `ChatMemberUpdated` have the union-like class `ChatMember` |
| Objects.ChatMemberDeclaresNothing | telefone_types/objects/types.py:441-442 | `ChatMember` declares no field in the table |
| Objects.MemberStateForgotten | telefone_types/objects/types.py:501-507 | a `ChatMemberUpdated` forgets the member states it is sent: `old_chat_member` and `new_chat_member` each serialise to `{}` whatever the wire dictionary held |
| Objects.StateForgottenBy | telefone_types/objects/types.py:501-507 | the same for any field table in which `ChatMember` declares no field |
| Objects.Fields | telefone_types/objects/types.py:14-1269 | the declared fields of each class, in declaration order; the sender field stands for `from_` |
| Objects.SenderClasses | telefone_types/objects/types.py:79-81 | `Message`, `CallbackQuery`, `ChatMemberUpdated`, `ChatJoinRequest`, `InlineQuery`, `ChosenInlineResult`, `ShippingQuery` and `PreCheckoutQuery` declare the sender field second. None of them declares a field `from`, so `SenderKeyRenamed` applies to each |
| Objects.MessageSenderSecond | telefone_types/objects/types.py:79-81 | `Message` declares the sender field second |
| Updates.FindByValueFinds | telefone_types/updates/types.py:18-32 | a lookup of an enum member by value finds a member with that value, and fails only when no member has it |
| Updates.FromValue | telefone_types/updates/types.py:18-32 | `BotUpdateType(s)` yields only a member whose value is `s` |
| Updates.AllKindsComplete | telefone_types/updates/types.py:18-32 | `BotUpdateType` has exactly 14 distinct members |
| Updates.ValueIsLowerName | telefone_types/updates/types.py:19-32 | each member's value is its name in lower case |
| Updates.ValuesDistinct | telefone_types/updates/types.py:19-32 | no two members share a value |
| Updates.MemberName | telefone_types/updates/types.py:19-32 | `BotUpdateType.X.name` of each of the 14 members. It carries no contract; `Updates.ValueIsLowerName` relates it to the values |
| Updates.Value | telefone_types/updates/types.py:19-32 | `BotUpdateType.X.value` of each member. It carries no contract; `Updates.ValueIsLowerName`, `Updates.ValuesDistinct` and `Updates.FromValueInvertsValue` state what the values satisfy |
| Updates.FromValueInvertsValue | telefone_types/updates/types.py:18-32 | `BotUpdateType(s)` and `.value` are mutually inverse |
| Updates.SlotsMatchKinds | telefone_types/updates/types.py:19-32 | the member values are exactly the payload slot names of `Update`, in order, and each slot has the payload class of its kind |
| Updates.SlotOfKind | telefone_types/updates/types.py:19-32 | each kind names exactly one slot of `Update`, and that slot holds its payload class |
| Updates.Payload | telefone_types/updates/types.py:35-76 | the payload class of a kind is one of the classes listed as declaring the sender field exactly when the kind is neither `poll` nor `poll_answer` |
| Updates.PayloadDeclaresSender | telefone_types/updates/types.py:35-76 | in the table of declared fields, the payload class of every kind declares the sender field, and those of `poll` and `poll_answer` do not |
| Updates.SharedPayloads | telefone_types/updates/types.py:42-64 | the four message kinds compose `Message`, the two member kinds compose `ChatMemberUpdated`, and no other two kinds share a payload class |
| Updates.ComposedName | telefone_types/updates/types.py:35-76 | the name of each kind's class in `UpdateTypes`. It carries no contract; `Updates.ComposedNamesDistinct` and `Updates.PreCheckoutComposedName` state its properties |
| Updates.ComposedNamesDistinct | telefone_types/updates/types.py:35-76 | each kind has its own composed class |
| Updates.PreCheckoutComposedName | telefone_types/updates/types.py:72-73 | the pre-checkout composed class is named `PreCheckoutQuery` and composes the `PreCheckoutQuery` payload; every other composed name ends in `Update` |
| Updates.PayloadFieldsDeclared | telefone_types/updates/types.py:36-76 | the fields a composed class takes from its payload are exactly the declared fields of the payload class of its kind |
| Updates.Compose | telefone_types/updates/types.py:35-76 | an instance of a composed class has its kind, exactly the declared field names of its payload class, and the two mixin values given |
| Updates.MixinDisjoint | telefone_types/updates/base.py:13-22 | `state_peer`, `unprepared_ctx_api` and the property `ctx_api` are the name of no field of any payload class |
| Updates.GetAttr | telefone_types/updates/base.py:12-22 | reading an attribute fails exactly when it is neither a mixin field, nor the property `ctx_api`, nor a payload field of the instance |
| Updates.CtxApi | telefone_types/updates/base.py:20-22 | `ctx_api` is what reading the attribute `unprepared_ctx_api` yields, and reading the attribute `ctx_api` yields the same |
| Updates.Decoded | telefone_types/updates/types.py:35-76 | the update that `Sub(**o)` holds, for a subclass that supplies `get_state_key`: its kind, a payload whose keys are exactly the declared field names of the payload class, each parsed from the wire object, and the two mixin fields read from the wire object as `Updates.ReadMixin` states |
| Updates.Build | telefone_types/updates/base.py:16-18 | a composed class cannot be instantiated unless a subclass supplies `get_state_key`; with one, the instance holds the update read from the wire object |
| Updates.GetStateKey | telefone_types/updates/base.py:16-18 | `get_state_key()` of an instance: the subclass's implementation applied to the instance's update. It carries no contract; `Updates.StateKeyIsSupplied` states what it yields |
| Updates.StateKeyIsSupplied | telefone_types/updates/base.py:16-18 | instantiating without `get_state_key` always fails; with one, `get_state_key()` yields what it computes for the update read from the wire object |
| Updates.ReadMixin | telefone_types/updates/base.py:13-14 | a mixin field is `None` exactly when its key is absent from the wire object or holds `None`, and otherwise holds the wire value read |
| Updates.MixinFromWire | telefone_types/updates/base.py:13-22 | `Sub(**o)`, for a subclass that supplies `get_state_key`, reads `state_peer` and `unprepared_ctx_api` from the wire object like any field, so `ctx_api` is what `o` holds under `unprepared_ctx_api`, and `None` exactly when that key is absent or `None` |
| Updates.MixinDefaults | telefone_types/updates/base.py:13-14 | both mixin fields default to `None`: an update built from a wire object without them has `state_peer` and `ctx_api` equal to `None` |
| Updates.MixinKeysLeavePayload | telefone_types/updates/base.py:12-14 | the wire keys of the mixin fields are read by the mixin only: the payload fields are the same as for the wire object without them |
| Updates.ComposingAddsTwoFields | telefone_types/updates/types.py:36-76 | a composed class has the payload's field names and exactly two more |
| Updates.PayloadFieldsReadThrough | telefone_types/updates/base.py:12-14 | the mixin shadows nothing: a payload field of a composed instance reads as its wire value parsed into its declared type |
| Updates.ReadThrough | telefone_types/updates/base.py:12-14 | the same, for any field table, for a field whose name is no mixin name |
| Updates.FirstFieldRead | telefone_types/objects/types.py:14-29 | the first field of a name is stored under that name, holding its parsed wire value |

## Left out

- The async API methods of `APIMethods` (`telefone_types/methods.py:31` onwards) are left out. Each sends a request over the network and parses the answer with pydantic.
- pydantic's validation and scalar coercion are left out, and so is the `update_forward_refs` loop (`telefone_types/objects/types.py:1272-1274`), whose effect the model has by construction. `Objects.Decode` parses nested objects, lists and unions, but keeps scalars as they come, and keeps a value of the wrong kind for its declared type where pydantic would raise `ValidationError`. Under a class type it keeps a value that is not a dictionary as it is, such as a list of key-value pairs, which pydantic v1 turns into a dictionary with `dict(value)` and then parses.
- `.dict()` on nested models is not modelled step by step. A nested model is its field dictionary (`Json.Model`).
- `telefone_types/objects.py` is not part of this model. It repeats `objects/types.py` on plain `BaseModel`.
- The `__all__` export tuples are left out.
- Floats are opaque (`Json.Num`, `FloatT`), since nothing here computes with them.
- `StatePeer` and the API client are opaque type parameters. How a wire value under `state_peer` or `unprepared_ctx_api` becomes one is a parameter of `Updates.Decoded`; pydantic's validation of a `StatePeer` is not modelled.
- Updates.GetAttr: reads fields and the `ctx_api` property only. Methods such as `get_state_key` and the attributes pydantic's `BaseModel` defines are not modelled as attributes.
- `get_state_key` is abstract in `BaseBotUpdate`, and pydantic's model metaclass derives from `ABCMeta`. So no composed class of `UpdateTypes` can be instantiated until a subclass supplies `get_state_key`: `Updates.Build` fails with `AbstractClass` for them. What a subclass's `get_state_key` computes is a parameter (`Updates.StateKey`).
- No union-variant resolver and no selection of the populated `Update` slot are modelled, because the code has neither.
- Methods.GetParams: a `kwargs` value that is not a dictionary is an error result. The model does not follow `dict.update`'s acceptance of other iterables of pairs.
- Objects.DecodeSerialiseRoundTrip covers canonical wire values only. A value that holds a sender, a `None` entry, a key that no field reads, keys out of declaration order, or anything under a union-like class does not come back unchanged. `Objects.NestedSenderRenamed` and `Objects.MemberStateForgotten` state what happens instead in two of those cases.
- Objects.SenderClasses shows that the eight listed classes declare the sender field. It does not show that no other class declares it.
- Objects.UpdateEnvelope: distinct field names are proved for `Update` and, by `Objects.ChatMemberUpdatedDistinct`, for `ChatMemberUpdated` only. The quadratic check is too costly for the larger tables, such as the 59 fields of `Message`. For that reason `Objects.SenderKeyRenamed` requires only that the sender is the first field of its name.
- Serialising a decoded object does not give back its wire form when a sender is present: the code serialises with field names, the sender comes back under `from_`, not `from` (`Objects.SenderKeyRenamed`).
