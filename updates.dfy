/** The update kinds of `telefone_types/updates/types.py` and the
    `BaseBotUpdate` mixin of `telefone_types/updates/base.py` that every
    composed update class inherits besides its payload class. */
module Updates {
  import opened Values
  import Objects

  /** `BotUpdateType`, one constructor per member, in declaration order. */
  datatype BotUpdateType =
    | Message
    | EditedMessage
    | ChannelPost
    | EditedChannelPost
    | InlineQuery
    | ChosenInlineResult
    | CallbackQuery
    | ShippingQuery
    | PreCheckoutQuery
    | Poll
    | PollAnswer
    | MyChatMember
    | ChatMember
    | ChatJoinRequest

  /** Every member, in declaration order. */
  const AllKinds: seq<BotUpdateType> := [
    Message, EditedMessage, ChannelPost, EditedChannelPost, InlineQuery,
    ChosenInlineResult, CallbackQuery, ShippingQuery, PreCheckoutQuery, Poll,
    PollAnswer, MyChatMember, ChatMember, ChatJoinRequest
  ]

  /** The member's name, `BotUpdateType.X.name`. */
  function MemberName(k: BotUpdateType): string {
    match k
    case Message => "MESSAGE"
    case EditedMessage => "EDITED_MESSAGE"
    case ChannelPost => "CHANNEL_POST"
    case EditedChannelPost => "EDITED_CHANNEL_POST"
    case InlineQuery => "INLINE_QUERY"
    case ChosenInlineResult => "CHOSEN_INLINE_RESULT"
    case CallbackQuery => "CALLBACK_QUERY"
    case ShippingQuery => "SHIPPING_QUERY"
    case PreCheckoutQuery => "PRE_CHECKOUT_QUERY"
    case Poll => "POLL"
    case PollAnswer => "POLL_ANSWER"
    case MyChatMember => "MY_CHAT_MEMBER"
    case ChatMember => "CHAT_MEMBER"
    case ChatJoinRequest => "CHAT_JOIN_REQUEST"
  }

  /** The member's value, `BotUpdateType.X.value`. */
  function Value(k: BotUpdateType): string {
    match k
    case Message => "message"
    case EditedMessage => "edited_message"
    case ChannelPost => "channel_post"
    case EditedChannelPost => "edited_channel_post"
    case InlineQuery => "inline_query"
    case ChosenInlineResult => "chosen_inline_result"
    case CallbackQuery => "callback_query"
    case ShippingQuery => "shipping_query"
    case PreCheckoutQuery => "pre_checkout_query"
    case Poll => "poll"
    case PollAnswer => "poll_answer"
    case MyChatMember => "my_chat_member"
    case ChatMember => "chat_member"
    case ChatJoinRequest => "chat_join_request"
  }

  /** `BotUpdateType(s)`: the member whose value is `s`, found by going
      through the members in order; Python raises `ValueError` when there
      is none. */
  function FromValue(s: string): (r: Option<BotUpdateType>)
    ensures r.Some? ==> Value(r.value) == s
  {
    FindByValueFinds(s, AllKinds);
    FindByValue(s, AllKinds)
  }

  function FindByValue(s: string, ks: seq<BotUpdateType>): Option<BotUpdateType> {
    if ks == [] then None
    else if Value(ks[0]) == s then Some(ks[0])
    else FindByValue(s, ks[1..])
  }

  /** A search by value finds a member of the list with that value, and
      finds one whenever a member of the list has that value. */
  lemma {:induction false} FindByValueFinds(s: string, ks: seq<BotUpdateType>)
    ensures FindByValue(s, ks).Some? ==> FindByValue(s, ks).value in ks && Value(FindByValue(s, ks).value) == s
    ensures (exists k :: k in ks && Value(k) == s) ==> FindByValue(s, ks).Some?
  {
    if ks != [] {
      FindByValueFinds(s, ks[1..]);
      if Value(ks[0]) != s && exists k :: k in ks && Value(k) == s {
        var k :| k in ks && Value(k) == s;
        assert k in ks[1..];
      }
    }
  }

  function LowerChar(c: char): char {
    if 'A' <= c <= 'Z' then (c as int - 'A' as int + 'a' as int) as char else c
  }

  /** `s.lower()` on ASCII text. */
  function Lower(s: string): (r: string)
    ensures |r| == |s|
  {
    seq(|s|, i requires 0 <= i < |s| => LowerChar(s[i]))
  }

  /** There are fourteen members, each listed once. */
  lemma AllKindsComplete(k: BotUpdateType)
    ensures |AllKinds| == 14
    ensures k in AllKinds
    ensures forall i, j | 0 <= i < j < |AllKinds| :: AllKinds[i] != AllKinds[j]
  {
  }

  /** Each member's value is its name in lower case. */
  lemma ValueIsLowerName(k: BotUpdateType)
    ensures Value(k) == Lower(MemberName(k))
  {
    LowerNames0();
    LowerNames1();
    LowerNames2();
    LowerNames3();
    LowerNames4();
    LowerNames5();
    LowerNames6();
  }

  // The facts about all fourteen members are split into small groups
  // (`LowerNames0` to `LowerNames6`, `UpdateSuffix0` to `UpdateSuffix3`,
  // one `...Declared` and one `...AvoidsMixin` lemma per payload class, and
  // `MessageAvoidsMixin` in three ranges) only to keep each proof
  // obligation small for the solver; together they state one fact each.

  lemma LowerNames0()
    ensures Value(Message) == Lower(MemberName(Message))
    ensures Value(EditedMessage) == Lower(MemberName(EditedMessage))
  {
  }

  lemma LowerNames1()
    ensures Value(ChannelPost) == Lower(MemberName(ChannelPost))
    ensures Value(EditedChannelPost) == Lower(MemberName(EditedChannelPost))
  {
  }

  lemma LowerNames2()
    ensures Value(InlineQuery) == Lower(MemberName(InlineQuery))
    ensures Value(ChosenInlineResult) == Lower(MemberName(ChosenInlineResult))
  {
  }

  lemma LowerNames3()
    ensures Value(CallbackQuery) == Lower(MemberName(CallbackQuery))
    ensures Value(ShippingQuery) == Lower(MemberName(ShippingQuery))
  {
  }

  lemma LowerNames4()
    ensures Value(PreCheckoutQuery) == Lower(MemberName(PreCheckoutQuery))
    ensures Value(Poll) == Lower(MemberName(Poll))
  {
  }

  lemma LowerNames5()
    ensures Value(PollAnswer) == Lower(MemberName(PollAnswer))
    ensures Value(MyChatMember) == Lower(MemberName(MyChatMember))
  {
  }

  lemma LowerNames6()
    ensures Value(ChatMember) == Lower(MemberName(ChatMember))
    ensures Value(ChatJoinRequest) == Lower(MemberName(ChatJoinRequest))
  {
  }

  /** Two members with the same value are the same member: the values
      differ in length or in their first letter. */
  lemma ValuesDistinct(k: BotUpdateType, k': BotUpdateType)
    ensures Value(k) == Value(k') ==> k == k'
  {
    if Value(k) == Value(k') {
      assert |Value(k)| == |Value(k')| && Value(k)[0] == Value(k')[0];
    }
  }

  /** Looking a member up by its value finds it, and only a member's value
      finds anything: value and member determine each other. */
  lemma FromValueInvertsValue(k: BotUpdateType, s: string)
    ensures FromValue(Value(k)) == Some(k)
    ensures FromValue(s) == Some(k) <==> Value(k) == s
  {
    AllKindsComplete(k);
    FindByValueFinds(Value(k), AllKinds);
    FindByValueFinds(s, AllKinds);
    ValuesDistinct(k, FromValue(Value(k)).value);
    if FromValue(s) == Some(k) {
      ValuesDistinct(k, FromValue(s).value);
    }
  }

  /** The payload class of each kind: the class that its composed class
      in `UpdateTypes` combines with `BaseBotUpdate`. */
  function Payload(k: BotUpdateType): (c: Objects.ClassName)
    ensures Objects.IsSenderClass(c) <==> k != Poll && k != PollAnswer
  {
    match k
    case Message | EditedMessage | ChannelPost | EditedChannelPost => Objects.Message
    case InlineQuery => Objects.InlineQuery
    case ChosenInlineResult => Objects.ChosenInlineResult
    case CallbackQuery => Objects.CallbackQuery
    case ShippingQuery => Objects.ShippingQuery
    case PreCheckoutQuery => Objects.PreCheckoutQuery
    case Poll => Objects.Poll
    case PollAnswer => Objects.PollAnswer
    case MyChatMember | ChatMember => Objects.ChatMemberUpdated
    case ChatJoinRequest => Objects.ChatJoinRequest
  }

  /** The name of each kind's composed class in `UpdateTypes`. */
  function ComposedName(k: BotUpdateType): string {
    match k
    case Message => "MessageUpdate"
    case EditedMessage => "EditedMessageUpdate"
    case ChannelPost => "ChannelPostUpdate"
    case EditedChannelPost => "EditedChannelPostUpdate"
    case InlineQuery => "InlineQueryUpdate"
    case ChosenInlineResult => "ChosenInlineResultUpdate"
    case CallbackQuery => "CallbackQueryUpdate"
    case ShippingQuery => "ShippingQueryUpdate"
    case PreCheckoutQuery => "PreCheckoutQuery"
    case Poll => "PollUpdate"
    case PollAnswer => "PollAnswerUpdate"
    case MyChatMember => "MyChatMemberUpdate"
    case ChatMember => "ChatMemberUpdate"
    case ChatJoinRequest => "ChatJoinRequestUpdate"
  }

  /** The slots of the `Update` envelope after `update_id` are the members'
      values, in the members' order, and each slot holds the payload class
      of its kind. */
  lemma SlotsMatchKinds()
    ensures |Objects.UpdateFields| == |AllKinds| + 1
    ensures forall i | 0 <= i < |AllKinds| ::
              Objects.UpdateFields[i + 1] == Objects.Plain(Value(AllKinds[i]), Objects.Obj(Payload(AllKinds[i])))
  {
  }

  /** Each kind has exactly one slot in the envelope, named by its value
      and holding its payload class. */
  lemma SlotOfKind(k: BotUpdateType)
    ensures exists i :: 1 <= i < |Objects.UpdateFields|
                     && Objects.UpdateFields[i] == Objects.Plain(Value(k), Objects.Obj(Payload(k)))
    ensures forall i | 0 <= i < |Objects.UpdateFields| :: Objects.Name(Objects.UpdateFields[i]) == Value(k)
              ==> Objects.UpdateFields[i] == Objects.Plain(Value(k), Objects.Obj(Payload(k)))
  {
    AllKindsComplete(k);
    SlotsMatchKinds();
    Objects.UpdateEnvelope();
    var j :| 0 <= j < |AllKinds| && AllKinds[j] == k;
    assert Objects.UpdateFields[j + 1] == Objects.Plain(Value(k), Objects.Obj(Payload(k)));
    forall i | 0 <= i < |Objects.UpdateFields| && Objects.Name(Objects.UpdateFields[i]) == Value(k)
      ensures Objects.UpdateFields[i] == Objects.Plain(Value(k), Objects.Obj(Payload(k)))
    {
      assert Objects.Name(Objects.UpdateFields[j + 1]) == Value(k);
      if i != j + 1 {
        assert false;
      }
    }
  }

  /** Four kinds carry a `Message` and two a `ChatMemberUpdated`; every
      other kind has a payload class of its own. */
  lemma SharedPayloads(k: BotUpdateType, k': BotUpdateType)
    ensures Payload(k) == Objects.Message <==> k in {Message, EditedMessage, ChannelPost, EditedChannelPost}
    ensures Payload(k) == Objects.ChatMemberUpdated <==> k in {MyChatMember, ChatMember}
    ensures Payload(k) == Payload(k') && k != k' ==> Payload(k) in {Objects.Message, Objects.ChatMemberUpdated}
  {
    // one case per kind: a single case split over both kinds is close to
    // the resource limit
    match k
    case Message | EditedMessage | ChannelPost | EditedChannelPost =>
    case MyChatMember | ChatMember =>
    case _ =>
      assert Payload(k) == Payload(k') ==> k == k';
  }

  /** One composed class per kind: the fourteen names are distinct. */
  lemma ComposedNamesDistinct(k: BotUpdateType, k': BotUpdateType)
    ensures ComposedName(k) == ComposedName(k') ==> k == k'
  {
    if ComposedName(k) == ComposedName(k') {
      assert |ComposedName(k)| == |ComposedName(k')| && ComposedName(k)[..2] == ComposedName(k')[..2];
    }
  }

  /** Whether a class name ends in `Update`. */
  predicate EndsInUpdate(s: string) {
    |s| > 6 && s[|s| - 6..] == "Update"
  }

  /** The pre-checkout class alone is not named after its kind plus
      `Update`: it takes the name of its payload class. */
  lemma PreCheckoutComposedName(k: BotUpdateType)
    ensures ComposedName(PreCheckoutQuery) == "PreCheckoutQuery"
    ensures Payload(PreCheckoutQuery) == Objects.PreCheckoutQuery
    ensures EndsInUpdate(ComposedName(k)) <==> k != PreCheckoutQuery
  {
    UpdateSuffix0();
    UpdateSuffix1();
    UpdateSuffix2();
    UpdateSuffix3();
  }

  // Split for solver cost, like `LowerNames0`.
  lemma UpdateSuffix0()
    ensures EndsInUpdate(ComposedName(Message)) && EndsInUpdate(ComposedName(EditedMessage))
    ensures EndsInUpdate(ComposedName(ChannelPost)) && EndsInUpdate(ComposedName(EditedChannelPost))
    ensures !EndsInUpdate(ComposedName(PreCheckoutQuery))
  {
  }

  lemma UpdateSuffix1()
    ensures EndsInUpdate(ComposedName(InlineQuery)) && EndsInUpdate(ComposedName(ChosenInlineResult))
    ensures EndsInUpdate(ComposedName(CallbackQuery)) && EndsInUpdate(ComposedName(ShippingQuery))
  {
  }

  lemma UpdateSuffix2()
    ensures EndsInUpdate(ComposedName(Poll)) && EndsInUpdate(ComposedName(PollAnswer))
    ensures EndsInUpdate(ComposedName(MyChatMember)) && EndsInUpdate(ComposedName(ChatMember))
  {
  }

  lemma UpdateSuffix3()
    ensures EndsInUpdate(ComposedName(ChatJoinRequest))
  {
  }

  /** The fields that `BaseBotUpdate` adds to its payload class. */
  const MixinNames: seq<string> := ["state_peer", "unprepared_ctx_api"]

  /** The declared fields of the payload class of `k`. */
  function PayloadFields(k: BotUpdateType): seq<Objects.FieldDecl> {
    match k
    case Message | EditedMessage | ChannelPost | EditedChannelPost => Objects.MessageFields
    case InlineQuery => Objects.InlineQueryFields
    case ChosenInlineResult => Objects.ChosenInlineResultFields
    case CallbackQuery => Objects.CallbackQueryFields
    case ShippingQuery => Objects.ShippingQueryFields
    case PreCheckoutQuery => Objects.PreCheckoutQueryFields
    case Poll => Objects.PollFields
    case PollAnswer => Objects.PollAnswerFields
    case MyChatMember | ChatMember => Objects.ChatMemberUpdatedFields
    case ChatJoinRequest => Objects.ChatJoinRequestFields
  }

  /** `PayloadFields` lists, for each kind, the declared fields of the
      payload class in the object table. */
  lemma PayloadFieldsDeclared(k: BotUpdateType)
    ensures PayloadFields(k) == Objects.Fields(Payload(k))
  {
    match k
    case Message | EditedMessage | ChannelPost | EditedChannelPost => MessageDeclared();
    case InlineQuery => InlineQueryDeclared();
    case ChosenInlineResult => ChosenInlineResultDeclared();
    case CallbackQuery => CallbackQueryDeclared();
    case ShippingQuery => ShippingQueryDeclared();
    case PreCheckoutQuery => PreCheckoutQueryDeclared();
    case Poll => PollDeclared();
    case PollAnswer => PollAnswerDeclared();
    case MyChatMember | ChatMember => ChatMemberUpdatedDeclared();
    case ChatJoinRequest => ChatJoinRequestDeclared();
  }

  // One lemma per payload class, for solver cost: each unfolds the table
  // `Objects.Fields` once.
  lemma MessageDeclared()
    ensures Objects.Fields(Objects.Message) == Objects.MessageFields
  {
  }

  lemma InlineQueryDeclared()
    ensures Objects.Fields(Objects.InlineQuery) == Objects.InlineQueryFields
  {
  }

  lemma ChosenInlineResultDeclared()
    ensures Objects.Fields(Objects.ChosenInlineResult) == Objects.ChosenInlineResultFields
  {
  }

  lemma CallbackQueryDeclared()
    ensures Objects.Fields(Objects.CallbackQuery) == Objects.CallbackQueryFields
  {
  }

  lemma ShippingQueryDeclared()
    ensures Objects.Fields(Objects.ShippingQuery) == Objects.ShippingQueryFields
  {
  }

  lemma PreCheckoutQueryDeclared()
    ensures Objects.Fields(Objects.PreCheckoutQuery) == Objects.PreCheckoutQueryFields
  {
  }

  lemma PollDeclared()
    ensures Objects.Fields(Objects.Poll) == Objects.PollFields
  {
  }

  lemma PollAnswerDeclared()
    ensures Objects.Fields(Objects.PollAnswer) == Objects.PollAnswerFields
  {
  }

  lemma ChatMemberUpdatedDeclared()
    ensures Objects.Fields(Objects.ChatMemberUpdated) == Objects.ChatMemberUpdatedFields
  {
  }

  lemma ChatJoinRequestDeclared()
    ensures Objects.Fields(Objects.ChatJoinRequest) == Objects.ChatJoinRequestFields
  {
  }

  /** The payload class of every kind declares the sender field, except
      those of `poll` and `poll_answer`. */
  lemma PayloadDeclaresSender(k: BotUpdateType)
    ensures Objects.Sender in Objects.Fields(Payload(k)) <==> k != Poll && k != PollAnswer
  {
    PayloadFieldsDeclared(k);
    PayloadFieldsSender(k);
  }

  /** `PayloadDeclaresSender` on the listed payload fields. */
  lemma PayloadFieldsSender(k: BotUpdateType)
    ensures Objects.Sender in PayloadFields(k) <==> k != Poll && k != PollAnswer
  {
    if k != Poll && k != PollAnswer {
      Objects.SenderClasses();
      assert PayloadFields(k)[1] == Objects.Sender;
    }
  }

  /** No field of `fs` is named like a field or the property of
      `BaseBotUpdate`. */
  predicate AvoidsMixin(fs: seq<Objects.FieldDecl>) {
    AvoidsMixinBetween(fs, 0, |fs|)
  }

  predicate AvoidsMixinBetween(fs: seq<Objects.FieldDecl>, lo: int, hi: int) {
    forall i | lo <= i < hi && 0 <= i < |fs| ::
      Objects.Name(fs[i]) != "state_peer" && Objects.Name(fs[i]) != "unprepared_ctx_api"
      && Objects.Name(fs[i]) != "ctx_api"
  }

  /** `BaseBotUpdate`'s fields and its `ctx_api` property coincide with
      no field of any payload class. */
  lemma MixinDisjoint(k: BotUpdateType)
    ensures forall n | n in MixinNames :: n !in Objects.Names(PayloadFields(k))
    ensures "ctx_api" !in Objects.Names(PayloadFields(k))
  {
    MessageAvoidsMixin();
    InlineQueryAvoidsMixin();
    ChosenInlineResultAvoidsMixin();
    CallbackQueryAvoidsMixin();
    ShippingQueryAvoidsMixin();
    PreCheckoutQueryAvoidsMixin();
    PollAvoidsMixin();
    PollAnswerAvoidsMixin();
    ChatMemberUpdatedAvoidsMixin();
    ChatJoinRequestAvoidsMixin();
    assert AvoidsMixin(PayloadFields(k));
  }

  // One lemma per payload class, and three ranges for the 59 fields of
  // `Message`, for solver cost.
  lemma MessageAvoidsMixin()
    ensures AvoidsMixin(Objects.MessageFields)
  {
    MessageAvoidsMixinBelow20();
    MessageAvoidsMixinBelow40();
    MessageAvoidsMixinBelow60();
  }

  lemma MessageAvoidsMixinBelow20()
    ensures AvoidsMixinBetween(Objects.MessageFields, 0, 20)
  {
  }

  lemma MessageAvoidsMixinBelow40()
    ensures AvoidsMixinBetween(Objects.MessageFields, 20, 40)
  {
  }

  lemma MessageAvoidsMixinBelow60()
    ensures AvoidsMixinBetween(Objects.MessageFields, 40, 60)
  {
  }

  lemma InlineQueryAvoidsMixin()
    ensures AvoidsMixin(Objects.InlineQueryFields)
  {
  }

  lemma ChosenInlineResultAvoidsMixin()
    ensures AvoidsMixin(Objects.ChosenInlineResultFields)
  {
  }

  lemma CallbackQueryAvoidsMixin()
    ensures AvoidsMixin(Objects.CallbackQueryFields)
  {
  }

  lemma ShippingQueryAvoidsMixin()
    ensures AvoidsMixin(Objects.ShippingQueryFields)
  {
  }

  lemma PreCheckoutQueryAvoidsMixin()
    ensures AvoidsMixin(Objects.PreCheckoutQueryFields)
  {
  }

  lemma PollAvoidsMixin()
    ensures AvoidsMixin(Objects.PollFields)
  {
  }

  lemma PollAnswerAvoidsMixin()
    ensures AvoidsMixin(Objects.PollAnswerFields)
  {
  }

  lemma ChatMemberUpdatedAvoidsMixin()
    ensures AvoidsMixin(Objects.ChatMemberUpdatedFields)
  {
  }

  lemma ChatJoinRequestAvoidsMixin()
    ensures AvoidsMixin(Objects.ChatJoinRequestFields)
  {
  }

  /** An instance of the composed class of `kind`: the field dictionary of
      its payload class and the two fields of `BaseBotUpdate`. `S` stands
      for `StatePeer` and `A` for the API client; both are opaque here. */
  datatype TypedUpdate<S, A> = TypedUpdate(
    kind: BotUpdateType,
    payload: Entries,
    statePeer: Option<S>,
    unpreparedCtxApi: Option<A>)

  /** An instance of the composed class of `k` built from the wire object
      `o`, with the two mixin fields as given. */
  function Compose<S, A>(k: BotUpdateType, o: Entries, statePeer: Option<S>, api: Option<A>): (u: TypedUpdate<S, A>)
    ensures u.kind == k && KeysOf(u.payload) == Objects.Names(PayloadFields(k))
    ensures u.statePeer == statePeer && u.unpreparedCtxApi == api
  {
    TypedUpdate(k, Objects.FromWire(Objects.Fields, PayloadFields(k), o), statePeer, api)
  }

  /** A mixin field read from the wire object `o`: `None` when its key is
      absent or holds `None`, and otherwise the value as `read` turns it
      into a `StatePeer` or an API handle (which pydantic does without
      checking for `unprepared_ctx_api`, typed `Any`). */
  function ReadMixin<T>(o: Entries, name: string, read: Json -> T): (r: Option<T>)
    ensures r.None? <==> name !in KeysOf(o) || Lookup(o, name).value == Null
    ensures r.Some? ==> r.value == read(Lookup(o, name).value)
  {
    match Lookup(o, name)
    case None => None
    case Some(v) => if v == Null then None else Some(read(v))
  }

  /** The update that `Sub(**o)` holds, for a subclass `Sub` of the
      composed class of `k` that supplies `get_state_key`: the payload
      fields and the two mixin fields, all read from the wire object. */
  function Decoded<S, A>(k: BotUpdateType, o: Entries, readPeer: Json -> S, readApi: Json -> A): (u: TypedUpdate<S, A>)
    ensures u.kind == k && KeysOf(u.payload) == Objects.Names(PayloadFields(k))
    ensures u.payload == Objects.FromWire(Objects.Fields, PayloadFields(k), o)
    ensures u.statePeer == ReadMixin(o, "state_peer", readPeer)
    ensures u.unpreparedCtxApi == ReadMixin(o, "unprepared_ctx_api", readApi)
  {
    Compose(k, o, ReadMixin(o, "state_peer", readPeer), ReadMixin(o, "unprepared_ctx_api", readApi))
  }

  /** What reading a field of an instance yields. */
  datatype Attribute<S, A> =
    | FieldValue(value: Json)
    | StatePeerValue(peer: Option<S>)
    | CtxApiValue(api: Option<A>)

  /** `getattr(u, name)` for the fields of a composed class and the
      `ctx_api` property: the members of `BaseBotUpdate`, which comes first
      among the bases, then the fields of the payload class. `None` stands
      for `AttributeError`. */
  function GetAttr<S, A>(u: TypedUpdate<S, A>, name: string): (r: Option<Attribute<S, A>>)
    ensures r.None? <==> name !in KeysOf(u.payload) && name != "state_peer" && name != "unprepared_ctx_api"
                         && name != "ctx_api"
  {
    if name == "state_peer" then Some(StatePeerValue(u.statePeer))
    else if name == "unprepared_ctx_api" || name == "ctx_api" then Some(CtxApiValue(u.unpreparedCtxApi))
    else match Lookup(u.payload, name)
         case Some(v) => Some(FieldValue(v))
         case None => None
  }

  /** The `ctx_api` property: the attribute `unprepared_ctx_api`, read
      without changing anything. */
  function CtxApi<S, A>(u: TypedUpdate<S, A>): (api: Option<A>)
    ensures GetAttr(u, "unprepared_ctx_api") == Some(CtxApiValue(api))
    ensures GetAttr(u, "ctx_api") == GetAttr(u, "unprepared_ctx_api")
  {
    u.unpreparedCtxApi
  }

  /** Why a class cannot be instantiated. */
  datatype BuildError = AbstractClass

  /** A `get_state_key` implementation: the key of the state an update
      belongs to, or `None`. What it computes is up to the subclass that
      supplies it. */
  type StateKey<!S, !A> = TypedUpdate<S, A> -> Option<int>

  /** An instance of a subclass that supplies `get_state_key`. */
  datatype Instance<!S, !A> = Instance(update: TypedUpdate<S, A>, stateKey: StateKey<S, A>)

  /** Instantiating a class for `k` from the wire object `o`, given the
      `get_state_key` its class supplies, if any. `get_state_key` of
      `BaseBotUpdate` is abstract and pydantic's model metaclass is an
      `ABCMeta`, so a composed class of `UpdateTypes`, which supplies none,
      cannot be instantiated; a subclass that supplies one can, and its
      instance holds the update read from the wire object. */
  function Build<S, A>(k: BotUpdateType, o: Entries, readPeer: Json -> S, readApi: Json -> A,
                       stateKey: Option<StateKey<S, A>>)
    : (r: Result<Instance<S, A>, BuildError>)
    ensures r.Err? <==> stateKey.None?
    ensures r.Ok? ==> r.value.update == Decoded(k, o, readPeer, readApi) && r.value.stateKey == stateKey.value
  {
    match stateKey
    case None => Err(AbstractClass)
    case Some(f) => Ok(Instance(Decoded(k, o, readPeer, readApi), f))
  }

  /** `get_state_key()`: what the subclass supplies, applied to the
      instance. */
  function GetStateKey<S, A>(i: Instance<S, A>): Option<int> {
    i.stateKey(i.update)
  }

  /** Instantiating a composed class without a `get_state_key` always
      fails; with one it succeeds, and `get_state_key()` then yields what
      that implementation computes for the update read from the wire. */
  lemma StateKeyIsSupplied<S, A>(k: BotUpdateType, o: Entries, readPeer: Json -> S, readApi: Json -> A,
                                 f: StateKey<S, A>)
    ensures Build(k, o, readPeer, readApi, None).Err?
    ensures Build(k, o, readPeer, readApi, Some(f)).Ok?
    ensures GetStateKey(Build(k, o, readPeer, readApi, Some(f)).value) == f(Decoded(k, o, readPeer, readApi))
  {
  }

  /** The mixin fields are ordinary fields: built from the wire, an update
      reads `state_peer` and `unprepared_ctx_api` from the wire object, so
      `ctx_api` is whatever the wire object holds under
      `unprepared_ctx_api`, and `None` when the key is absent or `None`. */
  lemma MixinFromWire<S, A>(k: BotUpdateType, o: Entries, readPeer: Json -> S, readApi: Json -> A)
    ensures GetAttr(Decoded(k, o, readPeer, readApi), "state_peer")
         == Some(StatePeerValue(ReadMixin(o, "state_peer", readPeer)))
    ensures CtxApi(Decoded(k, o, readPeer, readApi)).None?
        <==> "unprepared_ctx_api" !in KeysOf(o) || Lookup(o, "unprepared_ctx_api").value == Null
    ensures CtxApi(Decoded(k, o, readPeer, readApi)).Some?
        ==> CtxApi(Decoded(k, o, readPeer, readApi)).value == readApi(Lookup(o, "unprepared_ctx_api").value)
  {
  }

  /** Both mixin fields default to `None`: an update built from a wire
      object without them has no state peer and no API handle. */
  lemma MixinDefaults<S, A>(k: BotUpdateType, o: Entries, readPeer: Json -> S, readApi: Json -> A)
    requires "state_peer" !in KeysOf(o) && "unprepared_ctx_api" !in KeysOf(o)
    ensures GetAttr(Decoded(k, o, readPeer, readApi), "state_peer") == Some(StatePeerValue(None))
    ensures CtxApi(Decoded(k, o, readPeer, readApi)) == None
  {
  }

  /** The wire keys of the mixin fields are read by the mixin only: the
      payload of an update built from the wire is the same as without
      them. */
  lemma MixinKeysLeavePayload<S, A>(k: BotUpdateType, o: Entries, readPeer: Json -> S, readApi: Json -> A)
    ensures Decoded(k, o, readPeer, readApi).payload
         == Compose<S, A>(k, Strip(o), None, None).payload
  {
    var fs := PayloadFields(k);
    MixinDisjoint(k);
    assert MixinNames[0] in MixinNames && MixinNames[1] in MixinNames;
    forall i | 0 <= i < |fs|
      ensures Lookup(o, Objects.WireKey(fs[i])) == Lookup(Strip(o), Objects.WireKey(fs[i]))
    {
      assert Objects.Names(fs)[i] == Objects.Name(fs[i]);
      Objects.WireKeyIsName(fs[i]);
      StripLookup(o, Objects.WireKey(fs[i]));
    }
    Objects.FromWireReadsWireKeys(Objects.Fields, fs, o, Strip(o));
  }

  /** `o` without the wire keys of the mixin fields. */
  function Strip(o: Entries): (r: Entries)
    ensures forall p | p in r :: p in o && p.0 != "state_peer" && p.0 != "unprepared_ctx_api"
  {
    if o == [] then []
    else if o[0].0 == "state_peer" || o[0].0 == "unprepared_ctx_api" then Strip(o[1..])
    else [o[0]] + Strip(o[1..])
  }

  lemma {:induction false} StripLookup(o: Entries, k: string)
    requires k != "state_peer" && k != "unprepared_ctx_api"
    ensures Lookup(Strip(o), k) == Lookup(o, k)
  {
    if o != [] {
      StripLookup(o[1..], k);
    }
  }

  /** The field names of the composed class of `k`. */
  function ComposedFieldNames(k: BotUpdateType): seq<string> {
    Objects.Names(PayloadFields(k)) + MixinNames
  }

  /** Composing adds exactly two fields: the composed class has the
      payload's field names and the two mixin names, and no mixin name was
      already a payload field name. */
  lemma ComposingAddsTwoFields(k: BotUpdateType)
    ensures var payload := set n | n in Objects.Names(PayloadFields(k));
            var composed := set n | n in ComposedFieldNames(k);
            composed == payload + {"state_peer", "unprepared_ctx_api"} && |composed| == |payload| + 2
  {
    MixinDisjoint(k);
    assert "state_peer" in MixinNames && "unprepared_ctx_api" in MixinNames;
    AppendingMixin(Objects.Names(PayloadFields(k)));
  }

  /** Appending the two mixin names to names that hold neither adds two
      elements to the set of names. */
  lemma AppendingMixin(ns: seq<string>)
    requires "state_peer" !in ns && "unprepared_ctx_api" !in ns
    ensures var before := set n | n in ns;
            var after := set n | n in ns + MixinNames;
            after == before + {"state_peer", "unprepared_ctx_api"} && |after| == |before| + 2
  {
    var before := set n | n in ns;
    var mixin := {"state_peer", "unprepared_ctx_api"};
    assert (set n | n in ns + MixinNames) == before + mixin;
    assert before * mixin == {};
    assert |mixin| == 2;
  }

  /** The mixin shadows nothing: reading a payload field of a composed
      instance yields the wire value of that field read into its declared
      shape. Here `i` is the first field of its name. */
  lemma PayloadFieldsReadThrough<S, A>(k: BotUpdateType, o: Entries, sp: Option<S>, api: Option<A>, i: int)
    requires 0 <= i < |PayloadFields(k)|
    requires forall j | 0 <= j < i :: Objects.Name(PayloadFields(k)[j]) != Objects.Name(PayloadFields(k)[i])
    ensures GetAttr(Compose(k, o, sp, api), Objects.Name(PayloadFields(k)[i]))
         == Some(FieldValue(Objects.Decode(Objects.Fields, Objects.ShapeOf(PayloadFields(k)[i]),
                                           Objects.WireValue(o, PayloadFields(k)[i]))))
  {
    var fs := PayloadFields(k);
    MixinDisjoint(k);
    assert Objects.Names(fs)[i] == Objects.Name(fs[i]);
    assert MixinNames[0] in MixinNames && MixinNames[1] in MixinNames;
    ReadThrough(Objects.Fields, k, fs, o, sp, api, i);
  }

  /** `PayloadFieldsReadThrough` for a field whose name is no mixin name. */
  lemma ReadThrough<S, A>(schema: Objects.Schema, k: BotUpdateType, fs: seq<Objects.FieldDecl>, o: Entries,
                          sp: Option<S>, api: Option<A>, i: int)
    requires 0 <= i < |fs|
    requires forall j | 0 <= j < i :: Objects.Name(fs[j]) != Objects.Name(fs[i])
    requires Objects.Name(fs[i]) != "state_peer" && Objects.Name(fs[i]) != "unprepared_ctx_api"
    requires Objects.Name(fs[i]) != "ctx_api"
    ensures GetAttr(TypedUpdate(k, Objects.FromWire(schema, fs, o), sp, api), Objects.Name(fs[i]))
         == Some(FieldValue(Objects.Decode(schema, Objects.ShapeOf(fs[i]), Objects.WireValue(o, fs[i]))))
  {
    FirstFieldRead(schema, fs, o, i);
  }

  /** Decoding stores the first field of a name under that name. */
  lemma FirstFieldRead(schema: Objects.Schema, fs: seq<Objects.FieldDecl>, o: Entries, i: int)
    requires 0 <= i < |fs|
    requires forall j | 0 <= j < i :: Objects.Name(fs[j]) != Objects.Name(fs[i])
    ensures Lookup(Objects.FromWire(schema, fs, o), Objects.Name(fs[i]))
         == Some(Objects.Decode(schema, Objects.ShapeOf(fs[i]), Objects.WireValue(o, fs[i])))
  {
    var r := Objects.FromWire(schema, fs, o);
    assert KeysOf(r)[i] == Objects.Names(fs)[i];
    forall j | 0 <= j < i ensures r[j].0 != r[i].0 {
      assert KeysOf(r)[j] == r[j].0;
    }
    Objects.FromWireValues(schema, fs, o);
    LookupFirst(r, i);
  }
}
