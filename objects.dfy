/** The object classes of `telefone_types/objects/types.py`, as data, and
    what reading an object off the wire and serialising it again does.

    Every class there is a pydantic model whose body only declares fields,
    each optional with default `None`. Here each class is a constructor of
    `ClassName`, and `Fields` lists its declared fields in order. A field
    whose type names another class refers to it through `ClassName`, so
    every forward reference of the source resolves by construction. */
module Objects {
  import opened Values
  import opened Convert

  /** The scalar field types. Floats are opaque values here. */
  datatype Scalar = IntT | StrT | BoolT | FloatT

  /** The declared type of a field, inside its `Optional[...]`. */
  datatype Shape =
    | Prim(t: Scalar)
    | Obj(cls: ClassName)
    | ListOf(elem: Shape)
    | OneOf(alts: seq<Shape>)

  /** A field declaration: `name: Optional[shape] = Field(default=None)`,
      or the sender field `from_: Optional["User"] = Field(default=None,
      alias="from")`. The sender field is the only one in the schema with
      an alias: `from` is a Python keyword and cannot name a field. */
  datatype FieldDecl =
    | Plain(name: string, shape: Shape)
    | Sender

  /** The attribute name of a field, which is also its key in `.dict()`. */
  function Name(f: FieldDecl): string {
    match f
    case Plain(n, _) => n
    case Sender => "from_"
  }

  /** The key a field is read from on the wire: its alias, else its name.
      The classes set no option that would also accept the field name. */
  function WireKey(f: FieldDecl): (k: string)
    ensures k == Name(f) <==> f.Plain?
  {
    match f
    case Plain(n, _) => n
    case Sender => "from"
  }

  /** A field is read from the wire under its own name, except the sender
      field, which is read from `from`. */
  lemma WireKeyIsName(f: FieldDecl)
    ensures WireKey(f) == Name(f) <==> f.Plain?
    ensures f == Sender ==> WireKey(f) == "from" && Name(f) == "from_"
  {
  }

  function ShapeOf(f: FieldDecl): Shape {
    match f
    case Plain(_, s) => s
    case Sender => Obj(User)
  }

  datatype ClassName =
    | Error
    | Update
    | WebhookInfo
    | User
    | Chat
    | Message
    | MessageId
    | MessageEntity
    | PhotoSize
    | Animation
    | Audio
    | Document
    | Video
    | VideoNote
    | Voice
    | Contact
    | Dice
    | PollOption
    | PollAnswer
    | Poll
    | Location
    | Venue
    | WebAppData
    | ProximityAlertTriggered
    | MessageAutoDeleteTimerChanged
    | VideoChatScheduled
    | VideoChatStarted
    | VideoChatEnded
    | VideoChatParticipantsInvited
    | UserProfilePhotos
    | File
    | WebAppInfo
    | ReplyKeyboardMarkup
    | KeyboardButton
    | KeyboardButtonPollType
    | ReplyKeyboardRemove
    | InlineKeyboardMarkup
    | InlineKeyboardButton
    | LoginUrl
    | CallbackQuery
    | ForceReply
    | ChatPhoto
    | ChatInviteLink
    | ChatAdministratorRights
    | ChatMember
    | ChatMemberOwner
    | ChatMemberAdministrator
    | ChatMemberMember
    | ChatMemberRestricted
    | ChatMemberLeft
    | ChatMemberBanned
    | ChatMemberUpdated
    | ChatJoinRequest
    | ChatPermissions
    | ChatLocation
    | BotCommand
    | BotCommandScope
    | BotCommandScopeDefault
    | BotCommandScopeAllPrivateChats
    | BotCommandScopeAllGroupChats
    | BotCommandScopeAllChatAdministrators
    | BotCommandScopeChat
    | BotCommandScopeChatAdministrators
    | BotCommandScopeChatMember
    | MenuButton
    | MenuButtonCommands
    | MenuButtonWebApp
    | MenuButtonDefault
    | ResponseParameters
    | InputMedia
    | InputMediaPhoto
    | InputMediaVideo
    | InputMediaAnimation
    | InputMediaAudio
    | InputMediaDocument
    | InputFile
    | Sticker
    | StickerSet
    | MaskPosition
    | InlineQuery
    | InlineQueryResult
    | InlineQueryResultArticle
    | InlineQueryResultPhoto
    | InlineQueryResultGif
    | InlineQueryResultMpeg4Gif
    | InlineQueryResultVideo
    | InlineQueryResultAudio
    | InlineQueryResultVoice
    | InlineQueryResultDocument
    | InlineQueryResultLocation
    | InlineQueryResultVenue
    | InlineQueryResultContact
    | InlineQueryResultGame
    | InlineQueryResultCachedPhoto
    | InlineQueryResultCachedGif
    | InlineQueryResultCachedMpeg4Gif
    | InlineQueryResultCachedSticker
    | InlineQueryResultCachedDocument
    | InlineQueryResultCachedVideo
    | InlineQueryResultCachedVoice
    | InlineQueryResultCachedAudio
    | InputMessageContent
    | InputTextMessageContent
    | InputLocationMessageContent
    | InputVenueMessageContent
    | InputContactMessageContent
    | InputInvoiceMessageContent
    | ChosenInlineResult
    | SentWebAppMessage
    | LabeledPrice
    | Invoice
    | ShippingAddress
    | OrderInfo
    | ShippingOption
    | SuccessfulPayment
    | ShippingQuery
    | PreCheckoutQuery
    | PassportData
    | PassportFile
    | EncryptedPassportElement
    | EncryptedCredentials
    | PassportElementError
    | PassportElementErrorDataField
    | PassportElementErrorFrontSide
    | PassportElementErrorReverseSide
    | PassportElementErrorSelfie
    | PassportElementErrorFile
    | PassportElementErrorFiles
    | PassportElementErrorTranslationFile
    | PassportElementErrorTranslationFiles
    | PassportElementErrorUnspecified
    | Game
    | CallbackGame
    | GameHighScore

  /** The declared fields of each class, in declaration order. */
  function Fields(c: ClassName): seq<FieldDecl> {
    match c
    case Error => ErrorFields
    case Update => UpdateFields
    case WebhookInfo => WebhookInfoFields
    case User => UserFields
    case Chat => ChatFields
    case Message => MessageFields
    case MessageId => MessageIdFields
    case MessageEntity => MessageEntityFields
    case PhotoSize => PhotoSizeFields
    case Animation => AnimationFields
    case Audio => AudioFields
    case Document => DocumentFields
    case Video => VideoFields
    case VideoNote => VideoNoteFields
    case Voice => VoiceFields
    case Contact => ContactFields
    case Dice => DiceFields
    case PollOption => PollOptionFields
    case PollAnswer => PollAnswerFields
    case Poll => PollFields
    case Location => LocationFields
    case Venue => VenueFields
    case WebAppData => WebAppDataFields
    case ProximityAlertTriggered => ProximityAlertTriggeredFields
    case MessageAutoDeleteTimerChanged => MessageAutoDeleteTimerChangedFields
    case VideoChatScheduled => VideoChatScheduledFields
    case VideoChatStarted => VideoChatStartedFields
    case VideoChatEnded => VideoChatEndedFields
    case VideoChatParticipantsInvited => VideoChatParticipantsInvitedFields
    case UserProfilePhotos => UserProfilePhotosFields
    case File => FileFields
    case WebAppInfo => WebAppInfoFields
    case ReplyKeyboardMarkup => ReplyKeyboardMarkupFields
    case KeyboardButton => KeyboardButtonFields
    case KeyboardButtonPollType => KeyboardButtonPollTypeFields
    case ReplyKeyboardRemove => ReplyKeyboardRemoveFields
    case InlineKeyboardMarkup => InlineKeyboardMarkupFields
    case InlineKeyboardButton => InlineKeyboardButtonFields
    case LoginUrl => LoginUrlFields
    case CallbackQuery => CallbackQueryFields
    case ForceReply => ForceReplyFields
    case ChatPhoto => ChatPhotoFields
    case ChatInviteLink => ChatInviteLinkFields
    case ChatAdministratorRights => ChatAdministratorRightsFields
    case ChatMember => ChatMemberFields
    case ChatMemberOwner => ChatMemberOwnerFields
    case ChatMemberAdministrator => ChatMemberAdministratorFields
    case ChatMemberMember => ChatMemberMemberFields
    case ChatMemberRestricted => ChatMemberRestrictedFields
    case ChatMemberLeft => ChatMemberLeftFields
    case ChatMemberBanned => ChatMemberBannedFields
    case ChatMemberUpdated => ChatMemberUpdatedFields
    case ChatJoinRequest => ChatJoinRequestFields
    case ChatPermissions => ChatPermissionsFields
    case ChatLocation => ChatLocationFields
    case BotCommand => BotCommandFields
    case BotCommandScope => BotCommandScopeFields
    case BotCommandScopeDefault => BotCommandScopeDefaultFields
    case BotCommandScopeAllPrivateChats => BotCommandScopeAllPrivateChatsFields
    case BotCommandScopeAllGroupChats => BotCommandScopeAllGroupChatsFields
    case BotCommandScopeAllChatAdministrators => BotCommandScopeAllChatAdministratorsFields
    case BotCommandScopeChat => BotCommandScopeChatFields
    case BotCommandScopeChatAdministrators => BotCommandScopeChatAdministratorsFields
    case BotCommandScopeChatMember => BotCommandScopeChatMemberFields
    case MenuButton => MenuButtonFields
    case MenuButtonCommands => MenuButtonCommandsFields
    case MenuButtonWebApp => MenuButtonWebAppFields
    case MenuButtonDefault => MenuButtonDefaultFields
    case ResponseParameters => ResponseParametersFields
    case InputMedia => InputMediaFields
    case InputMediaPhoto => InputMediaPhotoFields
    case InputMediaVideo => InputMediaVideoFields
    case InputMediaAnimation => InputMediaAnimationFields
    case InputMediaAudio => InputMediaAudioFields
    case InputMediaDocument => InputMediaDocumentFields
    case InputFile => InputFileFields
    case Sticker => StickerFields
    case StickerSet => StickerSetFields
    case MaskPosition => MaskPositionFields
    case InlineQuery => InlineQueryFields
    case InlineQueryResult => InlineQueryResultFields
    case InlineQueryResultArticle => InlineQueryResultArticleFields
    case InlineQueryResultPhoto => InlineQueryResultPhotoFields
    case InlineQueryResultGif => InlineQueryResultGifFields
    case InlineQueryResultMpeg4Gif => InlineQueryResultMpeg4GifFields
    case InlineQueryResultVideo => InlineQueryResultVideoFields
    case InlineQueryResultAudio => InlineQueryResultAudioFields
    case InlineQueryResultVoice => InlineQueryResultVoiceFields
    case InlineQueryResultDocument => InlineQueryResultDocumentFields
    case InlineQueryResultLocation => InlineQueryResultLocationFields
    case InlineQueryResultVenue => InlineQueryResultVenueFields
    case InlineQueryResultContact => InlineQueryResultContactFields
    case InlineQueryResultGame => InlineQueryResultGameFields
    case InlineQueryResultCachedPhoto => InlineQueryResultCachedPhotoFields
    case InlineQueryResultCachedGif => InlineQueryResultCachedGifFields
    case InlineQueryResultCachedMpeg4Gif => InlineQueryResultCachedMpeg4GifFields
    case InlineQueryResultCachedSticker => InlineQueryResultCachedStickerFields
    case InlineQueryResultCachedDocument => InlineQueryResultCachedDocumentFields
    case InlineQueryResultCachedVideo => InlineQueryResultCachedVideoFields
    case InlineQueryResultCachedVoice => InlineQueryResultCachedVoiceFields
    case InlineQueryResultCachedAudio => InlineQueryResultCachedAudioFields
    case InputMessageContent => InputMessageContentFields
    case InputTextMessageContent => InputTextMessageContentFields
    case InputLocationMessageContent => InputLocationMessageContentFields
    case InputVenueMessageContent => InputVenueMessageContentFields
    case InputContactMessageContent => InputContactMessageContentFields
    case InputInvoiceMessageContent => InputInvoiceMessageContentFields
    case ChosenInlineResult => ChosenInlineResultFields
    case SentWebAppMessage => SentWebAppMessageFields
    case LabeledPrice => LabeledPriceFields
    case Invoice => InvoiceFields
    case ShippingAddress => ShippingAddressFields
    case OrderInfo => OrderInfoFields
    case ShippingOption => ShippingOptionFields
    case SuccessfulPayment => SuccessfulPaymentFields
    case ShippingQuery => ShippingQueryFields
    case PreCheckoutQuery => PreCheckoutQueryFields
    case PassportData => PassportDataFields
    case PassportFile => PassportFileFields
    case EncryptedPassportElement => EncryptedPassportElementFields
    case EncryptedCredentials => EncryptedCredentialsFields
    case PassportElementError => PassportElementErrorFields
    case PassportElementErrorDataField => PassportElementErrorDataFieldFields
    case PassportElementErrorFrontSide => PassportElementErrorFrontSideFields
    case PassportElementErrorReverseSide => PassportElementErrorReverseSideFields
    case PassportElementErrorSelfie => PassportElementErrorSelfieFields
    case PassportElementErrorFile => PassportElementErrorFileFields
    case PassportElementErrorFiles => PassportElementErrorFilesFields
    case PassportElementErrorTranslationFile => PassportElementErrorTranslationFileFields
    case PassportElementErrorTranslationFiles => PassportElementErrorTranslationFilesFields
    case PassportElementErrorUnspecified => PassportElementErrorUnspecifiedFields
    case Game => GameFields
    case CallbackGame => CallbackGameFields
    case GameHighScore => GameHighScoreFields
  }

  /** `Error`, telefone_types/objects/types.py:7 */
  const ErrorFields: seq<FieldDecl> :=
    [
      Plain("ok", Prim(BoolT)),
      Plain("error_code", Prim(IntT)),
      Plain("description", Prim(StrT)),
      Plain("parameters", Obj(ResponseParameters))
    ]

  /** `Update`, telefone_types/objects/types.py:14 */
  const UpdateFields: seq<FieldDecl> :=
    [
      Plain("update_id", Prim(IntT)),
      Plain("message", Obj(Message)),
      Plain("edited_message", Obj(Message)),
      Plain("channel_post", Obj(Message)),
      Plain("edited_channel_post", Obj(Message)),
      Plain("inline_query", Obj(InlineQuery)),
      Plain("chosen_inline_result", Obj(ChosenInlineResult)),
      Plain("callback_query", Obj(CallbackQuery)),
      Plain("shipping_query", Obj(ShippingQuery)),
      Plain("pre_checkout_query", Obj(PreCheckoutQuery))
    ] +
    [
      Plain("poll", Obj(Poll)),
      Plain("poll_answer", Obj(PollAnswer)),
      Plain("my_chat_member", Obj(ChatMemberUpdated)),
      Plain("chat_member", Obj(ChatMemberUpdated)),
      Plain("chat_join_request", Obj(ChatJoinRequest))
    ]

  /** `WebhookInfo`, telefone_types/objects/types.py:32 */
  const WebhookInfoFields: seq<FieldDecl> :=
    [
      Plain("url", Prim(StrT)),
      Plain("has_custom_certificate", Prim(BoolT)),
      Plain("pending_update_count", Prim(IntT)),
      Plain("ip_address", Prim(StrT)),
      Plain("last_error_date", Prim(IntT)),
      Plain("last_error_message", Prim(StrT)),
      Plain("last_synchronization_error_date", Prim(IntT)),
      Plain("max_connections", Prim(IntT)),
      Plain("allowed_updates", ListOf(Prim(StrT)))
    ]

  /** `User`, telefone_types/objects/types.py:44 */
  const UserFields: seq<FieldDecl> :=
    [
      Plain("id", Prim(IntT)),
      Plain("is_bot", Prim(BoolT)),
      Plain("first_name", Prim(StrT)),
      Plain("last_name", Prim(StrT)),
      Plain("username", Prim(StrT)),
      Plain("language_code", Prim(StrT)),
      Plain("can_join_groups", Prim(BoolT)),
      Plain("can_read_all_group_messages", Prim(BoolT)),
      Plain("supports_inline_queries", Prim(BoolT))
    ]

  /** `Chat`, telefone_types/objects/types.py:56 */
  const ChatFields: seq<FieldDecl> :=
    [
      Plain("id", Prim(IntT)),
      Plain("type", Prim(StrT)),
      Plain("title", Prim(StrT)),
      Plain("username", Prim(StrT)),
      Plain("first_name", Prim(StrT)),
      Plain("last_name", Prim(StrT)),
      Plain("photo", Obj(ChatPhoto)),
      Plain("bio", Prim(StrT)),
      Plain("has_private_forwards", Prim(BoolT)),
      Plain("description", Prim(StrT))
    ] +
    [
      Plain("invite_link", Prim(StrT)),
      Plain("pinned_message", Obj(Message)),
      Plain("permissions", Obj(ChatPermissions)),
      Plain("slow_mode_delay", Prim(IntT)),
      Plain("message_auto_delete_time", Prim(IntT)),
      Plain("has_protected_content", Prim(BoolT)),
      Plain("sticker_set_name", Prim(StrT)),
      Plain("can_set_sticker_set", Prim(BoolT)),
      Plain("linked_chat_id", Prim(IntT)),
      Plain("location", Obj(ChatLocation))
    ]

  /** `Message`, telefone_types/objects/types.py:79 */
  const MessageFields: seq<FieldDecl> :=
    [
      Plain("message_id", Prim(IntT)),
      Sender,
      Plain("sender_chat", Obj(Chat)),
      Plain("date", Prim(IntT)),
      Plain("chat", Obj(Chat)),
      Plain("forward_from", Obj(User)),
      Plain("forward_from_chat", Obj(Chat)),
      Plain("forward_from_message_id", Prim(IntT)),
      Plain("forward_signature", Prim(StrT)),
      Plain("forward_sender_name", Prim(StrT))
    ] +
    [
      Plain("forward_date", Prim(IntT)),
      Plain("is_automatic_forward", Prim(BoolT)),
      Plain("reply_to_message", Obj(Message)),
      Plain("via_bot", Obj(User)),
      Plain("edit_date", Prim(IntT)),
      Plain("has_protected_content", Prim(BoolT)),
      Plain("media_group_id", Prim(StrT)),
      Plain("author_signature", Prim(StrT)),
      Plain("text", Prim(StrT)),
      Plain("entities", ListOf(Obj(MessageEntity)))
    ] +
    [
      Plain("animation", Obj(Animation)),
      Plain("audio", Obj(Audio)),
      Plain("document", Obj(Document)),
      Plain("photo", ListOf(Obj(PhotoSize))),
      Plain("sticker", Obj(Sticker)),
      Plain("video", Obj(Video)),
      Plain("video_note", Obj(VideoNote)),
      Plain("voice", Obj(Voice)),
      Plain("caption", Prim(StrT)),
      Plain("caption_entities", ListOf(Obj(MessageEntity)))
    ] +
    [
      Plain("contact", Obj(Contact)),
      Plain("dice", Obj(Dice)),
      Plain("game", Obj(Game)),
      Plain("poll", Obj(Poll)),
      Plain("venue", Obj(Venue)),
      Plain("location", Obj(Location)),
      Plain("new_chat_members", ListOf(Obj(User))),
      Plain("left_chat_member", Obj(User)),
      Plain("new_chat_title", Prim(StrT)),
      Plain("new_chat_photo", ListOf(Obj(PhotoSize)))
    ] +
    [
      Plain("delete_chat_photo", Prim(BoolT)),
      Plain("group_chat_created", Prim(BoolT)),
      Plain("supergroup_chat_created", Prim(BoolT)),
      Plain("channel_chat_created", Prim(BoolT)),
      Plain("message_auto_delete_timer_changed", Obj(MessageAutoDeleteTimerChanged)),
      Plain("migrate_to_chat_id", Prim(IntT)),
      Plain("migrate_from_chat_id", Prim(IntT)),
      Plain("pinned_message", Obj(Message)),
      Plain("invoice", Obj(Invoice)),
      Plain("successful_payment", Obj(SuccessfulPayment))
    ] +
    [
      Plain("connected_website", Prim(StrT)),
      Plain("passport_data", Obj(PassportData)),
      Plain("proximity_alert_triggered", Obj(ProximityAlertTriggered)),
      Plain("video_chat_scheduled", Obj(VideoChatScheduled)),
      Plain("video_chat_started", Obj(VideoChatStarted)),
      Plain("video_chat_ended", Obj(VideoChatEnded)),
      Plain("video_chat_participants_invited", Obj(VideoChatParticipantsInvited)),
      Plain("web_app_data", Obj(WebAppData)),
      Plain("reply_markup", Obj(InlineKeyboardMarkup))
    ]

  /** `MessageId`, telefone_types/objects/types.py:149 */
  const MessageIdFields: seq<FieldDecl> :=
    [
      Plain("message_id", Prim(IntT))
    ]

  /** `MessageEntity`, telefone_types/objects/types.py:153 */
  const MessageEntityFields: seq<FieldDecl> :=
    [
      Plain("type", Prim(StrT)),
      Plain("offset", Prim(IntT)),
      Plain("length", Prim(IntT)),
      Plain("url", Prim(StrT)),
      Plain("user", Obj(User)),
      Plain("language", Prim(StrT))
    ]

  /** `PhotoSize`, telefone_types/objects/types.py:162 */
  const PhotoSizeFields: seq<FieldDecl> :=
    [
      Plain("file_id", Prim(StrT)),
      Plain("file_unique_id", Prim(StrT)),
      Plain("width", Prim(IntT)),
      Plain("height", Prim(IntT)),
      Plain("file_size", Prim(IntT))
    ]

  /** `Animation`, telefone_types/objects/types.py:170 */
  const AnimationFields: seq<FieldDecl> :=
    [
      Plain("file_id", Prim(StrT)),
      Plain("file_unique_id", Prim(StrT)),
      Plain("width", Prim(IntT)),
      Plain("height", Prim(IntT)),
      Plain("duration", Prim(IntT)),
      Plain("thumb", Obj(PhotoSize)),
      Plain("file_name", Prim(StrT)),
      Plain("mime_type", Prim(StrT)),
      Plain("file_size", Prim(IntT))
    ]

  /** `Audio`, telefone_types/objects/types.py:182 */
  const AudioFields: seq<FieldDecl> :=
    [
      Plain("file_id", Prim(StrT)),
      Plain("file_unique_id", Prim(StrT)),
      Plain("duration", Prim(IntT)),
      Plain("performer", Prim(StrT)),
      Plain("title", Prim(StrT)),
      Plain("file_name", Prim(StrT)),
      Plain("mime_type", Prim(StrT)),
      Plain("file_size", Prim(IntT)),
      Plain("thumb", Obj(PhotoSize))
    ]

  /** `Document`, telefone_types/objects/types.py:194 */
  const DocumentFields: seq<FieldDecl> :=
    [
      Plain("file_id", Prim(StrT)),
      Plain("file_unique_id", Prim(StrT)),
      Plain("thumb", Obj(PhotoSize)),
      Plain("file_name", Prim(StrT)),
      Plain("mime_type", Prim(StrT)),
      Plain("file_size", Prim(IntT))
    ]

  /** `Video`, telefone_types/objects/types.py:203 */
  const VideoFields: seq<FieldDecl> :=
    [
      Plain("file_id", Prim(StrT)),
      Plain("file_unique_id", Prim(StrT)),
      Plain("width", Prim(IntT)),
      Plain("height", Prim(IntT)),
      Plain("duration", Prim(IntT)),
      Plain("thumb", Obj(PhotoSize)),
      Plain("file_name", Prim(StrT)),
      Plain("mime_type", Prim(StrT)),
      Plain("file_size", Prim(IntT))
    ]

  /** `VideoNote`, telefone_types/objects/types.py:215 */
  const VideoNoteFields: seq<FieldDecl> :=
    [
      Plain("file_id", Prim(StrT)),
      Plain("file_unique_id", Prim(StrT)),
      Plain("length", Prim(IntT)),
      Plain("duration", Prim(IntT)),
      Plain("thumb", Obj(PhotoSize)),
      Plain("file_size", Prim(IntT))
    ]

  /** `Voice`, telefone_types/objects/types.py:224 */
  const VoiceFields: seq<FieldDecl> :=
    [
      Plain("file_id", Prim(StrT)),
      Plain("file_unique_id", Prim(StrT)),
      Plain("duration", Prim(IntT)),
      Plain("mime_type", Prim(StrT)),
      Plain("file_size", Prim(IntT))
    ]

  /** `Contact`, telefone_types/objects/types.py:232 */
  const ContactFields: seq<FieldDecl> :=
    [
      Plain("phone_number", Prim(StrT)),
      Plain("first_name", Prim(StrT)),
      Plain("last_name", Prim(StrT)),
      Plain("user_id", Prim(IntT)),
      Plain("vcard", Prim(StrT))
    ]

  /** `Dice`, telefone_types/objects/types.py:240 */
  const DiceFields: seq<FieldDecl> :=
    [
      Plain("emoji", Prim(StrT)),
      Plain("value", Prim(IntT))
    ]

  /** `PollOption`, telefone_types/objects/types.py:245 */
  const PollOptionFields: seq<FieldDecl> :=
    [
      Plain("text", Prim(StrT)),
      Plain("voter_count", Prim(IntT))
    ]

  /** `PollAnswer`, telefone_types/objects/types.py:250 */
  const PollAnswerFields: seq<FieldDecl> :=
    [
      Plain("poll_id", Prim(StrT)),
      Plain("user", Obj(User)),
      Plain("option_ids", ListOf(Prim(IntT)))
    ]

  /** `Poll`, telefone_types/objects/types.py:256 */
  const PollFields: seq<FieldDecl> :=
    [
      Plain("id", Prim(StrT)),
      Plain("question", Prim(StrT)),
      Plain("options", ListOf(Obj(PollOption))),
      Plain("total_voter_count", Prim(IntT)),
      Plain("is_closed", Prim(BoolT)),
      Plain("is_anonymous", Prim(BoolT)),
      Plain("type", Prim(StrT)),
      Plain("allows_multiple_answers", Prim(BoolT)),
      Plain("correct_option_id", Prim(IntT)),
      Plain("explanation", Prim(StrT))
    ] +
    [
      Plain("explanation_entities", ListOf(Obj(MessageEntity))),
      Plain("open_period", Prim(IntT)),
      Plain("close_date", Prim(IntT))
    ]

  /** `Location`, telefone_types/objects/types.py:274 */
  const LocationFields: seq<FieldDecl> :=
    [
      Plain("longitude", Prim(FloatT)),
      Plain("latitude", Prim(FloatT)),
      Plain("horizontal_accuracy", Prim(FloatT)),
      Plain("live_period", Prim(IntT)),
      Plain("heading", Prim(IntT)),
      Plain("proximity_alert_radius", Prim(IntT))
    ]

  /** `Venue`, telefone_types/objects/types.py:283 */
  const VenueFields: seq<FieldDecl> :=
    [
      Plain("location", Obj(Location)),
      Plain("title", Prim(StrT)),
      Plain("address", Prim(StrT)),
      Plain("foursquare_id", Prim(StrT)),
      Plain("foursquare_type", Prim(StrT)),
      Plain("google_place_id", Prim(StrT)),
      Plain("google_place_type", Prim(StrT))
    ]

  /** `WebAppData`, telefone_types/objects/types.py:293 */
  const WebAppDataFields: seq<FieldDecl> :=
    [
      Plain("data", Prim(StrT)),
      Plain("button_text", Prim(StrT))
    ]

  /** `ProximityAlertTriggered`, telefone_types/objects/types.py:298 */
  const ProximityAlertTriggeredFields: seq<FieldDecl> :=
    [
      Plain("traveler", Obj(User)),
      Plain("watcher", Obj(User)),
      Plain("distance", Prim(IntT))
    ]

  /** `MessageAutoDeleteTimerChanged`, telefone_types/objects/types.py:304 */
  const MessageAutoDeleteTimerChangedFields: seq<FieldDecl> :=
    [
      Plain("message_auto_delete_time", Prim(IntT))
    ]

  /** `VideoChatScheduled`, telefone_types/objects/types.py:308 */
  const VideoChatScheduledFields: seq<FieldDecl> :=
    [
      Plain("start_date", Prim(IntT))
    ]

  /** `VideoChatStarted`, telefone_types/objects/types.py:312 */
  const VideoChatStartedFields: seq<FieldDecl> := []

  /** `VideoChatEnded`, telefone_types/objects/types.py:316 */
  const VideoChatEndedFields: seq<FieldDecl> :=
    [
      Plain("duration", Prim(IntT))
    ]

  /** `VideoChatParticipantsInvited`, telefone_types/objects/types.py:320 */
  const VideoChatParticipantsInvitedFields: seq<FieldDecl> :=
    [
      Plain("users", ListOf(Obj(User)))
    ]

  /** `UserProfilePhotos`, telefone_types/objects/types.py:324 */
  const UserProfilePhotosFields: seq<FieldDecl> :=
    [
      Plain("total_count", Prim(IntT)),
      Plain("photos", ListOf(ListOf(Obj(PhotoSize))))
    ]

  /** `File`, telefone_types/objects/types.py:329 */
  const FileFields: seq<FieldDecl> :=
    [
      Plain("file_id", Prim(StrT)),
      Plain("file_unique_id", Prim(StrT)),
      Plain("file_size", Prim(IntT)),
      Plain("file_path", Prim(StrT))
    ]

  /** `WebAppInfo`, telefone_types/objects/types.py:336 */
  const WebAppInfoFields: seq<FieldDecl> :=
    [
      Plain("url", Prim(StrT))
    ]

  /** `ReplyKeyboardMarkup`, telefone_types/objects/types.py:340 */
  const ReplyKeyboardMarkupFields: seq<FieldDecl> :=
    [
      Plain("keyboard", ListOf(ListOf(Obj(KeyboardButton)))),
      Plain("resize_keyboard", Prim(BoolT)),
      Plain("one_time_keyboard", Prim(BoolT)),
      Plain("input_field_placeholder", Prim(StrT)),
      Plain("selective", Prim(BoolT))
    ]

  /** `KeyboardButton`, telefone_types/objects/types.py:350 */
  const KeyboardButtonFields: seq<FieldDecl> :=
    [
      Plain("text", Prim(StrT)),
      Plain("request_contact", Prim(BoolT)),
      Plain("request_location", Prim(BoolT)),
      Plain("request_poll", Obj(KeyboardButtonPollType)),
      Plain("web_app", Obj(WebAppInfo))
    ]

  /** `KeyboardButtonPollType`, telefone_types/objects/types.py:358 */
  const KeyboardButtonPollTypeFields: seq<FieldDecl> :=
    [
      Plain("type", Prim(StrT))
    ]

  /** `ReplyKeyboardRemove`, telefone_types/objects/types.py:362 */
  const ReplyKeyboardRemoveFields: seq<FieldDecl> :=
    [
      Plain("remove_keyboard", Prim(BoolT)),
      Plain("selective", Prim(BoolT))
    ]

  /** `InlineKeyboardMarkup`, telefone_types/objects/types.py:367 */
  const InlineKeyboardMarkupFields: seq<FieldDecl> :=
    [
      Plain("inline_keyboard", ListOf(ListOf(Obj(InlineKeyboardButton))))
    ]

  /** `InlineKeyboardButton`, telefone_types/objects/types.py:373 */
  const InlineKeyboardButtonFields: seq<FieldDecl> :=
    [
      Plain("text", Prim(StrT)),
      Plain("url", Prim(StrT)),
      Plain("callback_data", Prim(StrT)),
      Plain("web_app", Obj(WebAppInfo)),
      Plain("login_url", Obj(LoginUrl)),
      Plain("switch_inline_query", Prim(StrT)),
      Plain("switch_inline_query_current_chat", Prim(StrT)),
      Plain("callback_game", Obj(CallbackGame)),
      Plain("pay", Prim(BoolT))
    ]

  /** `LoginUrl`, telefone_types/objects/types.py:385 */
  const LoginUrlFields: seq<FieldDecl> :=
    [
      Plain("url", Prim(StrT)),
      Plain("forward_text", Prim(StrT)),
      Plain("bot_username", Prim(StrT)),
      Plain("request_write_access", Prim(BoolT))
    ]

  /** `CallbackQuery`, telefone_types/objects/types.py:392 */
  const CallbackQueryFields: seq<FieldDecl> :=
    [
      Plain("id", Prim(StrT)),
      Sender,
      Plain("message", Obj(Message)),
      Plain("inline_message_id", Prim(StrT)),
      Plain("chat_instance", Prim(StrT)),
      Plain("data", Prim(StrT)),
      Plain("game_short_name", Prim(StrT))
    ]

  /** `ForceReply`, telefone_types/objects/types.py:402 */
  const ForceReplyFields: seq<FieldDecl> :=
    [
      Plain("force_reply", Prim(BoolT)),
      Plain("input_field_placeholder", Prim(StrT)),
      Plain("selective", Prim(BoolT))
    ]

  /** `ChatPhoto`, telefone_types/objects/types.py:408 */
  const ChatPhotoFields: seq<FieldDecl> :=
    [
      Plain("small_file_id", Prim(StrT)),
      Plain("small_file_unique_id", Prim(StrT)),
      Plain("big_file_id", Prim(StrT)),
      Plain("big_file_unique_id", Prim(StrT))
    ]

  /** `ChatInviteLink`, telefone_types/objects/types.py:415 */
  const ChatInviteLinkFields: seq<FieldDecl> :=
    [
      Plain("invite_link", Prim(StrT)),
      Plain("creator", Obj(User)),
      Plain("creates_join_request", Prim(BoolT)),
      Plain("is_primary", Prim(BoolT)),
      Plain("is_revoked", Prim(BoolT)),
      Plain("name", Prim(StrT)),
      Plain("expire_date", Prim(IntT)),
      Plain("member_limit", Prim(IntT)),
      Plain("pending_join_request_count", Prim(IntT))
    ]

  /** `ChatAdministratorRights`, telefone_types/objects/types.py:427 */
  const ChatAdministratorRightsFields: seq<FieldDecl> :=
    [
      Plain("is_anonymous", Prim(BoolT)),
      Plain("can_manage_chat", Prim(BoolT)),
      Plain("can_delete_messages", Prim(BoolT)),
      Plain("can_manage_video_chats", Prim(BoolT)),
      Plain("can_restrict_members", Prim(BoolT)),
      Plain("can_promote_members", Prim(BoolT)),
      Plain("can_change_info", Prim(BoolT)),
      Plain("can_invite_users", Prim(BoolT)),
      Plain("can_post_messages", Prim(BoolT)),
      Plain("can_edit_messages", Prim(BoolT))
    ] +
    [
      Plain("can_pin_messages", Prim(BoolT))
    ]

  /** `ChatMember`, telefone_types/objects/types.py:441 */
  const ChatMemberFields: seq<FieldDecl> := []

  /** `ChatMemberOwner`, telefone_types/objects/types.py:445 */
  const ChatMemberOwnerFields: seq<FieldDecl> :=
    [
      Plain("status", Prim(StrT)),
      Plain("user", Obj(User)),
      Plain("is_anonymous", Prim(BoolT)),
      Plain("custom_title", Prim(StrT))
    ]

  /** `ChatMemberAdministrator`, telefone_types/objects/types.py:452 */
  const ChatMemberAdministratorFields: seq<FieldDecl> :=
    [
      Plain("status", Prim(StrT)),
      Plain("user", Obj(User)),
      Plain("can_be_edited", Prim(BoolT)),
      Plain("is_anonymous", Prim(BoolT)),
      Plain("can_manage_chat", Prim(BoolT)),
      Plain("can_delete_messages", Prim(BoolT)),
      Plain("can_manage_video_chats", Prim(BoolT)),
      Plain("can_restrict_members", Prim(BoolT)),
      Plain("can_promote_members", Prim(BoolT)),
      Plain("can_change_info", Prim(BoolT))
    ] +
    [
      Plain("can_invite_users", Prim(BoolT)),
      Plain("can_post_messages", Prim(BoolT)),
      Plain("can_edit_messages", Prim(BoolT)),
      Plain("can_pin_messages", Prim(BoolT)),
      Plain("custom_title", Prim(StrT))
    ]

  /** `ChatMemberMember`, telefone_types/objects/types.py:470 */
  const ChatMemberMemberFields: seq<FieldDecl> :=
    [
      Plain("status", Prim(StrT)),
      Plain("user", Obj(User))
    ]

  /** `ChatMemberRestricted`, telefone_types/objects/types.py:475 */
  const ChatMemberRestrictedFields: seq<FieldDecl> :=
    [
      Plain("status", Prim(StrT)),
      Plain("user", Obj(User)),
      Plain("is_member", Prim(BoolT)),
      Plain("can_change_info", Prim(BoolT)),
      Plain("can_invite_users", Prim(BoolT)),
      Plain("can_pin_messages", Prim(BoolT)),
      Plain("can_send_messages", Prim(BoolT)),
      Plain("can_send_media_messages", Prim(BoolT)),
      Plain("can_send_polls", Prim(BoolT)),
      Plain("can_send_other_messages", Prim(BoolT))
    ] +
    [
      Plain("can_add_web_page_previews", Prim(BoolT)),
      Plain("until_date", Prim(IntT))
    ]

  /** `ChatMemberLeft`, telefone_types/objects/types.py:490 */
  const ChatMemberLeftFields: seq<FieldDecl> :=
    [
      Plain("status", Prim(StrT)),
      Plain("user", Obj(User))
    ]

  /** `ChatMemberBanned`, telefone_types/objects/types.py:495 */
  const ChatMemberBannedFields: seq<FieldDecl> :=
    [
      Plain("status", Prim(StrT)),
      Plain("user", Obj(User)),
      Plain("until_date", Prim(IntT))
    ]

  /** `ChatMemberUpdated`, telefone_types/objects/types.py:501 */
  const ChatMemberUpdatedFields: seq<FieldDecl> :=
    [
      Plain("chat", Obj(Chat)),
      Sender,
      Plain("date", Prim(IntT)),
      Plain("old_chat_member", Obj(ChatMember)),
      Plain("new_chat_member", Obj(ChatMember)),
      Plain("invite_link", Obj(ChatInviteLink))
    ]

  /** `ChatJoinRequest`, telefone_types/objects/types.py:510 */
  const ChatJoinRequestFields: seq<FieldDecl> :=
    [
      Plain("chat", Obj(Chat)),
      Sender,
      Plain("date", Prim(IntT)),
      Plain("bio", Prim(StrT)),
      Plain("invite_link", Obj(ChatInviteLink))
    ]

  /** `ChatPermissions`, telefone_types/objects/types.py:518 */
  const ChatPermissionsFields: seq<FieldDecl> :=
    [
      Plain("can_send_messages", Prim(BoolT)),
      Plain("can_send_media_messages", Prim(BoolT)),
      Plain("can_send_polls", Prim(BoolT)),
      Plain("can_send_other_messages", Prim(BoolT)),
      Plain("can_add_web_page_previews", Prim(BoolT)),
      Plain("can_change_info", Prim(BoolT)),
      Plain("can_invite_users", Prim(BoolT)),
      Plain("can_pin_messages", Prim(BoolT))
    ]

  /** `ChatLocation`, telefone_types/objects/types.py:529 */
  const ChatLocationFields: seq<FieldDecl> :=
    [
      Plain("location", Obj(Location)),
      Plain("address", Prim(StrT))
    ]

  /** `BotCommand`, telefone_types/objects/types.py:534 */
  const BotCommandFields: seq<FieldDecl> :=
    [
      Plain("command", Prim(StrT)),
      Plain("description", Prim(StrT))
    ]

  /** `BotCommandScope`, telefone_types/objects/types.py:539 */
  const BotCommandScopeFields: seq<FieldDecl> := []

  /** `BotCommandScopeDefault`, telefone_types/objects/types.py:543 */
  const BotCommandScopeDefaultFields: seq<FieldDecl> :=
    [
      Plain("type", Prim(StrT))
    ]

  /** `BotCommandScopeAllPrivateChats`, telefone_types/objects/types.py:547 */
  const BotCommandScopeAllPrivateChatsFields: seq<FieldDecl> :=
    [
      Plain("type", Prim(StrT))
    ]

  /** `BotCommandScopeAllGroupChats`, telefone_types/objects/types.py:551 */
  const BotCommandScopeAllGroupChatsFields: seq<FieldDecl> :=
    [
      Plain("type", Prim(StrT))
    ]

  /** `BotCommandScopeAllChatAdministrators`, telefone_types/objects/types.py:555 */
  const BotCommandScopeAllChatAdministratorsFields: seq<FieldDecl> :=
    [
      Plain("type", Prim(StrT))
    ]

  /** `BotCommandScopeChat`, telefone_types/objects/types.py:559 */
  const BotCommandScopeChatFields: seq<FieldDecl> :=
    [
      Plain("type", Prim(StrT)),
      Plain("chat_id", OneOf([Prim(IntT), Prim(StrT)]))
    ]

  /** `BotCommandScopeChatAdministrators`, telefone_types/objects/types.py:564 */
  const BotCommandScopeChatAdministratorsFields: seq<FieldDecl> :=
    [
      Plain("type", Prim(StrT)),
      Plain("chat_id", OneOf([Prim(IntT), Prim(StrT)]))
    ]

  /** `BotCommandScopeChatMember`, telefone_types/objects/types.py:569 */
  const BotCommandScopeChatMemberFields: seq<FieldDecl> :=
    [
      Plain("type", Prim(StrT)),
      Plain("chat_id", OneOf([Prim(IntT), Prim(StrT)])),
      Plain("user_id", Prim(IntT))
    ]

  /** `MenuButton`, telefone_types/objects/types.py:575 */
  const MenuButtonFields: seq<FieldDecl> := []

  /** `MenuButtonCommands`, telefone_types/objects/types.py:579 */
  const MenuButtonCommandsFields: seq<FieldDecl> :=
    [
      Plain("type", Prim(StrT))
    ]

  /** `MenuButtonWebApp`, telefone_types/objects/types.py:583 */
  const MenuButtonWebAppFields: seq<FieldDecl> :=
    [
      Plain("type", Prim(StrT)),
      Plain("text", Prim(StrT)),
      Plain("web_app", Obj(WebAppInfo))
    ]

  /** `MenuButtonDefault`, telefone_types/objects/types.py:589 */
  const MenuButtonDefaultFields: seq<FieldDecl> :=
    [
      Plain("type", Prim(StrT))
    ]

  /** `ResponseParameters`, telefone_types/objects/types.py:593 */
  const ResponseParametersFields: seq<FieldDecl> :=
    [
      Plain("migrate_to_chat_id", Prim(IntT)),
      Plain("retry_after", Prim(IntT))
    ]

  /** `InputMedia`, telefone_types/objects/types.py:598 */
  const InputMediaFields: seq<FieldDecl> := []

  /** `InputMediaPhoto`, telefone_types/objects/types.py:602 */
  const InputMediaPhotoFields: seq<FieldDecl> :=
    [
      Plain("type", Prim(StrT)),
      Plain("media", Prim(StrT)),
      Plain("caption", Prim(StrT)),
      Plain("parse_mode", Prim(StrT)),
      Plain("caption_entities", ListOf(Obj(MessageEntity)))
    ]

  /** `InputMediaVideo`, telefone_types/objects/types.py:612 */
  const InputMediaVideoFields: seq<FieldDecl> :=
    [
      Plain("type", Prim(StrT)),
      Plain("media", Prim(StrT)),
      Plain("thumb", OneOf([Obj(InputFile), Prim(StrT)])),
      Plain("caption", Prim(StrT)),
      Plain("parse_mode", Prim(StrT)),
      Plain("caption_entities", ListOf(Obj(MessageEntity))),
      Plain("width", Prim(IntT)),
      Plain("height", Prim(IntT)),
      Plain("duration", Prim(IntT)),
      Plain("supports_streaming", Prim(BoolT))
    ]

  /** `InputMediaAnimation`, telefone_types/objects/types.py:627 */
  const InputMediaAnimationFields: seq<FieldDecl> :=
    [
      Plain("type", Prim(StrT)),
      Plain("media", Prim(StrT)),
      Plain("thumb", OneOf([Obj(InputFile), Prim(StrT)])),
      Plain("caption", Prim(StrT)),
      Plain("parse_mode", Prim(StrT)),
      Plain("caption_entities", ListOf(Obj(MessageEntity))),
      Plain("width", Prim(IntT)),
      Plain("height", Prim(IntT)),
      Plain("duration", Prim(IntT))
    ]

  /** `InputMediaAudio`, telefone_types/objects/types.py:641 */
  const InputMediaAudioFields: seq<FieldDecl> :=
    [
      Plain("type", Prim(StrT)),
      Plain("media", Prim(StrT)),
      Plain("thumb", OneOf([Obj(InputFile), Prim(StrT)])),
      Plain("caption", Prim(StrT)),
      Plain("parse_mode", Prim(StrT)),
      Plain("caption_entities", ListOf(Obj(MessageEntity))),
      Plain("duration", Prim(IntT)),
      Plain("performer", Prim(StrT)),
      Plain("title", Prim(StrT))
    ]

  /** `InputMediaDocument`, telefone_types/objects/types.py:655 */
  const InputMediaDocumentFields: seq<FieldDecl> :=
    [
      Plain("type", Prim(StrT)),
      Plain("media", Prim(StrT)),
      Plain("thumb", OneOf([Obj(InputFile), Prim(StrT)])),
      Plain("caption", Prim(StrT)),
      Plain("parse_mode", Prim(StrT)),
      Plain("caption_entities", ListOf(Obj(MessageEntity))),
      Plain("disable_content_type_detection", Prim(BoolT))
    ]

  /** `InputFile`, telefone_types/objects/types.py:667 */
  const InputFileFields: seq<FieldDecl> := []

  /** `Sticker`, telefone_types/objects/types.py:671 */
  const StickerFields: seq<FieldDecl> :=
    [
      Plain("file_id", Prim(StrT)),
      Plain("file_unique_id", Prim(StrT)),
      Plain("width", Prim(IntT)),
      Plain("height", Prim(IntT)),
      Plain("is_animated", Prim(BoolT)),
      Plain("is_video", Prim(BoolT)),
      Plain("thumb", Obj(PhotoSize)),
      Plain("emoji", Prim(StrT)),
      Plain("set_name", Prim(StrT)),
      Plain("mask_position", Obj(MaskPosition))
    ] +
    [
      Plain("file_size", Prim(IntT))
    ]

  /** `StickerSet`, telefone_types/objects/types.py:685 */
  const StickerSetFields: seq<FieldDecl> :=
    [
      Plain("name", Prim(StrT)),
      Plain("title", Prim(StrT)),
      Plain("is_animated", Prim(BoolT)),
      Plain("is_video", Prim(BoolT)),
      Plain("contains_masks", Prim(BoolT)),
      Plain("stickers", ListOf(Obj(Sticker))),
      Plain("thumb", Obj(PhotoSize))
    ]

  /** `MaskPosition`, telefone_types/objects/types.py:695 */
  const MaskPositionFields: seq<FieldDecl> :=
    [
      Plain("point", Prim(StrT)),
      Plain("x_shift", Prim(FloatT)),
      Plain("y_shift", Prim(FloatT)),
      Plain("scale", Prim(FloatT))
    ]

  /** `InlineQuery`, telefone_types/objects/types.py:702 */
  const InlineQueryFields: seq<FieldDecl> :=
    [
      Plain("id", Prim(StrT)),
      Sender,
      Plain("query", Prim(StrT)),
      Plain("offset", Prim(StrT)),
      Plain("chat_type", Prim(StrT)),
      Plain("location", Obj(Location))
    ]

  /** `InlineQueryResult`, telefone_types/objects/types.py:711 */
  const InlineQueryResultFields: seq<FieldDecl> := []

  /** `InlineQueryResultArticle`, telefone_types/objects/types.py:715 */
  const InlineQueryResultArticleFields: seq<FieldDecl> :=
    [
      Plain("type", Prim(StrT)),
      Plain("id", Prim(StrT)),
      Plain("title", Prim(StrT)),
      Plain("input_message_content", Obj(InputMessageContent)),
      Plain("reply_markup", Obj(InlineKeyboardMarkup)),
      Plain("url", Prim(StrT)),
      Plain("hide_url", Prim(BoolT)),
      Plain("description", Prim(StrT)),
      Plain("thumb_url", Prim(StrT)),
      Plain("thumb_width", Prim(IntT))
    ] +
    [
      Plain("thumb_height", Prim(IntT))
    ]

  /** `InlineQueryResultPhoto`, telefone_types/objects/types.py:729 */
  const InlineQueryResultPhotoFields: seq<FieldDecl> :=
    [
      Plain("type", Prim(StrT)),
      Plain("id", Prim(StrT)),
      Plain("photo_url", Prim(StrT)),
      Plain("thumb_url", Prim(StrT)),
      Plain("photo_width", Prim(IntT)),
      Plain("photo_height", Prim(IntT)),
      Plain("title", Prim(StrT)),
      Plain("description", Prim(StrT)),
      Plain("caption", Prim(StrT)),
      Plain("parse_mode", Prim(StrT))
    ] +
    [
      Plain("caption_entities", ListOf(Obj(MessageEntity))),
      Plain("reply_markup", Obj(InlineKeyboardMarkup)),
      Plain("input_message_content", Obj(InputMessageContent))
    ]

  /** `InlineQueryResultGif`, telefone_types/objects/types.py:747 */
  const InlineQueryResultGifFields: seq<FieldDecl> :=
    [
      Plain("type", Prim(StrT)),
      Plain("id", Prim(StrT)),
      Plain("gif_url", Prim(StrT)),
      Plain("gif_width", Prim(IntT)),
      Plain("gif_height", Prim(IntT)),
      Plain("gif_duration", Prim(IntT)),
      Plain("thumb_url", Prim(StrT)),
      Plain("thumb_mime_type", Prim(StrT)),
      Plain("title", Prim(StrT)),
      Plain("caption", Prim(StrT))
    ] +
    [
      Plain("parse_mode", Prim(StrT)),
      Plain("caption_entities", ListOf(Obj(MessageEntity))),
      Plain("reply_markup", Obj(InlineKeyboardMarkup)),
      Plain("input_message_content", Obj(InputMessageContent))
    ]

  /** `InlineQueryResultMpeg4Gif`, telefone_types/objects/types.py:766 */
  const InlineQueryResultMpeg4GifFields: seq<FieldDecl> :=
    [
      Plain("type", Prim(StrT)),
      Plain("id", Prim(StrT)),
      Plain("mpeg4_url", Prim(StrT)),
      Plain("mpeg4_width", Prim(IntT)),
      Plain("mpeg4_height", Prim(IntT)),
      Plain("mpeg4_duration", Prim(IntT)),
      Plain("thumb_url", Prim(StrT)),
      Plain("thumb_mime_type", Prim(StrT)),
      Plain("title", Prim(StrT)),
      Plain("caption", Prim(StrT))
    ] +
    [
      Plain("parse_mode", Prim(StrT)),
      Plain("caption_entities", ListOf(Obj(MessageEntity))),
      Plain("reply_markup", Obj(InlineKeyboardMarkup)),
      Plain("input_message_content", Obj(InputMessageContent))
    ]

  /** `InlineQueryResultVideo`, telefone_types/objects/types.py:785 */
  const InlineQueryResultVideoFields: seq<FieldDecl> :=
    [
      Plain("type", Prim(StrT)),
      Plain("id", Prim(StrT)),
      Plain("video_url", Prim(StrT)),
      Plain("mime_type", Prim(StrT)),
      Plain("thumb_url", Prim(StrT)),
      Plain("title", Prim(StrT)),
      Plain("caption", Prim(StrT)),
      Plain("parse_mode", Prim(StrT)),
      Plain("caption_entities", ListOf(Obj(MessageEntity))),
      Plain("video_width", Prim(IntT))
    ] +
    [
      Plain("video_height", Prim(IntT)),
      Plain("video_duration", Prim(IntT)),
      Plain("description", Prim(StrT)),
      Plain("reply_markup", Obj(InlineKeyboardMarkup)),
      Plain("input_message_content", Obj(InputMessageContent))
    ]

  /** `InlineQueryResultAudio`, telefone_types/objects/types.py:805 */
  const InlineQueryResultAudioFields: seq<FieldDecl> :=
    [
      Plain("type", Prim(StrT)),
      Plain("id", Prim(StrT)),
      Plain("audio_url", Prim(StrT)),
      Plain("title", Prim(StrT)),
      Plain("caption", Prim(StrT)),
      Plain("parse_mode", Prim(StrT)),
      Plain("caption_entities", ListOf(Obj(MessageEntity))),
      Plain("performer", Prim(StrT)),
      Plain("audio_duration", Prim(IntT)),
      Plain("reply_markup", Obj(InlineKeyboardMarkup))
    ] +
    [
      Plain("input_message_content", Obj(InputMessageContent))
    ]

  /** `InlineQueryResultVoice`, telefone_types/objects/types.py:821 */
  const InlineQueryResultVoiceFields: seq<FieldDecl> :=
    [
      Plain("type", Prim(StrT)),
      Plain("id", Prim(StrT)),
      Plain("voice_url", Prim(StrT)),
      Plain("title", Prim(StrT)),
      Plain("caption", Prim(StrT)),
      Plain("parse_mode", Prim(StrT)),
      Plain("caption_entities", ListOf(Obj(MessageEntity))),
      Plain("voice_duration", Prim(IntT)),
      Plain("reply_markup", Obj(InlineKeyboardMarkup)),
      Plain("input_message_content", Obj(InputMessageContent))
    ]

  /** `InlineQueryResultDocument`, telefone_types/objects/types.py:836 */
  const InlineQueryResultDocumentFields: seq<FieldDecl> :=
    [
      Plain("type", Prim(StrT)),
      Plain("id", Prim(StrT)),
      Plain("title", Prim(StrT)),
      Plain("caption", Prim(StrT)),
      Plain("parse_mode", Prim(StrT)),
      Plain("caption_entities", ListOf(Obj(MessageEntity))),
      Plain("document_url", Prim(StrT)),
      Plain("mime_type", Prim(StrT)),
      Plain("description", Prim(StrT)),
      Plain("reply_markup", Obj(InlineKeyboardMarkup))
    ] +
    [
      Plain("input_message_content", Obj(InputMessageContent)),
      Plain("thumb_url", Prim(StrT)),
      Plain("thumb_width", Prim(IntT)),
      Plain("thumb_height", Prim(IntT))
    ]

  /** `InlineQueryResultLocation`, telefone_types/objects/types.py:855 */
  const InlineQueryResultLocationFields: seq<FieldDecl> :=
    [
      Plain("type", Prim(StrT)),
      Plain("id", Prim(StrT)),
      Plain("latitude", Prim(FloatT)),
      Plain("longitude", Prim(FloatT)),
      Plain("title", Prim(StrT)),
      Plain("horizontal_accuracy", Prim(FloatT)),
      Plain("live_period", Prim(IntT)),
      Plain("heading", Prim(IntT)),
      Plain("proximity_alert_radius", Prim(IntT)),
      Plain("reply_markup", Obj(InlineKeyboardMarkup))
    ] +
    [
      Plain("input_message_content", Obj(InputMessageContent)),
      Plain("thumb_url", Prim(StrT)),
      Plain("thumb_width", Prim(IntT)),
      Plain("thumb_height", Prim(IntT))
    ]

  /** `InlineQueryResultVenue`, telefone_types/objects/types.py:872 */
  const InlineQueryResultVenueFields: seq<FieldDecl> :=
    [
      Plain("type", Prim(StrT)),
      Plain("id", Prim(StrT)),
      Plain("latitude", Prim(FloatT)),
      Plain("longitude", Prim(FloatT)),
      Plain("title", Prim(StrT)),
      Plain("address", Prim(StrT)),
      Plain("foursquare_id", Prim(StrT)),
      Plain("foursquare_type", Prim(StrT)),
      Plain("google_place_id", Prim(StrT)),
      Plain("google_place_type", Prim(StrT))
    ] +
    [
      Plain("reply_markup", Obj(InlineKeyboardMarkup)),
      Plain("input_message_content", Obj(InputMessageContent)),
      Plain("thumb_url", Prim(StrT)),
      Plain("thumb_width", Prim(IntT)),
      Plain("thumb_height", Prim(IntT))
    ]

  /** `InlineQueryResultContact`, telefone_types/objects/types.py:890 */
  const InlineQueryResultContactFields: seq<FieldDecl> :=
    [
      Plain("type", Prim(StrT)),
      Plain("id", Prim(StrT)),
      Plain("phone_number", Prim(StrT)),
      Plain("first_name", Prim(StrT)),
      Plain("last_name", Prim(StrT)),
      Plain("vcard", Prim(StrT)),
      Plain("reply_markup", Obj(InlineKeyboardMarkup)),
      Plain("input_message_content", Obj(InputMessageContent)),
      Plain("thumb_url", Prim(StrT)),
      Plain("thumb_width", Prim(IntT))
    ] +
    [
      Plain("thumb_height", Prim(IntT))
    ]

  /** `InlineQueryResultGame`, telefone_types/objects/types.py:904 */
  const InlineQueryResultGameFields: seq<FieldDecl> :=
    [
      Plain("type", Prim(StrT)),
      Plain("id", Prim(StrT)),
      Plain("game_short_name", Prim(StrT)),
      Plain("reply_markup", Obj(InlineKeyboardMarkup))
    ]

  /** `InlineQueryResultCachedPhoto`, telefone_types/objects/types.py:911 */
  const InlineQueryResultCachedPhotoFields: seq<FieldDecl> :=
    [
      Plain("type", Prim(StrT)),
      Plain("id", Prim(StrT)),
      Plain("photo_file_id", Prim(StrT)),
      Plain("title", Prim(StrT)),
      Plain("description", Prim(StrT)),
      Plain("caption", Prim(StrT)),
      Plain("parse_mode", Prim(StrT)),
      Plain("caption_entities", ListOf(Obj(MessageEntity))),
      Plain("reply_markup", Obj(InlineKeyboardMarkup)),
      Plain("input_message_content", Obj(InputMessageContent))
    ]

  /** `InlineQueryResultCachedGif`, telefone_types/objects/types.py:926 */
  const InlineQueryResultCachedGifFields: seq<FieldDecl> :=
    [
      Plain("type", Prim(StrT)),
      Plain("id", Prim(StrT)),
      Plain("gif_file_id", Prim(StrT)),
      Plain("title", Prim(StrT)),
      Plain("caption", Prim(StrT)),
      Plain("parse_mode", Prim(StrT)),
      Plain("caption_entities", ListOf(Obj(MessageEntity))),
      Plain("reply_markup", Obj(InlineKeyboardMarkup)),
      Plain("input_message_content", Obj(InputMessageContent))
    ]

  /** `InlineQueryResultCachedMpeg4Gif`, telefone_types/objects/types.py:940 */
  const InlineQueryResultCachedMpeg4GifFields: seq<FieldDecl> :=
    [
      Plain("type", Prim(StrT)),
      Plain("id", Prim(StrT)),
      Plain("mpeg4_file_id", Prim(StrT)),
      Plain("title", Prim(StrT)),
      Plain("caption", Prim(StrT)),
      Plain("parse_mode", Prim(StrT)),
      Plain("caption_entities", ListOf(Obj(MessageEntity))),
      Plain("reply_markup", Obj(InlineKeyboardMarkup)),
      Plain("input_message_content", Obj(InputMessageContent))
    ]

  /** `InlineQueryResultCachedSticker`, telefone_types/objects/types.py:954 */
  const InlineQueryResultCachedStickerFields: seq<FieldDecl> :=
    [
      Plain("type", Prim(StrT)),
      Plain("id", Prim(StrT)),
      Plain("sticker_file_id", Prim(StrT)),
      Plain("reply_markup", Obj(InlineKeyboardMarkup)),
      Plain("input_message_content", Obj(InputMessageContent))
    ]

  /** `InlineQueryResultCachedDocument`, telefone_types/objects/types.py:962 */
  const InlineQueryResultCachedDocumentFields: seq<FieldDecl> :=
    [
      Plain("type", Prim(StrT)),
      Plain("id", Prim(StrT)),
      Plain("title", Prim(StrT)),
      Plain("document_file_id", Prim(StrT)),
      Plain("description", Prim(StrT)),
      Plain("caption", Prim(StrT)),
      Plain("parse_mode", Prim(StrT)),
      Plain("caption_entities", ListOf(Obj(MessageEntity))),
      Plain("reply_markup", Obj(InlineKeyboardMarkup)),
      Plain("input_message_content", Obj(InputMessageContent))
    ]

  /** `InlineQueryResultCachedVideo`, telefone_types/objects/types.py:977 */
  const InlineQueryResultCachedVideoFields: seq<FieldDecl> :=
    [
      Plain("type", Prim(StrT)),
      Plain("id", Prim(StrT)),
      Plain("video_file_id", Prim(StrT)),
      Plain("title", Prim(StrT)),
      Plain("description", Prim(StrT)),
      Plain("caption", Prim(StrT)),
      Plain("parse_mode", Prim(StrT)),
      Plain("caption_entities", ListOf(Obj(MessageEntity))),
      Plain("reply_markup", Obj(InlineKeyboardMarkup)),
      Plain("input_message_content", Obj(InputMessageContent))
    ]

  /** `InlineQueryResultCachedVoice`, telefone_types/objects/types.py:992 */
  const InlineQueryResultCachedVoiceFields: seq<FieldDecl> :=
    [
      Plain("type", Prim(StrT)),
      Plain("id", Prim(StrT)),
      Plain("voice_file_id", Prim(StrT)),
      Plain("title", Prim(StrT)),
      Plain("caption", Prim(StrT)),
      Plain("parse_mode", Prim(StrT)),
      Plain("caption_entities", ListOf(Obj(MessageEntity))),
      Plain("reply_markup", Obj(InlineKeyboardMarkup)),
      Plain("input_message_content", Obj(InputMessageContent))
    ]

  /** `InlineQueryResultCachedAudio`, telefone_types/objects/types.py:1006 */
  const InlineQueryResultCachedAudioFields: seq<FieldDecl> :=
    [
      Plain("type", Prim(StrT)),
      Plain("id", Prim(StrT)),
      Plain("audio_file_id", Prim(StrT)),
      Plain("caption", Prim(StrT)),
      Plain("parse_mode", Prim(StrT)),
      Plain("caption_entities", ListOf(Obj(MessageEntity))),
      Plain("reply_markup", Obj(InlineKeyboardMarkup)),
      Plain("input_message_content", Obj(InputMessageContent))
    ]

  /** `InputMessageContent`, telefone_types/objects/types.py:1019 */
  const InputMessageContentFields: seq<FieldDecl> := []

  /** `InputTextMessageContent`, telefone_types/objects/types.py:1023 */
  const InputTextMessageContentFields: seq<FieldDecl> :=
    [
      Plain("message_text", Prim(StrT)),
      Plain("parse_mode", Prim(StrT)),
      Plain("entities", ListOf(Obj(MessageEntity))),
      Plain("disable_web_page_preview", Prim(BoolT))
    ]

  /** `InputLocationMessageContent`, telefone_types/objects/types.py:1030 */
  const InputLocationMessageContentFields: seq<FieldDecl> :=
    [
      Plain("latitude", Prim(FloatT)),
      Plain("longitude", Prim(FloatT)),
      Plain("horizontal_accuracy", Prim(FloatT)),
      Plain("live_period", Prim(IntT)),
      Plain("heading", Prim(IntT)),
      Plain("proximity_alert_radius", Prim(IntT))
    ]

  /** `InputVenueMessageContent`, telefone_types/objects/types.py:1039 */
  const InputVenueMessageContentFields: seq<FieldDecl> :=
    [
      Plain("latitude", Prim(FloatT)),
      Plain("longitude", Prim(FloatT)),
      Plain("title", Prim(StrT)),
      Plain("address", Prim(StrT)),
      Plain("foursquare_id", Prim(StrT)),
      Plain("foursquare_type", Prim(StrT)),
      Plain("google_place_id", Prim(StrT)),
      Plain("google_place_type", Prim(StrT))
    ]

  /** `InputContactMessageContent`, telefone_types/objects/types.py:1050 */
  const InputContactMessageContentFields: seq<FieldDecl> :=
    [
      Plain("phone_number", Prim(StrT)),
      Plain("first_name", Prim(StrT)),
      Plain("last_name", Prim(StrT)),
      Plain("vcard", Prim(StrT))
    ]

  /** `InputInvoiceMessageContent`, telefone_types/objects/types.py:1057 */
  const InputInvoiceMessageContentFields: seq<FieldDecl> :=
    [
      Plain("title", Prim(StrT)),
      Plain("description", Prim(StrT)),
      Plain("payload", Prim(StrT)),
      Plain("provider_token", Prim(StrT)),
      Plain("currency", Prim(StrT)),
      Plain("prices", ListOf(Obj(LabeledPrice))),
      Plain("max_tip_amount", Prim(IntT)),
      Plain("suggested_tip_amounts", ListOf(Prim(IntT))),
      Plain("provider_data", Prim(StrT)),
      Plain("photo_url", Prim(StrT))
    ] +
    [
      Plain("photo_size", Prim(IntT)),
      Plain("photo_width", Prim(IntT)),
      Plain("photo_height", Prim(IntT)),
      Plain("need_name", Prim(BoolT)),
      Plain("need_phone_number", Prim(BoolT)),
      Plain("need_email", Prim(BoolT)),
      Plain("need_shipping_address", Prim(BoolT)),
      Plain("send_phone_number_to_provider", Prim(BoolT)),
      Plain("send_email_to_provider", Prim(BoolT)),
      Plain("is_flexible", Prim(BoolT))
    ]

  /** `ChosenInlineResult`, telefone_types/objects/types.py:1080 */
  const ChosenInlineResultFields: seq<FieldDecl> :=
    [
      Plain("result_id", Prim(StrT)),
      Sender,
      Plain("location", Obj(Location)),
      Plain("inline_message_id", Prim(StrT)),
      Plain("query", Prim(StrT))
    ]

  /** `SentWebAppMessage`, telefone_types/objects/types.py:1088 */
  const SentWebAppMessageFields: seq<FieldDecl> :=
    [
      Plain("inline_message_id", Prim(StrT))
    ]

  /** `LabeledPrice`, telefone_types/objects/types.py:1092 */
  const LabeledPriceFields: seq<FieldDecl> :=
    [
      Plain("label", Prim(StrT)),
      Plain("amount", Prim(IntT))
    ]

  /** `Invoice`, telefone_types/objects/types.py:1097 */
  const InvoiceFields: seq<FieldDecl> :=
    [
      Plain("title", Prim(StrT)),
      Plain("description", Prim(StrT)),
      Plain("start_parameter", Prim(StrT)),
      Plain("currency", Prim(StrT)),
      Plain("total_amount", Prim(IntT))
    ]

  /** `ShippingAddress`, telefone_types/objects/types.py:1105 */
  const ShippingAddressFields: seq<FieldDecl> :=
    [
      Plain("country_code", Prim(StrT)),
      Plain("state", Prim(StrT)),
      Plain("city", Prim(StrT)),
      Plain("street_line1", Prim(StrT)),
      Plain("street_line2", Prim(StrT)),
      Plain("post_code", Prim(StrT))
    ]

  /** `OrderInfo`, telefone_types/objects/types.py:1114 */
  const OrderInfoFields: seq<FieldDecl> :=
    [
      Plain("name", Prim(StrT)),
      Plain("phone_number", Prim(StrT)),
      Plain("email", Prim(StrT)),
      Plain("shipping_address", Obj(ShippingAddress))
    ]

  /** `ShippingOption`, telefone_types/objects/types.py:1121 */
  const ShippingOptionFields: seq<FieldDecl> :=
    [
      Plain("id", Prim(StrT)),
      Plain("title", Prim(StrT)),
      Plain("prices", ListOf(Obj(LabeledPrice)))
    ]

  /** `SuccessfulPayment`, telefone_types/objects/types.py:1127 */
  const SuccessfulPaymentFields: seq<FieldDecl> :=
    [
      Plain("currency", Prim(StrT)),
      Plain("total_amount", Prim(IntT)),
      Plain("invoice_payload", Prim(StrT)),
      Plain("shipping_option_id", Prim(StrT)),
      Plain("order_info", Obj(OrderInfo)),
      Plain("telegram_payment_charge_id", Prim(StrT)),
      Plain("provider_payment_charge_id", Prim(StrT))
    ]

  /** `ShippingQuery`, telefone_types/objects/types.py:1137 */
  const ShippingQueryFields: seq<FieldDecl> :=
    [
      Plain("id", Prim(StrT)),
      Sender,
      Plain("invoice_payload", Prim(StrT)),
      Plain("shipping_address", Obj(ShippingAddress))
    ]

  /** `PreCheckoutQuery`, telefone_types/objects/types.py:1144 */
  const PreCheckoutQueryFields: seq<FieldDecl> :=
    [
      Plain("id", Prim(StrT)),
      Sender,
      Plain("currency", Prim(StrT)),
      Plain("total_amount", Prim(IntT)),
      Plain("invoice_payload", Prim(StrT)),
      Plain("shipping_option_id", Prim(StrT)),
      Plain("order_info", Obj(OrderInfo))
    ]

  /** `PassportData`, telefone_types/objects/types.py:1154 */
  const PassportDataFields: seq<FieldDecl> :=
    [
      Plain("data", ListOf(Obj(EncryptedPassportElement))),
      Plain("credentials", Obj(EncryptedCredentials))
    ]

  /** `PassportFile`, telefone_types/objects/types.py:1159 */
  const PassportFileFields: seq<FieldDecl> :=
    [
      Plain("file_id", Prim(StrT)),
      Plain("file_unique_id", Prim(StrT)),
      Plain("file_size", Prim(IntT)),
      Plain("file_date", Prim(IntT))
    ]

  /** `EncryptedPassportElement`, telefone_types/objects/types.py:1166 */
  const EncryptedPassportElementFields: seq<FieldDecl> :=
    [
      Plain("type", Prim(StrT)),
      Plain("data", Prim(StrT)),
      Plain("phone_number", Prim(StrT)),
      Plain("email", Prim(StrT)),
      Plain("files", ListOf(Obj(PassportFile))),
      Plain("front_side", Obj(PassportFile)),
      Plain("reverse_side", Obj(PassportFile)),
      Plain("selfie", Obj(PassportFile)),
      Plain("translation", ListOf(Obj(PassportFile))),
      Plain("hash", Prim(StrT))
    ]

  /** `EncryptedCredentials`, telefone_types/objects/types.py:1179 */
  const EncryptedCredentialsFields: seq<FieldDecl> :=
    [
      Plain("data", Prim(StrT)),
      Plain("hash", Prim(StrT)),
      Plain("secret", Prim(StrT))
    ]

  /** `PassportElementError`, telefone_types/objects/types.py:1185 */
  const PassportElementErrorFields: seq<FieldDecl> := []

  /** `PassportElementErrorDataField`, telefone_types/objects/types.py:1189 */
  const PassportElementErrorDataFieldFields: seq<FieldDecl> :=
    [
      Plain("source", Prim(StrT)),
      Plain("type", Prim(StrT)),
      Plain("field_name", Prim(StrT)),
      Plain("data_hash", Prim(StrT)),
      Plain("message", Prim(StrT))
    ]

  /** `PassportElementErrorFrontSide`, telefone_types/objects/types.py:1197 */
  const PassportElementErrorFrontSideFields: seq<FieldDecl> :=
    [
      Plain("source", Prim(StrT)),
      Plain("type", Prim(StrT)),
      Plain("file_hash", Prim(StrT)),
      Plain("message", Prim(StrT))
    ]

  /** `PassportElementErrorReverseSide`, telefone_types/objects/types.py:1204 */
  const PassportElementErrorReverseSideFields: seq<FieldDecl> :=
    [
      Plain("source", Prim(StrT)),
      Plain("type", Prim(StrT)),
      Plain("file_hash", Prim(StrT)),
      Plain("message", Prim(StrT))
    ]

  /** `PassportElementErrorSelfie`, telefone_types/objects/types.py:1211 */
  const PassportElementErrorSelfieFields: seq<FieldDecl> :=
    [
      Plain("source", Prim(StrT)),
      Plain("type", Prim(StrT)),
      Plain("file_hash", Prim(StrT)),
      Plain("message", Prim(StrT))
    ]

  /** `PassportElementErrorFile`, telefone_types/objects/types.py:1218 */
  const PassportElementErrorFileFields: seq<FieldDecl> :=
    [
      Plain("source", Prim(StrT)),
      Plain("type", Prim(StrT)),
      Plain("file_hash", Prim(StrT)),
      Plain("message", Prim(StrT))
    ]

  /** `PassportElementErrorFiles`, telefone_types/objects/types.py:1225 */
  const PassportElementErrorFilesFields: seq<FieldDecl> :=
    [
      Plain("source", Prim(StrT)),
      Plain("type", Prim(StrT)),
      Plain("file_hashes", ListOf(Prim(StrT))),
      Plain("message", Prim(StrT))
    ]

  /** `PassportElementErrorTranslationFile`, telefone_types/objects/types.py:1232 */
  const PassportElementErrorTranslationFileFields: seq<FieldDecl> :=
    [
      Plain("source", Prim(StrT)),
      Plain("type", Prim(StrT)),
      Plain("file_hash", Prim(StrT)),
      Plain("message", Prim(StrT))
    ]

  /** `PassportElementErrorTranslationFiles`, telefone_types/objects/types.py:1239 */
  const PassportElementErrorTranslationFilesFields: seq<FieldDecl> :=
    [
      Plain("source", Prim(StrT)),
      Plain("type", Prim(StrT)),
      Plain("file_hashes", ListOf(Prim(StrT))),
      Plain("message", Prim(StrT))
    ]

  /** `PassportElementErrorUnspecified`, telefone_types/objects/types.py:1246 */
  const PassportElementErrorUnspecifiedFields: seq<FieldDecl> :=
    [
      Plain("source", Prim(StrT)),
      Plain("type", Prim(StrT)),
      Plain("element_hash", Prim(StrT)),
      Plain("message", Prim(StrT))
    ]

  /** `Game`, telefone_types/objects/types.py:1253 */
  const GameFields: seq<FieldDecl> :=
    [
      Plain("title", Prim(StrT)),
      Plain("description", Prim(StrT)),
      Plain("photo", ListOf(Obj(PhotoSize))),
      Plain("text", Prim(StrT)),
      Plain("text_entities", ListOf(Obj(MessageEntity))),
      Plain("animation", Obj(Animation))
    ]

  /** `CallbackGame`, telefone_types/objects/types.py:1262 */
  const CallbackGameFields: seq<FieldDecl> := []

  /** `GameHighScore`, telefone_types/objects/types.py:1266 */
  const GameHighScoreFields: seq<FieldDecl> :=
    [
      Plain("position", Prim(IntT)),
      Plain("user", Obj(User)),
      Plain("score", Prim(IntT))
    ]

  /** The attribute names of a list of fields, in order. */
  function Names(fs: seq<FieldDecl>): (ns: seq<string>)
    ensures |ns| == |fs|
    ensures forall i :: 0 <= i < |fs| ==> ns[i] == Name(fs[i])
  {
    seq(|fs|, i requires 0 <= i < |fs| => Name(fs[i]))
  }

  predicate DistinctNames(fs: seq<FieldDecl>) {
    forall i, j | 0 <= i < j < |fs| :: Name(fs[i]) != Name(fs[j])
  }

  /** Whether no field of `fs` is the sender field. */
  predicate NoSender(fs: seq<FieldDecl>) {
    forall i | 0 <= i < |fs| :: fs[i].Plain?
  }

  /** A table of the declared fields of each class. `Fields` is the table
      of `objects/types.py`; what is proved about reading and serialising
      holds for any table, so those proofs never unfold `Fields`. */
  type Schema = ClassName -> seq<FieldDecl>

  /** What a field is set to from the wire object `o`, before it is read
      into its shape: the value under its wire key, or the default `None`
      when that key is absent. */
  function WireValue(o: Entries, f: FieldDecl): (v: Json)
    ensures WireKey(f) !in KeysOf(o) ==> v == Null
    ensures WireKey(f) in KeysOf(o) ==> (WireKey(f), v) in o
  {
    match Lookup(o, WireKey(f))
    case Some(v) => v
    case None => Null
  }

  /** The member of a union that reads the wire value `v`. pydantic tries
      the members in order; of the shapes that occur in unions, a class
      reads a dictionary and a list type reads a list. */
  function UnionMember(alts: seq<Shape>, v: Json): (r: Option<Shape>)
    ensures r.Some? ==> r.value in alts && ((r.value.Obj? && v.Dict?) || (r.value.ListOf? && v.List?))
    ensures r.None? ==> forall a | a in alts :: !((a.Obj? && v.Dict?) || (a.ListOf? && v.List?))
  {
    if alts == [] then None
    else if (alts[0].Obj? && v.Dict?) || (alts[0].ListOf? && v.List?) then Some(alts[0])
    else UnionMember(alts[1..], v)
  }

  /** Reading the wire value `v` into a field of declared shape `s`, as
      pydantic parses it: a dictionary under a class becomes an instance of
      that class, built by `FromWire` from the class's own fields; a list
      under a list type is read element by element; a union reads a
      dictionary or a list as its first member that takes it. Scalars, and
      values of the wrong kind for their shape, are kept as they come. */
  function Decode(schema: Schema, s: Shape, v: Json): (r: Json)
    ensures r == Null <==> v == Null
    decreases v, 1, s
  {
    if !v.Dict? && !v.List? then v
    else if s.OneOf? then
      match UnionMember(s.alts, v)
      case Some(a) => Decode(schema, a, v)
      case None => v
    else if v.Dict? && s.Obj? then Model(FromWire(schema, schema(s.cls), v.entries))
    else if v.List? && s.ListOf? then
      List(seq(|v.items|, i requires 0 <= i < |v.items| => Decode(schema, s.elem, v.items[i])))
    else v
  }

  /** `cls(**o)` for a class with fields `fs`, as its field dictionary
      (`.dict()`): every declared field, in declaration order and under its
      attribute name, holds its wire value read into its shape; keys of `o`
      that are no field's wire key are ignored. */
  function FromWire(schema: Schema, fs: seq<FieldDecl>, o: Entries): (r: Entries)
    ensures KeysOf(r) == Names(fs)
    decreases o, 1
  {
    seq(|fs|, i requires 0 <= i < |fs| => (Name(fs[i]), DecodeAt(schema, ShapeOf(fs[i]), o, WireKey(fs[i]))))
  }

  /** The value under key `k` of `o`, read into shape `s`; `None` when `k`
      is absent. */
  function DecodeAt(schema: Schema, s: Shape, o: Entries, k: string): Json
    decreases o, 0
  {
    if o == [] then Null
    else if o[0].0 == k then
      assert o[0] in o && o[0].1 < o[0];
      Decode(schema, s, o[0].1)
    else DecodeAt(schema, s, o[1..], k)
  }

  lemma {:induction false} DecodeAtLookup(schema: Schema, s: Shape, o: Entries, k: string)
    ensures DecodeAt(schema, s, o, k) == match Lookup(o, k) case Some(v) => Decode(schema, s, v) case None => Null
  {
    if o != [] && o[0].0 != k {
      DecodeAtLookup(schema, s, o[1..], k);
    }
  }

  /** Each field of an object read from the wire holds its wire value read
      into the field's shape. */
  lemma FromWireValues(schema: Schema, fs: seq<FieldDecl>, o: Entries)
    ensures forall i | 0 <= i < |fs| :: FromWire(schema, fs, o)[i].1 == Decode(schema, ShapeOf(fs[i]), WireValue(o, fs[i]))
  {
    forall i | 0 <= i < |fs|
      ensures FromWire(schema, fs, o)[i].1 == Decode(schema, ShapeOf(fs[i]), WireValue(o, fs[i]))
    {
      DecodeAtLookup(schema, ShapeOf(fs[i]), o, WireKey(fs[i]));
    }
  }

  /** Every field defaults to `None`: an object built from `{}` has every
      field absent, and serialises to `{}`. */
  lemma FromWireDefaults(schema: Schema, fs: seq<FieldDecl>)
    ensures forall i :: 0 <= i < |fs| ==> FromWire(schema, fs, [])[i].1 == Null
    ensures ConvertToDict(FromWire(schema, fs, [])) == Dict([])
  {
    AllNoneBecomesEmpty(FromWire(schema, fs, []));
  }

  /** Only the wire keys of the fields are read: two wire objects that agree
      on them build the same object. */
  lemma FromWireReadsWireKeys(schema: Schema, fs: seq<FieldDecl>, o: Entries, o': Entries)
    requires forall i | 0 <= i < |fs| :: Lookup(o, WireKey(fs[i])) == Lookup(o', WireKey(fs[i]))
    ensures FromWire(schema, fs, o) == FromWire(schema, fs, o')
  {
    var r, r' := FromWire(schema, fs, o), FromWire(schema, fs, o');
    forall i | 0 <= i < |fs| ensures r[i] == r'[i] {
      assert KeysOf(r)[i] == KeysOf(r')[i];
      DecodeAtLookup(schema, ShapeOf(fs[i]), o, WireKey(fs[i]));
      DecodeAtLookup(schema, ShapeOf(fs[i]), o', WireKey(fs[i]));
    }
  }

  lemma FromWireUnique(schema: Schema, fs: seq<FieldDecl>, o: Entries)
    requires DistinctNames(fs)
    ensures UniqueKeys(FromWire(schema, fs, o))
  {
    var r := FromWire(schema, fs, o);
    forall i, j | 0 <= i < j < |r| ensures r[i].0 != r[j].0 {
      assert KeysOf(r)[i] == r[i].0 && KeysOf(r)[j] == r[j].0;
    }
  }

  /** Decoding and then serialising, field by field: the field named `k`
      appears in the output exactly when its wire value is not `None`, and
      then as that value read into the field's shape and converted; a key
      that names no field never appears. */
  lemma SerialiseDecoded(schema: Schema, fs: seq<FieldDecl>, o: Entries, k: string)
    requires DistinctNames(fs)
    ensures k !in Names(fs) ==> Lookup(ConvertToDict(FromWire(schema, fs, o)).entries, k) == None
    ensures forall i | 0 <= i < |fs| && Name(fs[i]) == k ::
              Lookup(ConvertToDict(FromWire(schema, fs, o)).entries, k)
              == if WireValue(o, fs[i]) == Null then None
                 else Some(Convert.Convert(Decode(schema, ShapeOf(fs[i]), WireValue(o, fs[i]))))
  {
    var r := FromWire(schema, fs, o);
    FromWireUnique(schema, fs, o);
    FromWireValues(schema, fs, o);
    ConvertToDictIsConvert(r, k);
    forall i | 0 <= i < |fs| && Name(fs[i]) == k
      ensures Lookup(r, k) == Some(Decode(schema, ShapeOf(fs[i]), WireValue(o, fs[i])))
    {
      assert KeysOf(r)[i] == r[i].0;
      LookupAt(r, i);
    }
  }

  /** The wire values that reading into shape `s` and serialising give back
      unchanged: scalars; a list of such values under a list type; a
      dictionary that a union reads as one of its members and that is such
      a value for it; and a dictionary under a class that holds the fields
      of the class as `CanonicalFields` says. */
  predicate Canonical(schema: Schema, s: Shape, v: Json)
    decreases v, 1, s
  {
    if v.Model? then false
    else if !v.Dict? && !v.List? then true
    else if s.OneOf? then
      match UnionMember(s.alts, v)
      case Some(a) => Canonical(schema, a, v)
      case None => false
    else if v.Dict? && s.Obj? then CanonicalFields(schema, schema(s.cls), v.entries)
    else if v.List? && s.ListOf? then
      forall i | 0 <= i < |v.items| :: Canonical(schema, s.elem, v.items[i])
    else false
  }

  /** The wire object `es` holds fields of `fs` in declaration order, each
      under its own name (so not the sender field, which is serialised under
      another key than it is read from), none `None`, each canonical for its
      shape, and no key that a field reads twice or that no field reads. */
  predicate CanonicalFields(schema: Schema, fs: seq<FieldDecl>, es: Entries)
    decreases es, 0, |fs|
  {
    if fs == [] then es == []
    else if es != [] && es[0].0 == Name(fs[0]) then
      assert es[0] in es && es[0].1 < es[0];
      fs[0].Plain? && es[0].1 != Null
      && (forall j | 1 <= j < |fs| :: WireKey(fs[j]) != es[0].0)
      && Canonical(schema, ShapeOf(fs[0]), es[0].1)
      && CanonicalFields(schema, fs[1..], es[1..])
    else WireKey(fs[0]) !in KeysOf(es) && CanonicalFields(schema, fs[1..], es)
  }

  /** Reading a canonical wire value into its shape and serialising the
      result (`convert`) gives the wire value back exactly, at every depth:
      the same keys in the same order, the same values. */
  lemma {:induction false} DecodeSerialiseRoundTrip(schema: Schema, s: Shape, v: Json)
    requires Canonical(schema, s, v)
    ensures Convert.Convert(Decode(schema, s, v)) == v
    decreases v, 1, s
  {
    if !v.Dict? && !v.List? {
    } else if s.OneOf? {
      var a := UnionMember(s.alts, v).value;
      DecodeSerialiseRoundTrip(schema, a, v);
    } else if v.Dict? && s.Obj? {
      RoundTripFields(schema, schema(s.cls), v.entries);
    } else {
      var xs := v.items;
      var ds := Decode(schema, s, v).items;
      forall i | 0 <= i < |xs| ensures Convert.Convert(ds[i]) == xs[i] {
        DecodeSerialiseRoundTrip(schema, s.elem, xs[i]);
      }
    }
  }

  /** `DecodeSerialiseRoundTrip` for the fields of one object. */
  lemma {:induction false} RoundTripFields(schema: Schema, fs: seq<FieldDecl>, es: Entries)
    requires CanonicalFields(schema, fs, es)
    ensures Prune(FromWire(schema, fs, es)) == es
    decreases es, 0, |fs|
  {
    if fs != [] {
      var r := FromWire(schema, fs, es);
      if es != [] && es[0].0 == Name(fs[0]) {
        FromWireTail(schema, fs, es);
        assert es[0] in es && es[0].1 < es[0];
        DecodeSerialiseRoundTrip(schema, ShapeOf(fs[0]), es[0].1);
        RoundTripFields(schema, fs[1..], es[1..]);
      } else {
        assert r[1..] == FromWire(schema, fs[1..], es);
        DecodeAtLookup(schema, ShapeOf(fs[0]), es, WireKey(fs[0]));
        RoundTripFields(schema, fs[1..], es);
      }
    }
  }

  /** When the first wire entry is read by the first field only, the
      other fields read the rest of the wire object. */
  lemma FromWireTail(schema: Schema, fs: seq<FieldDecl>, es: Entries)
    requires fs != [] && es != []
    requires forall j | 1 <= j < |fs| :: WireKey(fs[j]) != es[0].0
    ensures FromWire(schema, fs, es)[1..] == FromWire(schema, fs[1..], es[1..])
  {
    var r := FromWire(schema, fs, es);
    var rest := FromWire(schema, fs[1..], es[1..]);
    forall j | 0 <= j < |rest| ensures r[1..][j] == rest[j] {
      var f := fs[j + 1];
      assert fs[1..][j] == f && WireKey(f) != es[0].0;
      assert r[j + 1].1 == DecodeAt(schema, ShapeOf(f), es, WireKey(f));
    }
  }

  /** The sender is read from the wire key `from` but serialised under its
      field name `from_`: a sender on the wire comes back under `from_`,
      and `from` is gone. Here `i` is the first field named `from_`, and no
      field is named `from`. */
  lemma SenderKeyRenamed(schema: Schema, fs: seq<FieldDecl>, o: Entries, i: int)
    requires 0 <= i < |fs| && fs[i] == Sender
    requires forall j | 0 <= j < i :: Name(fs[j]) != "from_"
    requires "from" !in Names(fs)
    requires "from" in KeysOf(o) && Lookup(o, "from").value != Null
    ensures Lookup(ConvertToDict(FromWire(schema, fs, o)).entries, "from_")
         == Some(Convert.Convert(Decode(schema, Obj(User), Lookup(o, "from").value)))
    ensures "from" !in KeysOf(ConvertToDict(FromWire(schema, fs, o)).entries)
  {
    var r := FromWire(schema, fs, o);
    assert KeysOf(r)[i] == "from_";
    forall j | 0 <= j < i ensures r[j].0 != r[i].0 {
      assert KeysOf(r)[j] == r[j].0;
    }
    FromWireValues(schema, fs, o);
    LookupFirst(r, i);
    PruneLookupFirst(r, "from_");
    if "from" in KeysOf(Prune(r)) {
      PruneKeysSubset(r, "from");
    }
  }

  /** The same at any depth: a nested object of a class with the sender
      field, read from a wire dictionary with a `from` entry, serialises with
      that entry under `from_` and no `from`. */
  lemma NestedSenderRenamed(schema: Schema, c: ClassName, es: Entries)
    requires SenderSecond(schema(c))
    requires "from" in KeysOf(es) && Lookup(es, "from").value != Null
    ensures Convert.Convert(Decode(schema, Obj(c), Dict(es))) == ConvertToDict(FromWire(schema, schema(c), es))
    ensures Lookup(Convert.Convert(Decode(schema, Obj(c), Dict(es))).entries, "from_")
         == Some(Convert.Convert(Decode(schema, Obj(User), Lookup(es, "from").value)))
    ensures "from" !in KeysOf(Convert.Convert(Decode(schema, Obj(c), Dict(es))).entries)
  {
    var fs := schema(c);
    assert Decode(schema, Obj(c), Dict(es)) == Model(FromWire(schema, fs, es));
    assert Name(fs[0]) != "from_";
    SenderKeyRenamed(schema, fs, es, 1);
  }

  /** A class that declares no field reads any wire dictionary as an
      instance with nothing in it, which serialises to `{}`. */
  lemma EmptyClassForgets(schema: Schema, c: ClassName, es: Entries)
    requires schema(c) == []
    ensures Convert.Convert(Decode(schema, Obj(c), Dict(es))) == Dict([])
  {
    assert FromWire(schema, schema(c), es) == [];
  }

  /** The envelope: `update_id`, then fourteen slots, each holding an
      instance of some class; no two fields share a name and there is no
      sender field. */
  lemma UpdateEnvelope()
    ensures |UpdateFields| == 15
    ensures UpdateFields[0] == Plain("update_id", Prim(IntT))
    ensures forall i | 1 <= i < |UpdateFields| :: UpdateFields[i].Plain? && UpdateFields[i].shape.Obj?
    ensures DistinctNames(UpdateFields) && NoSender(UpdateFields)
  {
  }

  /** An update built from `{}` has `update_id` and all fourteen slots
      set to `None`, and serialises to `{}`. */
  lemma EmptyUpdate(schema: Schema)
    ensures |FromWire(schema, UpdateFields, [])| == 15
    ensures forall i | 0 <= i < 15 :: FromWire(schema, UpdateFields, [])[i].1 == Null
    ensures ConvertToDict(FromWire(schema, UpdateFields, [])) == Dict([])
  {
    UpdateEnvelope();
    FromWireDefaults(schema, UpdateFields);
  }

  /** A message can hold messages (the one it replies to, the one it pins)
      and a chat can hold its pinned message, so shapes nest through
      `Message` to any finite depth. */
  lemma MessageShapesNest()
    ensures Plain("reply_to_message", Obj(Message)) in MessageFields
    ensures Plain("pinned_message", Obj(Message)) in MessageFields
    ensures Plain("chat", Obj(Chat)) in MessageFields
    ensures Plain("pinned_message", Obj(Message)) in ChatFields
  {
    assert MessageFields[12] == Plain("reply_to_message", Obj(Message));
    assert MessageFields[47] == Plain("pinned_message", Obj(Message));
    assert MessageFields[4] == Plain("chat", Obj(Chat));
    assert ChatFields[11] == Plain("pinned_message", Obj(Message));
  }

  /** The union-like base classes: no subclass is ever chosen for them. */
  predicate IsUnionLike(c: ClassName) {
    c.ChatMember? || c.BotCommandScope? || c.MenuButton? || c.InputMedia?
    || c.InlineQueryResult? || c.InputMessageContent? || c.PassportElementError?
  }

  /** A union-like class declares no field, so an instance built from any
      wire object keeps nothing of it and serialises to `{}`. */
  lemma UnionLikeClassesAreEmpty(schema: Schema, o: Entries)
    ensures ChatMemberFields == [] && BotCommandScopeFields == [] && MenuButtonFields == []
    ensures InputMediaFields == [] && InlineQueryResultFields == []
    ensures InputMessageContentFields == [] && PassportElementErrorFields == []
    ensures ConvertToDict(FromWire(schema, [], o)) == Dict([])
  {
  }

  /** The old and new member states of a chat member update have the
      union-like class `ChatMember`. */
  lemma ChatMemberStatesAreUnionLike()
    ensures ChatMemberUpdatedFields[3] == Plain("old_chat_member", Obj(ChatMember))
    ensures ChatMemberUpdatedFields[4] == Plain("new_chat_member", Obj(ChatMember))
    ensures IsUnionLike(ChatMemberUpdatedFields[3].shape.cls)
  {
  }

  /** In the table of the source, the union-like class `ChatMember`
      declares no field. */
  lemma ChatMemberDeclaresNothing()
    ensures Fields(ChatMember) == []
  {
  }

  /** So a chat member update forgets the member states it is sent: an
      `old_chat_member` or `new_chat_member` dictionary, whatever it holds,
      is serialised back as `{}`. */
  lemma MemberStateForgotten(o: Entries, name: string, es: Entries)
    requires name == "old_chat_member" || name == "new_chat_member"
    requires Lookup(o, name) == Some(Dict(es))
    ensures Lookup(ConvertToDict(FromWire(Fields, ChatMemberUpdatedFields, o)).entries, name)
         == Some(Dict([]))
  {
    ChatMemberDeclaresNothing();
    StateForgottenBy(Fields, o, name, es);
  }

  /** `MemberStateForgotten` for any table in which `ChatMember` declares
      no field. */
  lemma StateForgottenBy(schema: Schema, o: Entries, name: string, es: Entries)
    requires schema(ChatMember) == []
    requires name == "old_chat_member" || name == "new_chat_member"
    requires Lookup(o, name) == Some(Dict(es))
    ensures Lookup(ConvertToDict(FromWire(schema, ChatMemberUpdatedFields, o)).entries, name)
         == Some(Dict([]))
  {
    var fs := ChatMemberUpdatedFields;
    var i := if name == "old_chat_member" then 3 else 4;
    ChatMemberUpdatedDistinct();
    SerialiseDecoded(schema, fs, o, name);
    assert fs[i] == Plain(name, Obj(ChatMember)) && WireValue(o, fs[i]) == Dict(es);
    EmptyClassForgets(schema, ChatMember, es);
  }

  lemma ChatMemberUpdatedDistinct()
    ensures DistinctNames(ChatMemberUpdatedFields)
  {
  }

  /** The classes that declare the sender field. */
  predicate IsSenderClass(c: ClassName) {
    c.Message? || c.CallbackQuery? || c.ChatMemberUpdated? || c.ChatJoinRequest?
    || c.InlineQuery? || c.ChosenInlineResult? || c.ShippingQuery? || c.PreCheckoutQuery?
  }

  /** What `SenderKeyRenamed` needs of a class. */
  predicate SenderSecond(fs: seq<FieldDecl>) {
    |fs| > 1 && fs[1] == Sender && Name(fs[0]) != "from_" && "from" !in Names(fs)
  }

  /** Each sender class declares the sender field second, after a field
      with another name, and no field named `from`. */
  lemma SenderClasses()
    ensures SenderSecond(MessageFields)
    ensures SenderSecond(CallbackQueryFields) && SenderSecond(ChatMemberUpdatedFields)
    ensures SenderSecond(ChatJoinRequestFields) && SenderSecond(InlineQueryFields)
    ensures SenderSecond(ChosenInlineResultFields) && SenderSecond(ShippingQueryFields)
    ensures SenderSecond(PreCheckoutQueryFields)
  {
    MessageSenderSecond();
  }

  lemma MessageSenderSecond()
    ensures SenderSecond(MessageFields)
  {
  }
}
