/** Route labelling: the route variants the outbound client's router
    produces and the fixed metrics label `path_name` gives each of them
    (src/main.rs lines 92-143). */
module Routing {

  /** A snowflake id (or other parameter) carried by a route. */
  type Id = nat

  /** The route variants of the router's enum. The last two are variants
      the label match does not name, so its wildcard arm is reachable. */
  datatype Kind =
    | ChannelsId
    | ChannelsIdInvites
    | ChannelsIdMessages
    | ChannelsIdMessagesBulkDelete
    | ChannelsIdMessagesId
    | ChannelsIdMessagesIdReactions
    | ChannelsIdMessagesIdReactionsUserIdType
    | ChannelsIdPermissionsOverwriteId
    | ChannelsIdPins
    | ChannelsIdPinsMessageId
    | ChannelsIdTyping
    | ChannelsIdWebhooks
    | Gateway
    | GatewayBot
    | Guilds
    | GuildsId
    | GuildsIdBans
    | GuildsIdAuditLogs
    | GuildsIdBansUserId
    | GuildsIdChannels
    | GuildsIdWidget
    | GuildsIdEmojis
    | GuildsIdEmojisId
    | GuildsIdIntegrations
    | GuildsIdIntegrationsId
    | GuildsIdIntegrationsIdSync
    | GuildsIdInvites
    | GuildsIdMembers
    | GuildsIdMembersId
    | GuildsIdMembersIdRolesId
    | GuildsIdMembersMeNick
    | GuildsIdPreview
    | GuildsIdPrune
    | GuildsIdRegions
    | GuildsIdRoles
    | GuildsIdRolesId
    | GuildsIdVanityUrl
    | GuildsIdWebhooks
    | InvitesCode
    | UsersId
    | UsersIdConnections
    | UsersIdChannels
    | UsersIdGuilds
    | UsersIdGuildsId
    | VoiceRegions
    | WebhooksId
    | OauthApplicationsMe
    | ChannelsIdRecipients
    | GuildsIdEmbed

  /** A route: its variant and the ids the variant carries, in order. */
  datatype Path = Path(kind: Kind, ids: seq<Id>)

  /** The label of a variant the match does not name. */
  const UnknownLabel: string := "Unknown path!"

  /** Every label `PathName` can return: the literals of the match. */
  const Labels: set<string> := {
    "Channel",
    "Channel invite",
    "Channel message",
    "Bulk delete message",
    "Message reaction",
    "Message reaction for user",
    "Channel permission override",
    "Channel pins",
    "Specific channel pin",
    "Typing indicator",
    "Webhook",
    "Gateway",
    "Gateway bot info",
    "Guilds",
    "Guild",
    "Guild bans",
    "Guild audit logs",
    "Guild ban for user",
    "Guild channel",
    "Guild widget",
    "Guild emoji",
    "Specific guild emoji",
    "Guild integrations",
    "Specific guild integration",
    "Sync guild integration",
    "Guild invites",
    "Guild members",
    "Specific guild member",
    "Guild member role",
    "Modify own nickname",
    "Guild preview",
    "Guild prune",
    "Guild region",
    "Guild roles",
    "Specific guild role",
    "Guild vanity invite",
    "Guild webhooks",
    "Invite info",
    "User info",
    "User connections",
    "User channels",
    "User in guild",
    "Guild from user",
    "Voice region list",
    "Current application info",
    "Unknown path!"
  }

  /** The labels of the match, one per distinct literal, the unknown
      label last. */
  datatype Label =
    | Channel
    | ChannelInvite
    | ChannelMessage
    | BulkDeleteMessage
    | MessageReaction
    | MessageReactionForUser
    | ChannelPermissionOverride
    | ChannelPins
    | SpecificChannelPin
    | TypingIndicator
    | Webhook
    | Gateway
    | GatewayBotInfo
    | Guilds
    | Guild
    | GuildBans
    | GuildAuditLogs
    | GuildBanForUser
    | GuildChannel
    | GuildWidget
    | GuildEmoji
    | SpecificGuildEmoji
    | GuildIntegrations
    | SpecificGuildIntegration
    | SyncGuildIntegration
    | GuildInvites
    | GuildMembers
    | SpecificGuildMember
    | GuildMemberRole
    | ModifyOwnNickname
    | GuildPreview
    | GuildPrune
    | GuildRegion
    | GuildRoles
    | SpecificGuildRole
    | GuildVanityInvite
    | GuildWebhooks
    | InviteInfo
    | UserInfo
    | UserConnections
    | UserChannels
    | UserInGuild
    | GuildFromUser
    | VoiceRegionList
    | CurrentApplicationInfo
    | UnknownPath

  /** The literal a label is written as. */
  function LabelText(l: Label): (text: string)
    ensures text in Labels
  {
    match l
    case Channel => "Channel"
    case ChannelInvite => "Channel invite"
    case ChannelMessage => "Channel message"
    case BulkDeleteMessage => "Bulk delete message"
    case MessageReaction => "Message reaction"
    case MessageReactionForUser => "Message reaction for user"
    case ChannelPermissionOverride => "Channel permission override"
    case ChannelPins => "Channel pins"
    case SpecificChannelPin => "Specific channel pin"
    case TypingIndicator => "Typing indicator"
    case Webhook => "Webhook"
    case Gateway => "Gateway"
    case GatewayBotInfo => "Gateway bot info"
    case Guilds => "Guilds"
    case Guild => "Guild"
    case GuildBans => "Guild bans"
    case GuildAuditLogs => "Guild audit logs"
    case GuildBanForUser => "Guild ban for user"
    case GuildChannel => "Guild channel"
    case GuildWidget => "Guild widget"
    case GuildEmoji => "Guild emoji"
    case SpecificGuildEmoji => "Specific guild emoji"
    case GuildIntegrations => "Guild integrations"
    case SpecificGuildIntegration => "Specific guild integration"
    case SyncGuildIntegration => "Sync guild integration"
    case GuildInvites => "Guild invites"
    case GuildMembers => "Guild members"
    case SpecificGuildMember => "Specific guild member"
    case GuildMemberRole => "Guild member role"
    case ModifyOwnNickname => "Modify own nickname"
    case GuildPreview => "Guild preview"
    case GuildPrune => "Guild prune"
    case GuildRegion => "Guild region"
    case GuildRoles => "Guild roles"
    case SpecificGuildRole => "Specific guild role"
    case GuildVanityInvite => "Guild vanity invite"
    case GuildWebhooks => "Guild webhooks"
    case InviteInfo => "Invite info"
    case UserInfo => "User info"
    case UserConnections => "User connections"
    case UserChannels => "User channels"
    case UserInGuild => "User in guild"
    case GuildFromUser => "Guild from user"
    case VoiceRegionList => "Voice region list"
    case CurrentApplicationInfo => "Current application info"
    case UnknownPath => UnknownLabel
  }

  /** The variants the label match names explicitly. */
  predicate Named(k: Kind)
  {
    !(k.ChannelsIdRecipients? || k.GuildsIdEmbed?)
  }

  /** `path_name` as a case analysis: the label the match gives each
      variant, whatever ids it carries; the wildcard arm gives the
      unknown label. */
  function LabelOf(p: Path): Label
  {
    match p.kind
    case ChannelsId => Channel
    case ChannelsIdInvites => ChannelInvite
    case ChannelsIdMessages => ChannelMessage
    case ChannelsIdMessagesBulkDelete => BulkDeleteMessage
    case ChannelsIdMessagesId => ChannelMessage
    case ChannelsIdMessagesIdReactions => MessageReaction
    case ChannelsIdMessagesIdReactionsUserIdType => MessageReactionForUser
    case ChannelsIdPermissionsOverwriteId => ChannelPermissionOverride
    case ChannelsIdPins => ChannelPins
    case ChannelsIdPinsMessageId => SpecificChannelPin
    case ChannelsIdTyping => TypingIndicator
    case ChannelsIdWebhooks => Webhook
    case Gateway => Label.Gateway
    case GatewayBot => GatewayBotInfo
    case Guilds => Label.Guilds
    case GuildsId => Guild
    case GuildsIdBans => GuildBans
    case GuildsIdAuditLogs => GuildAuditLogs
    case GuildsIdBansUserId => GuildBanForUser
    case GuildsIdChannels => GuildChannel
    case GuildsIdWidget => GuildWidget
    case GuildsIdEmojis => GuildEmoji
    case GuildsIdEmojisId => SpecificGuildEmoji
    case GuildsIdIntegrations => GuildIntegrations
    case GuildsIdIntegrationsId => SpecificGuildIntegration
    case GuildsIdIntegrationsIdSync => SyncGuildIntegration
    case GuildsIdInvites => GuildInvites
    case GuildsIdMembers => GuildMembers
    case GuildsIdMembersId => SpecificGuildMember
    case GuildsIdMembersIdRolesId => GuildMemberRole
    case GuildsIdMembersMeNick => ModifyOwnNickname
    case GuildsIdPreview => GuildPreview
    case GuildsIdPrune => GuildPrune
    case GuildsIdRegions => GuildRegion
    case GuildsIdRoles => GuildRoles
    case GuildsIdRolesId => SpecificGuildRole
    case GuildsIdVanityUrl => GuildVanityInvite
    case GuildsIdWebhooks => GuildWebhooks
    case InvitesCode => InviteInfo
    case UsersId => UserInfo
    case UsersIdConnections => UserConnections
    case UsersIdChannels => UserChannels
    case UsersIdGuilds => UserInGuild
    case UsersIdGuildsId => GuildFromUser
    case VoiceRegions => VoiceRegionList
    case WebhooksId => Webhook
    case OauthApplicationsMe => CurrentApplicationInfo
    case _ => UnknownPath
  }

  /** `path_name`: the metrics label of a route, always one of the fixed
      literals of the match. */
  function PathName(p: Path): (name: string)
    ensures name in Labels
  {
    LabelText(LabelOf(p))
  }

  /** The label ignores the ids a route carries. */
  lemma LabelIgnoresIds(p: Path, q: Path)
    requires p.kind == q.kind
    ensures PathName(p) == PathName(q)
  {
  }

  /** The wildcard arm is taken exactly by the variants the match does not
      name. */
  lemma {:induction false} UnknownExactlyWhenUnnamedVariant(p: Path)
    ensures LabelOf(p) == UnknownPath <==> !Named(p.kind)
  {
    match p.kind
    case ChannelsId =>
    case ChannelsIdInvites =>
    case ChannelsIdMessages =>
    case ChannelsIdMessagesBulkDelete =>
    case ChannelsIdMessagesId =>
    case ChannelsIdMessagesIdReactions =>
    case ChannelsIdMessagesIdReactionsUserIdType =>
    case ChannelsIdPermissionsOverwriteId =>
    case ChannelsIdPins =>
    case ChannelsIdPinsMessageId =>
    case ChannelsIdTyping =>
    case ChannelsIdWebhooks =>
    case Gateway =>
    case GatewayBot =>
    case Guilds =>
    case GuildsId =>
    case GuildsIdBans =>
    case GuildsIdAuditLogs =>
    case GuildsIdBansUserId =>
    case GuildsIdChannels =>
    case GuildsIdWidget =>
    case GuildsIdEmojis =>
    case GuildsIdEmojisId =>
    case GuildsIdIntegrations =>
    case GuildsIdIntegrationsId =>
    case GuildsIdIntegrationsIdSync =>
    case GuildsIdInvites =>
    case GuildsIdMembers =>
    case GuildsIdMembersId =>
    case GuildsIdMembersIdRolesId =>
    case GuildsIdMembersMeNick =>
    case GuildsIdPreview =>
    case GuildsIdPrune =>
    case GuildsIdRegions =>
    case GuildsIdRoles =>
    case GuildsIdRolesId =>
    case GuildsIdVanityUrl =>
    case GuildsIdWebhooks =>
    case InvitesCode =>
    case UsersId =>
    case UsersIdConnections =>
    case UsersIdChannels =>
    case UsersIdGuilds =>
    case UsersIdGuildsId =>
    case VoiceRegions =>
    case WebhooksId =>
    case OauthApplicationsMe =>
    case ChannelsIdRecipients =>
    case GuildsIdEmbed =>
  }

  /** No named label is written as the unknown label's literal. */
  lemma {:induction false} UnknownTextIsUnique(l: Label)
    ensures LabelText(l) == UnknownLabel <==> l == UnknownPath
  {
    match l
    case Channel =>
    case ChannelInvite =>
    case ChannelMessage =>
    case BulkDeleteMessage =>
    case MessageReaction =>
    case MessageReactionForUser =>
    case ChannelPermissionOverride =>
    case ChannelPins =>
    case SpecificChannelPin =>
    case TypingIndicator =>
    case Webhook =>
    case Gateway =>
    case GatewayBotInfo =>
    case Guilds =>
    case Guild =>
    case GuildBans =>
    case GuildAuditLogs =>
    case GuildBanForUser =>
    case GuildChannel =>
    case GuildWidget =>
    case GuildEmoji =>
    case SpecificGuildEmoji =>
    case GuildIntegrations =>
    case SpecificGuildIntegration =>
    case SyncGuildIntegration =>
    case GuildInvites =>
    case GuildMembers =>
    case SpecificGuildMember =>
    case GuildMemberRole =>
    case ModifyOwnNickname =>
    case GuildPreview =>
    case GuildPrune =>
    case GuildRegion =>
    case GuildRoles =>
    case SpecificGuildRole =>
    case GuildVanityInvite =>
    case GuildWebhooks =>
    case InviteInfo =>
    case UserInfo =>
    case UserConnections =>
    case UserChannels =>
    case UserInGuild =>
    case GuildFromUser =>
    case VoiceRegionList =>
    case CurrentApplicationInfo =>
    case UnknownPath =>
  }

  /** The unknown label goes exactly to the variants the match does not name. */
  lemma UnknownExactlyWhenUnnamed(p: Path)
    ensures PathName(p) == UnknownLabel <==> !Named(p.kind)
  {
    UnknownExactlyWhenUnnamedVariant(p);
    UnknownTextIsUnique(LabelOf(p));
  }

  /** The labelling is not injective: message routes with and without a
      message id, and channel and standalone webhook routes, share labels. */
  lemma LabelNotInjective(a: seq<Id>, b: seq<Id>)
    ensures PathName(Path(ChannelsIdMessages, a)) == PathName(Path(ChannelsIdMessagesId, b)) == "Channel message"
    ensures PathName(Path(ChannelsIdWebhooks, a)) == PathName(Path(WebhooksId, b)) == "Webhook"
    ensures exists p: Path, q: Path :: p.kind != q.kind && PathName(p) == PathName(q)
  {
    assert LabelOf(Path(ChannelsIdMessages, a)) == ChannelMessage == LabelOf(Path(ChannelsIdMessagesId, b));
    assert LabelOf(Path(ChannelsIdWebhooks, a)) == Webhook == LabelOf(Path(WebhooksId, b));
    assert Path(ChannelsIdMessages, a).kind != Path(ChannelsIdMessagesId, b).kind;
  }
}
