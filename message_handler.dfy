/**
 * `handleDiscordMessage` and `performDiscordMentionAnalysis`: the mention
 * pipeline of the PingPal Discord plugin.
 *
 * A message that contains the literal token `(@<target id>)` and carries a
 * permalink from which the three ids parse is analysed: its context
 * (guild id, channel id, server name) and sender name are resolved through
 * fallbacks, the model's answer is validated into a classification (with a
 * fail-safe), one processed record is appended to the log, and the mention is
 * relayed to Telegram when it was classified important.
 *
 * Every runtime collaborator is an input: the settings (`Config`), the room,
 * world and entity lookups, the model's response, whether the log query and
 * the log append throw, the clock, and the Telegram service
 * (`Collaborators`). `parseJSONObjectFromText` is the uninterpreted function
 * `parseJson`. The processed log and the Telegram outbox are the state.
 */
module MessageHandler {
  import opened Truthiness
  import opened DiscordUrl
  import opened NotificationHandler
  import opened MarkdownV2

  // ---------------------------------------------------------------------------
  // Inputs

  /** The two settings, each read with `runtime.getSetting` and then from the environment. */
  datatype Config = Config(
    discordSetting: Option<string>,   // pingpal_discord.targetDiscordUserId
    discordEnv: Option<string>,       // PINGPAL_TARGET_DISCORD_USERID
    telegramSetting: Option<string>,  // pingpal.targetTelegramUserId
    telegramEnv: Option<string>)      // PINGPAL_TARGET_TELEGRAM_USERID

  /** The incoming Discord memory: its ids, `content.text`, `content.url` and `createdAt`. */
  datatype DiscordMessage = DiscordMessage(
    id: string, roomId: string, entityId: string,
    text: Option<string>, url: Option<string>, createdAt: Option<int>)

  /** `room.metadata.discord.guildName` and `room.metadata.guildName`. */
  datatype RoomMetadata = RoomMetadata(discordGuildName: Option<string>, guildName: Option<string>)

  datatype Room = Room(
    serverId: Option<string>, channelId: Option<string>, worldId: Option<string>,
    metadata: RoomMetadata)

  /** `runtime.getRoom(roomId)`: throws, resolves to null, or resolves to a room. */
  datatype RoomLookup = RoomLookupThrows | RoomNotFound | RoomFound(room: Room)

  /** `runtime.getWorld(worldId)`: throws, null, or a world with an optional name. */
  datatype WorldLookup = WorldLookupThrows | WorldNotFound | WorldFound(name: Option<string>)

  /** `entity.names` and `entity.metadata.discord.username`. */
  datatype Entity = Entity(names: Option<seq<string>>, discordUsername: Option<string>)

  /** `runtime.getEntityById(entityId)`. */
  datatype EntityLookup = EntityLookupThrows | EntityNotFound | EntityFound(entity: Entity)

  /**
   * A non-null object as the validator sees it: `important` is `Some` when
   * that property holds a boolean, `reason` is `Some` when it holds a string.
   */
  datatype JsonObject = JsonObject(important: Option<bool>, reason: Option<string>)

  /** What `runtime.useModel` produces: an object, a string, any other value, or a throw. */
  datatype ModelResponse = ObjectResponse(obj: JsonObject) | StringResponse(text: string) | OtherResponse | ModelThrows

  /** What `parseJSONObjectFromText` produces: an object, or null (or a non-object). */
  datatype ParsedJson = ParsedObject(obj: JsonObject) | NotAnObject

  /** The results the runtime's collaborators give for one message. */
  datatype Collaborators = Collaborators(
    logQueryThrows: bool,    // runtime.getMemories
    room: RoomLookup,
    world: WorldLookup,      // consulted only when the room has a worldId
    sender: EntityLookup,
    response: ModelResponse,
    appendThrows: bool,      // runtime.createMemory
    now: int,                // Date.now()
    telegram: TelegramService)

  // ---------------------------------------------------------------------------
  // Results

  /** The ids and server name used for the prompt and the record. */
  datatype Context = Context(guildId: string, channelId: string, serverName: string)

  datatype Classification = Classification(important: bool, reason: string)

  /** The `pingpal_discord_processed` memory written for an analysed mention. */
  datatype ProcessedRecord = ProcessedRecord(
    entityId: string, roomId: string, agentId: string, createdAt: int,
    text: string, kind: string,
    originalDiscordMessageId: string, notifiedViaTelegram: bool, analysisResult: string,
    guildId: string, channelId: string,
    originalSenderId: string, originalTimestamp: Option<int>)

  /** How one delivery ended. */
  datatype Outcome =
    | NotConfigured     // no target Discord user id
    | NoMention         // the mention token does not occur in the text
    | UrlMissing        // no message URL
    | IdsUnparsable     // the URL does not yield the three ids
    | LogQueryFailed    // the processed-log query threw
    | Analysed(context: Context, senderName: string, classification: Classification,
               record: ProcessedRecord, recorded: bool, notification: Option<SendOutcome>)

  const RecordKind: string := "pingpal_discord_processed"

  const FailSafe: Classification := Classification(false, "LLM analysis failed.")

  const UnknownServer: string := "Unknown Server"

  const UnknownUser: string := "Unknown User"

  // ---------------------------------------------------------------------------
  // Mention gate

  /** `getSetting("pingpal_discord.targetDiscordUserId") || PINGPAL_TARGET_DISCORD_USERID`, "" when falsy. */
  function TargetDiscordUserId(cfg: Config): (r: string)
    ensures Truthy(cfg.discordSetting) ==> r == cfg.discordSetting.value
    ensures !Truthy(cfg.discordSetting) && Truthy(cfg.discordEnv) ==> r == cfg.discordEnv.value
    ensures r == "" <==> !Truthy(cfg.discordSetting) && !Truthy(cfg.discordEnv)
  {
    var candidates := [cfg.discordSetting, cfg.discordEnv];
    assert candidates[0] == cfg.discordSetting && candidates[1] == cfg.discordEnv;
    FirstTruthy(candidates, "")
  }

  /** `content?.text || ""`. */
  function MessageText(msg: DiscordMessage): (r: string)
    ensures msg.text.Some? ==> r == msg.text.value
    ensures msg.text.None? ==> r == ""
  {
    FirstTruthy([msg.text], "")
  }

  /** The token `(@<id>)` the handler looks for. */
  function MentionPattern(targetId: string): (r: string)
    ensures |r| == |targetId| + 3
    ensures r[..2] == "(@" && r[2..|r| - 1] == targetId && r[|r| - 1] == ')'
  {
    "(@" + targetId + ")"
  }

  ghost predicate OccursAt(text: string, pattern: string, i: nat) {
    i + |pattern| <= |text| && text[i..i + |pattern|] == pattern
  }

  /** `text.includes(pattern)` for the suffix of `text` from offset `from`. */
  function IncludesFrom(text: string, pattern: string, from: nat): (r: bool)
    requires from <= |text|
    ensures r <==> exists i: nat :: from <= i && OccursAt(text, pattern, i)
    decreases |text| - from
  {
    if from + |pattern| > |text| then false
    else if text[from..from + |pattern|] == pattern then
      assert OccursAt(text, pattern, from);
      true
    else IncludesFrom(text, pattern, from + 1)
  }

  /** `text.includes(pattern)`: an exact, case-sensitive substring test. */
  function Includes(text: string, pattern: string): (r: bool)
    ensures r <==> exists i: nat :: OccursAt(text, pattern, i)
  {
    IncludesFrom(text, pattern, 0)
  }

  // ---------------------------------------------------------------------------
  // Context and sender resolution

  function RoomServerId(room: RoomLookup): Option<string> {
    if room.RoomFound? then room.room.serverId else None
  }

  function RoomChannelId(room: RoomLookup): Option<string> {
    if room.RoomFound? then room.room.channelId else None
  }

  /**
   * The server-name sources in priority order: the world's name (only when
   * the room has a worldId and the world lookup returns a world), then the
   * two metadata names. Without a room there is none.
   */
  function ServerNameCandidates(room: RoomLookup, world: WorldLookup): seq<Option<string>> {
    match room
    case RoomFound(r) =>
      (if Truthy(r.worldId) && world.WorldFound? then [world.name] else [])
      + [r.metadata.discordGuildName, r.metadata.guildName]
    case _ => []
  }

  /**
   * The context the analysis uses: the room's truthy ids replace the URL's,
   * and the server name is the first truthy source, else "Unknown Server".
   */
  function ResolveContext(ids: DiscordIds, room: RoomLookup, world: WorldLookup): (ctx: Context)
    ensures ids.guildId != "" ==> ctx.guildId != ""
    ensures ids.channelId != "" ==> ctx.channelId != ""
    ensures ctx.serverName != ""
    ensures !room.RoomFound? ==> ctx == Context(ids.guildId, ids.channelId, UnknownServer)
  {
    var guilds := [RoomServerId(room), Some(ids.guildId)];
    var channels := [RoomChannelId(room), Some(ids.channelId)];
    assert ids.guildId != "" ==> Truthy(guilds[1]);
    assert ids.channelId != "" ==> Truthy(channels[1]);
    Context(
      FirstTruthy(guilds, ""),
      FirstTruthy(channels, ""),
      FirstTruthy(ServerNameCandidates(room, world), UnknownServer))
  }

  /**
   * The room step of the analysis: the URL's ids and "Unknown Server",
   * overridden by the room's truthy ids and by the first truthy name among the
   * world's name and the two metadata names. A room, world or lookup that
   * throws leaves the values it would have set as they were.
   */
  method ResolveRoomContext(ids: DiscordIds, room: RoomLookup, world: WorldLookup) returns (ctx: Context)
    ensures ctx == ResolveContext(ids, room, world)
  {
    var guildIdForContext := ids.guildId;
    var channelIdForContext := ids.channelId;
    var serverName := UnknownServer;
    match room {
      case RoomFound(r) =>
        if Truthy(r.serverId) {
          guildIdForContext := r.serverId.value;
        }
        if Truthy(r.channelId) {
          channelIdForContext := r.channelId.value;
        }
        var metadataNames := [r.metadata.discordGuildName, r.metadata.guildName];
        if Truthy(r.worldId) && world.WorldFound? && Truthy(world.name) {
          serverName := world.name.value;
        } else {
          serverName := FirstTruthy(metadataNames, serverName);
          MetadataNameFallback(ids, r, world);
        }
      case _ =>
    }
    ctx := Context(guildIdForContext, channelIdForContext, serverName);
  }

  /** The sender lookup: the first name, then the Discord username, then the placeholder. */
  method ResolveSenderName(sender: EntityLookup) returns (name: string)
    ensures name == SenderName(sender)
  {
    name := UnknownUser;
    match sender {
      case EntityFound(entity) =>
        name := FirstTruthy([FirstName(entity.names), entity.discordUsername], name);
      case _ =>
    }
  }

  /** `names?.[0]`. */
  function FirstName(names: Option<seq<string>>): Option<string> {
    if names.Some? && |names.value| > 0 then Some(names.value[0]) else None
  }

  function SenderCandidates(sender: EntityLookup): seq<Option<string>> {
    match sender
    case EntityFound(e) => [FirstName(e.names), e.discordUsername]
    case _ => []
  }

  /**
   * The sender's display name: the first truthy of `names[0]` and
   * `metadata.discord.username`, else "Unknown User".
   */
  function SenderName(sender: EntityLookup): (r: string)
    ensures r != ""
    ensures !sender.EntityFound? ==> r == UnknownUser
    ensures r == UnknownUser || (sender.EntityFound? &&
              (Some(r) == FirstName(sender.entity.names) || Some(r) == sender.entity.discordUsername))
    ensures sender.EntityFound? && Truthy(FirstName(sender.entity.names)) ==>
              r == FirstName(sender.entity.names).value
    ensures sender.EntityFound? && !Truthy(FirstName(sender.entity.names)) && Truthy(sender.entity.discordUsername) ==>
              r == sender.entity.discordUsername.value
  {
    var candidates := SenderCandidates(sender);
    assert sender.EntityFound? ==> candidates[1..] == [candidates[1]];
    FirstTruthy(candidates, UnknownUser)
  }

  // ---------------------------------------------------------------------------
  // Classification

  /** `typeof important === "boolean" && typeof reason === "string"`. */
  predicate MatchesSchema(o: JsonObject) {
    o.important.Some? && o.reason.Some?
  }

  /**
   * The validator with its fail-safe: a well-typed object is taken as it is,
   * a string is parsed and then checked the same way, and everything else
   * (another value, a parse that gives no well-typed object, a throw) gives
   * `{important: false, reason: "LLM analysis failed."}`.
   */
  function Classify(response: ModelResponse, parseJson: string -> ParsedJson): (c: Classification)
    ensures response.ObjectResponse? && MatchesSchema(response.obj) ==>
              c == Classification(response.obj.important.value, response.obj.reason.value)
    ensures response.StringResponse? && parseJson(response.text).ParsedObject? &&
            MatchesSchema(parseJson(response.text).obj) ==>
              c == Classification(parseJson(response.text).obj.important.value,
                                  parseJson(response.text).obj.reason.value)
    ensures c.important ==>
              || (response.ObjectResponse? && response.obj.important == Some(true))
              || (response.StringResponse? && parseJson(response.text).ParsedObject? &&
                  parseJson(response.text).obj.important == Some(true))
    ensures c != FailSafe ==>
              || (response.ObjectResponse? && MatchesSchema(response.obj))
              || (response.StringResponse? && parseJson(response.text).ParsedObject? &&
                  MatchesSchema(parseJson(response.text).obj))
  {
    var answer: Option<JsonObject> :=
      match response
      case ObjectResponse(obj) => Some(obj)
      case StringResponse(text) =>
        (match parseJson(text)
         case ParsedObject(obj) => Some(obj)
         case NotAnObject => None)
      case _ => None;
    if answer.Some? && MatchesSchema(answer.value) then
      Classification(answer.value.important.value, answer.value.reason.value)
    else FailSafe
  }

  // ---------------------------------------------------------------------------
  // Record and the analysis as a function

  /** `${boolean}` in a template literal. */
  function BoolText(b: bool): string {
    if b then "true" else "false"
  }

  function RecordText(messageId: string, important: bool, reason: string): string {
    "[PingPal Discord] Processed mention from Discord message " + messageId
    + ". Important: " + BoolText(important) + ". Reason: " + reason
  }

  function BuildRecord(
    agentId: string, msg: DiscordMessage, messageId: string, ctx: Context,
    c: Classification, now: int): ProcessedRecord
  {
    ProcessedRecord(
      agentId, msg.roomId, agentId, now,
      RecordText(messageId, c.important, c.reason), RecordKind,
      messageId, c.important, c.reason,
      ctx.guildId, ctx.channelId,
      msg.entityId, msg.createdAt)
  }

  /** The shape every record the handler writes has. */
  ghost predicate WellFormed(r: ProcessedRecord) {
    && DigitRun(r.originalDiscordMessageId)
    && r.guildId != "" && r.channelId != ""
    && r.kind == RecordKind
    && r.entityId == r.agentId
    && r.text == RecordText(r.originalDiscordMessageId, r.notifiedViaTelegram, r.analysisResult)
  }

  /** A record built from parsed ids and a resolved context has the shape of every record. */
  lemma RecordWellFormed(agentId: string, msg: DiscordMessage, ids: DiscordIds, ctx: Context, c: Classification, now: int)
    requires DigitRun(ids.messageId) && ctx.guildId != "" && ctx.channelId != ""
    ensures WellFormed(BuildRecord(agentId, msg, ids.messageId, ctx, c, now))
  {
  }

  /** The notification step: only an important classification is relayed. */
  function NotificationFor(cfg: Config, env: Collaborators, details: NotificationDetails, c: Classification): Option<SendOutcome> {
    if c.important
    then Some(NotificationOutcome(env.telegram, cfg.telegramSetting, cfg.telegramEnv, details, c.reason))
    else None
  }

  /** The notification step as the handler runs it, against the outbox. */
  method NotifyIfImportant(
    outbox: TelegramOutbox, cfg: Config, env: Collaborators,
    details: NotificationDetails, c: Classification) returns (notification: Option<SendOutcome>)
    requires outbox.Valid()
    modifies outbox
    ensures outbox.Valid()
    ensures notification == NotificationFor(cfg, env, details, c)
    ensures outbox.sent == old(outbox.sent)
              + (if notification.Some? && notification.value.Sent? then [notification.value.message] else [])
  {
    notification := None;
    if c.important {
      var sent := SendPrivateNotification(outbox, env.telegram, cfg.telegramSetting, cfg.telegramEnv,
                                          details, c.reason);
      notification := Some(sent);
    }
  }

  /** What `performDiscordMentionAnalysis` does with one message. */
  function AnalysisOutcome(
    agentId: string, cfg: Config, msg: DiscordMessage, env: Collaborators,
    parseJson: string -> ParsedJson): (o: Outcome)
    ensures !Truthy(msg.url) ==> o == UrlMissing
    ensures o.Analysed? <==> ParseDiscordUrl(msg.url).Some?
    ensures o.Analysed? ==>
              && o.classification == Classify(env.response, parseJson)
              && o.record.notifiedViaTelegram == o.classification.important
              && o.record.analysisResult == o.classification.reason
              && o.record.originalDiscordMessageId == ParseDiscordUrl(msg.url).value.messageId
              && o.record.guildId == o.context.guildId && o.record.channelId == o.context.channelId
              && o.record.originalSenderId == msg.entityId
              && o.recorded == !env.appendThrows
              && (o.notification.Some? <==> o.classification.important)
              && WellFormed(o.record)
    ensures o.Analysed? ==>
              && o.context == ResolveContext(ParseDiscordUrl(msg.url).value, env.room, env.world)
              && o.senderName == SenderName(env.sender)
              && o.record.agentId == agentId && o.record.roomId == msg.roomId
              && o.record.createdAt == env.now && o.record.originalTimestamp == msg.createdAt
              && o.notification == NotificationFor(cfg, env,
                   NotificationDetails(MessageText(msg), o.senderName, o.context.serverName,
                                       msg.url.value, o.record.originalDiscordMessageId),
                   o.classification)
  {
    if !Truthy(msg.url) then UrlMissing
    else
      match ParseDiscordUrl(msg.url)
      case None => IdsUnparsable
      case Some(ids) => MentionAnalysis(agentId, cfg, msg, env, parseJson, ids)
  }

  /** The analysis of a mention whose URL yielded `ids`. */
  function MentionAnalysis(
    agentId: string, cfg: Config, msg: DiscordMessage, env: Collaborators,
    parseJson: string -> ParsedJson, ids: DiscordIds): Outcome
    requires Truthy(msg.url)
  {
    var ctx := ResolveContext(ids, env.room, env.world);
    var sender := SenderName(env.sender);
    var c := Classify(env.response, parseJson);
    var record := BuildRecord(agentId, msg, ids.messageId, ctx, c, env.now);
    var details := NotificationDetails(MessageText(msg), sender, ctx.serverName, msg.url.value, ids.messageId);
    Analysed(ctx, sender, c, record, !env.appendThrows, NotificationFor(cfg, env, details, c))
  }

  /** What `handleDiscordMessage` does with one message. */
  function HandleOutcome(
    agentId: string, cfg: Config, msg: DiscordMessage, env: Collaborators,
    parseJson: string -> ParsedJson): (o: Outcome)
    ensures TargetDiscordUserId(cfg) == "" ==> o == NotConfigured
    ensures TargetDiscordUserId(cfg) != "" ==>
              (o == NoMention <==> !Includes(MessageText(msg), MentionPattern(TargetDiscordUserId(cfg))))
    ensures o.Analysed? <==>
              && TargetDiscordUserId(cfg) != ""
              && Includes(MessageText(msg), MentionPattern(TargetDiscordUserId(cfg)))
              && ParseDiscordUrl(msg.url).Some?
              && !env.logQueryThrows
    ensures o.Analysed? ==> o == AnalysisOutcome(agentId, cfg, msg, env, parseJson)
  {
    var targetId := TargetDiscordUserId(cfg);
    if targetId == "" then NotConfigured
    else if !Includes(MessageText(msg), MentionPattern(targetId)) then NoMention
    else if !Truthy(msg.url) then UrlMissing
    else if ParseDiscordUrl(msg.url).None? then IdsUnparsable
    else if env.logQueryThrows then LogQueryFailed
    else AnalysisOutcome(agentId, cfg, msg, env, parseJson)
  }

  /** The record an outcome adds to the log. */
  function Appended(o: Outcome): seq<ProcessedRecord> {
    if o.Analysed? && o.recorded then [o.record] else []
  }

  /** The Telegram message an outcome adds to the outbox. */
  function Dispatched(o: Outcome): seq<TelegramMessage> {
    if o.Analysed? && o.notification.Some? && o.notification.value.Sent?
    then [o.notification.value.message] else []
  }

  /** `getMemories({ tableName, agentId, roomId, count })`: up to `count` records of the room. */
  function RecentProcessed(log: seq<ProcessedRecord>, agentId: string, roomId: string, count: nat): (r: seq<ProcessedRecord>)
    ensures |r| <= count
    ensures forall x :: x in r ==> x in log && x.agentId == agentId && x.roomId == roomId
  {
    if log == [] || count == 0 then []
    else
      var last := log[|log| - 1];
      if last.agentId == agentId && last.roomId == roomId
      then [last] + RecentProcessed(log[..|log| - 1], agentId, roomId, count - 1)
      else RecentProcessed(log[..|log| - 1], agentId, roomId, count)
  }

  // ---------------------------------------------------------------------------
  // The handler

  class PingPal {
    const agentId: string
    const outbox: TelegramOutbox
    /** The `pingpal_discord_processed` table, oldest record first. */
    var log: seq<ProcessedRecord>

    ghost predicate Valid()
      reads this, outbox
    {
      (forall r :: r in log ==> WellFormed(r)) && outbox.Valid()
    }

    constructor (agentId: string, outbox: TelegramOutbox)
      requires outbox.Valid()
      ensures Valid()
      ensures this.agentId == agentId && this.outbox == outbox && log == []
    {
      this.agentId := agentId;
      this.outbox := outbox;
      log := [];
    }

    /** `performDiscordMentionAnalysis`. */
    method PerformDiscordMentionAnalysis(
      cfg: Config, msg: DiscordMessage, env: Collaborators,
      parseJson: string -> ParsedJson) returns (o: Outcome)
      requires Valid()
      modifies this, outbox
      ensures Valid()
      ensures o == AnalysisOutcome(agentId, cfg, msg, env, parseJson)
      ensures log == old(log) + Appended(o)
      ensures outbox.sent == old(outbox.sent) + Dispatched(o)
    {
      if !Truthy(msg.url) {
        return UrlMissing;
      }
      var messageUrl := msg.url.value;
      var parsed := ParseDiscordUrl(msg.url);
      if parsed.None? {
        return IdsUnparsable;
      }
      var ids := parsed.value;
      assert AnalysisOutcome(agentId, cfg, msg, env, parseJson) == MentionAnalysis(agentId, cfg, msg, env, parseJson, ids);

      var context := ResolveRoomContext(ids, env.room, env.world);
      var serverName := context.serverName;
      // The URL ids are non-empty digit runs and the room only replaces them
      // by truthy values, so the URL fallback and the abort for missing
      // context ids that follow the room lookup never take effect.
      assert context.guildId != "" && context.channelId != "";

      var messageText := MessageText(msg);
      var senderName := ResolveSenderName(env.sender);

      var analysisResult := Classify(env.response, parseJson);
      var record := BuildRecord(agentId, msg, ids.messageId, context, analysisResult, env.now);
      var recorded := !env.appendThrows;
      RecordWellFormed(agentId, msg, ids, context, analysisResult, env.now);
      if recorded {
        log := log + [record];
      }

      var details := NotificationDetails(messageText, senderName, serverName, messageUrl, ids.messageId);
      var notification := NotifyIfImportant(outbox, cfg, env, details, analysisResult);
      o := Analysed(context, senderName, analysisResult, record, recorded, notification);
    }

    /**
     * `handleDiscordMessage`. The processed log is queried, but what the
     * query returns is never looked at: the outcome does not depend on the
     * log, so a re-delivered message is analysed, recorded and notified again.
     */
    method HandleDiscordMessage(
      cfg: Config, msg: DiscordMessage, env: Collaborators,
      parseJson: string -> ParsedJson) returns (o: Outcome)
      requires Valid()
      modifies this, outbox
      ensures Valid()
      ensures o == HandleOutcome(agentId, cfg, msg, env, parseJson)
      ensures log == old(log) + Appended(o)
      ensures outbox.sent == old(outbox.sent) + Dispatched(o)
    {
      var targetDiscordUserId := TargetDiscordUserId(cfg);
      if targetDiscordUserId == "" {
        return NotConfigured;
      }
      var messageText := MessageText(msg);
      var mentionPattern := MentionPattern(targetDiscordUserId);
      var mentionDetected := Includes(messageText, mentionPattern);
      if !mentionDetected {
        return NoMention;
      }
      if !Truthy(msg.url) {
        return UrlMissing;
      }
      var parsed := ParseDiscordUrl(msg.url);
      if parsed.None? {
        return IdsUnparsable;
      }
      if env.logQueryThrows {
        return LogQueryFailed;
      }
      var existingLogs := RecentProcessed(log, agentId, msg.roomId, 50);
      o := PerformDiscordMentionAnalysis(cfg, msg, env, parseJson);
    }
  }

  // ---------------------------------------------------------------------------
  // Properties

  /** Without a configured target nothing is analysed, recorded or sent. */
  lemma UnconfiguredDoesNothing(agentId: string, cfg: Config, msg: DiscordMessage, env: Collaborators,
                                parseJson: string -> ParsedJson)
    requires TargetDiscordUserId(cfg) == ""
    ensures Appended(HandleOutcome(agentId, cfg, msg, env, parseJson)) == []
    ensures Dispatched(HandleOutcome(agentId, cfg, msg, env, parseJson)) == []
  {
  }

  /** The server name from the world beats the room's metadata names. */
  lemma WorldNameWins(ids: DiscordIds, r: Room, name: string)
    requires Truthy(r.worldId) && name != ""
    ensures ResolveContext(ids, RoomFound(r), WorldFound(Some(name))).serverName == name
  {
  }

  /**
   * When the world gives no name (it throws, is null or has a falsy name),
   * the metadata names are tried in order, then "Unknown Server".
   */
  lemma MetadataNameFallback(ids: DiscordIds, r: Room, world: WorldLookup)
    requires !Truthy(r.worldId) || !world.WorldFound? || !Truthy(world.name)
    ensures ResolveContext(ids, RoomFound(r), world).serverName ==
            FirstTruthy([r.metadata.discordGuildName, r.metadata.guildName], UnknownServer)
  {
    var candidates := ServerNameCandidates(RoomFound(r), world);
    var metadataNames := [r.metadata.discordGuildName, r.metadata.guildName];
    if Truthy(r.worldId) && world.WorldFound? {
      assert candidates == [world.name] + metadataNames;
      assert candidates[1..] == metadataNames;
    } else {
      assert candidates == metadataNames;
    }
  }

  /** The room's truthy ids replace those of the URL. */
  lemma RoomIdsOverrideUrl(ids: DiscordIds, r: Room, world: WorldLookup)
    ensures Truthy(r.serverId) ==> ResolveContext(ids, RoomFound(r), world).guildId == r.serverId.value
    ensures Truthy(r.channelId) ==> ResolveContext(ids, RoomFound(r), world).channelId == r.channelId.value
    ensures !Truthy(r.serverId) ==> ResolveContext(ids, RoomFound(r), world).guildId == ids.guildId
    ensures !Truthy(r.channelId) ==> ResolveContext(ids, RoomFound(r), world).channelId == ids.channelId
  {
  }

  /** A throwing model yields a fail-safe record and no notification. */
  lemma ThrowingModelIsRecordedNotNotified(agentId: string, cfg: Config, msg: DiscordMessage,
                                           env: Collaborators, parseJson: string -> ParsedJson)
    requires env.response == ModelThrows
    requires HandleOutcome(agentId, cfg, msg, env, parseJson).Analysed?
    ensures var o := HandleOutcome(agentId, cfg, msg, env, parseJson);
            && !o.record.notifiedViaTelegram
            && o.record.analysisResult == "LLM analysis failed."
            && Dispatched(o) == []
            && (env.appendThrows || Appended(o) == [o.record])
  {
  }

  /** A failed log append changes nothing about the notification. */
  lemma AppendFailureDoesNotBlockNotification(agentId: string, cfg: Config, msg: DiscordMessage,
                                              env: Collaborators, parseJson: string -> ParsedJson)
    ensures Dispatched(HandleOutcome(agentId, cfg, msg, env.(appendThrows := true), parseJson))
         == Dispatched(HandleOutcome(agentId, cfg, msg, env.(appendThrows := false), parseJson))
  {
  }

  /** The model answer `{"important": true, "reason": "deadline today."}` passes the schema check as it is. */
  lemma DeadlineAnswerIsImportant(parseJson: string -> ParsedJson)
    ensures Classify(ObjectResponse(JsonObject(Some(true), Some("deadline today."))), parseJson)
         == Classification(true, "deadline today.")
  {
  }

  /**
   * An important mention whose model answer is `{"important": true, "reason":
   * "deadline today."}` reaches Telegram with the period escaped.
   */
  lemma DeadlineMentionIsRelayed(agentId: string, cfg: Config, msg: DiscordMessage,
                                 env: Collaborators, parseJson: string -> ParsedJson)
    requires env.response == ObjectResponse(JsonObject(Some(true), Some("deadline today.")))
    requires env.telegram == ServiceHandle(true)
    requires TargetTelegramUserId(cfg.telegramSetting, cfg.telegramEnv) != ""
    requires HandleOutcome(agentId, cfg, msg, env, parseJson).Analysed?
    ensures var o := HandleOutcome(agentId, cfg, msg, env, parseJson);
            Dispatched(o) == [TelegramMessage(
              TargetTelegramUserId(cfg.telegramSetting, cfg.telegramEnv),
              Template(Escape(OrElse(o.senderName, "Unknown User")),
                       Escape(OrElse(o.context.serverName, "Unknown Server")),
                       "deadline today\\.",
                       Escape(OrElse(MessageText(msg), "No message content")),
                       msg.url.value),
              ParseMode)]
  {
    var o := HandleOutcome(agentId, cfg, msg, env, parseJson);
    assert o == AnalysisOutcome(agentId, cfg, msg, env, parseJson);
    var ids := ParseDiscordUrl(msg.url).value;
    var details := NotificationDetails(MessageText(msg), o.senderName, o.context.serverName,
                                       msg.url.value, ids.messageId);
    var c := Classification(true, "deadline today.");
    DeadlineAnswerIsImportant(parseJson);
    assert o.notification == NotificationFor(cfg, env, details, c);
    var sent := NotificationOutcome(env.telegram, cfg.telegramSetting, cfg.telegramEnv, details, c.reason);
    assert o.notification == Some(sent);
    assert sent.message == TelegramMessage(TargetTelegramUserId(cfg.telegramSetting, cfg.telegramEnv),
                                           ComposeNotificationText(details, c.reason), ParseMode);
    DeadlineReasonRendered(details);
  }

  /**
   * A message delivered twice is processed twice: the log gains the same
   * record twice and an important mention is sent twice.
   */
  method RedeliveryIsProcessedAgain(
    agent: PingPal, cfg: Config, msg: DiscordMessage, env: Collaborators,
    parseJson: string -> ParsedJson)
    requires agent.Valid()
    requires HandleOutcome(agent.agentId, cfg, msg, env, parseJson).Analysed?
    requires !env.appendThrows
    modifies agent, agent.outbox
    ensures agent.Valid()
    ensures agent.log == old(agent.log) + [HandleOutcome(agent.agentId, cfg, msg, env, parseJson).record,
                                          HandleOutcome(agent.agentId, cfg, msg, env, parseJson).record]
    ensures agent.outbox.sent == old(agent.outbox.sent)
                                 + Dispatched(HandleOutcome(agent.agentId, cfg, msg, env, parseJson))
                                 + Dispatched(HandleOutcome(agent.agentId, cfg, msg, env, parseJson))
  {
    ghost var o := HandleOutcome(agent.agentId, cfg, msg, env, parseJson);
    assert o == MentionAnalysis(agent.agentId, cfg, msg, env, parseJson, ParseDiscordUrl(msg.url).value);
    assert Appended(o) == [o.record];
    var first := agent.HandleDiscordMessage(cfg, msg, env, parseJson);
    var second := agent.HandleDiscordMessage(cfg, msg, env, parseJson);
  }
}
