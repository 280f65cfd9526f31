/**
 * `sendPrivateNotification`: the Telegram alert for an important mention.
 *
 * The Telegram service is an input (`TelegramService`): absent, or present
 * with or without the nested `bot.telegram.sendMessage` function the handler
 * probes for. The messages handed to `sendMessage` are appended to a
 * `TelegramOutbox`. Every failure is caught inside the function, so the
 * caller only ever sees it return; the `SendOutcome` says which path it took.
 */
module NotificationHandler {
  import opened Truthiness
  import opened MarkdownV2

  /** What the message handler passes in (`DiscordNotificationData`). */
  datatype NotificationDetails = NotificationDetails(
    text: string,
    senderName: string,
    serverName: string,
    messageLink: string,
    originalDiscordMessageId: string)

  /** The result of `runtime.getService("telegram")`. */
  datatype TelegramService = NoService | ServiceHandle(hasSendMessage: bool)

  /** One `sendMessage(chatId, text, { parse_mode })` call. */
  datatype TelegramMessage = TelegramMessage(chatId: string, text: string, parseMode: string)

  datatype SendOutcome =
    | ServiceNotFound             // no Telegram service: return early
    | RecipientNotConfigured      // no target Telegram user id: return early
    | ServiceStructureUnexpected  // no bot.telegram.sendMessage: thrown and caught
    | Sent(message: TelegramMessage)

  const ParseMode: string := "MarkdownV2"

  const Header: string := "*\U{1F514} PingPal Alert: Important Discord Mention*"

  /** The fixed layout of the alert, with its fields already escaped. */
  function Template(sender: string, server: string, reason: string, text: string, link: string): string {
    Header + "\n\n*From:* " + sender + "\n*Server:* " + server
    + "\n\n*Reason:* " + reason
    + "\n\n*Original Message:*\n```\n" + text + "\n```\n\n"
    + "[Link to Discord Message](" + link + ")"
  }

  /**
   * The alert text: falsy sender, server and text replaced by their
   * placeholders, those three and the reason escaped, the link left as it is.
   */
  function ComposeNotificationText(details: NotificationDetails, reason: string): string {
    Template(
      Escape(OrElse(details.senderName, "Unknown User")),
      Escape(OrElse(details.serverName, "Unknown Server")),
      Escape(reason),
      Escape(OrElse(details.text, "No message content")),
      details.messageLink)
  }

  /** `getSetting("pingpal.targetTelegramUserId") || PINGPAL_TARGET_TELEGRAM_USERID`, "" when falsy. */
  function TargetTelegramUserId(setting: Option<string>, env: Option<string>): (r: string)
    ensures Truthy(setting) ==> r == setting.value
    ensures !Truthy(setting) && Truthy(env) ==> r == env.value
    ensures r == "" <==> !Truthy(setting) && !Truthy(env)
  {
    var candidates := [setting, env];
    assert candidates[0] == setting && candidates[1] == env;
    FirstTruthy(candidates, "")
  }

  /**
   * What one call of `sendPrivateNotification` does: the service check, then
   * the recipient check, then the capability probe, in that order.
   */
  function NotificationOutcome(
    service: TelegramService, setting: Option<string>, env: Option<string>,
    details: NotificationDetails, reason: string): (o: SendOutcome)
    ensures service.NoService? ==> o == ServiceNotFound
    ensures service.ServiceHandle? && TargetTelegramUserId(setting, env) == "" ==> o == RecipientNotConfigured
    ensures o.Sent? <==> service == ServiceHandle(true) && TargetTelegramUserId(setting, env) != ""
    ensures service == ServiceHandle(false) && TargetTelegramUserId(setting, env) != "" ==>
              o == ServiceStructureUnexpected
    ensures o.Sent? ==> o.message.chatId != "" && o.message.parseMode == ParseMode
    ensures o.Sent? ==> o.message == TelegramMessage(TargetTelegramUserId(setting, env),
                                                     ComposeNotificationText(details, reason), ParseMode)
  {
    if service.NoService? then ServiceNotFound
    else
      var targetUserId := TargetTelegramUserId(setting, env);
      if targetUserId == "" then RecipientNotConfigured
      else if service.hasSendMessage then
        Sent(TelegramMessage(targetUserId, ComposeNotificationText(details, reason), ParseMode))
      else ServiceStructureUnexpected
  }

  /** The messages handed to Telegram's `sendMessage`, oldest first. */
  class TelegramOutbox {
    var sent: seq<TelegramMessage>

    /** Every message went to a configured recipient, formatted as MarkdownV2. */
    ghost predicate Valid()
      reads this
    {
      forall m :: m in sent ==> m.chatId != "" && m.parseMode == ParseMode
    }

    constructor ()
      ensures Valid() && sent == []
    {
      sent := [];
    }
  }

  /**
   * `sendPrivateNotification`: appends at most one message to the outbox and
   * never fails.
   */
  method SendPrivateNotification(
    outbox: TelegramOutbox, service: TelegramService,
    setting: Option<string>, env: Option<string>,
    details: NotificationDetails, reason: string) returns (o: SendOutcome)
    requires outbox.Valid()
    modifies outbox
    ensures outbox.Valid()
    ensures o == NotificationOutcome(service, setting, env, details, reason)
    ensures outbox.sent == old(outbox.sent) + (if o.Sent? then [o.message] else [])
  {
    if service.NoService? {
      return ServiceNotFound;
    }
    var targetUserId := TargetTelegramUserId(setting, env);
    if targetUserId == "" {
      return RecipientNotConfigured;
    }
    var senderName := Escape(OrElse(details.senderName, "Unknown User"));
    var serverName := Escape(OrElse(details.serverName, "Unknown Server"));
    var originalText := Escape(OrElse(details.text, "No message content"));
    var messageLink := details.messageLink;
    var escapedReason := Escape(reason);
    var notificationText := Template(senderName, serverName, escapedReason, originalText, messageLink);
    if service.hasSendMessage {
      var message := TelegramMessage(targetUserId, notificationText, ParseMode);
      outbox.sent := outbox.sent + [message];
      o := Sent(message);
    } else {
      // "Telegram service structure unexpected." is thrown and caught below it.
      o := ServiceStructureUnexpected;
    }
  }

  /** The sender placeholder has no reserved character, so escaping keeps it as it is. */
  lemma UnknownUserSurvivesEscaping()
    ensures Escape("Unknown User") == "Unknown User"
  {
    var user := "Unknown User";
    assert forall k :: 0 <= k < |user| ==> !IsReserved(user[k]);
    EscapeNoReserved(user);
  }

  /** Likewise the server placeholder. */
  lemma UnknownServerSurvivesEscaping()
    ensures Escape("Unknown Server") == "Unknown Server"
  {
    var server := "Unknown Server";
    assert forall k :: 0 <= k < |server| ==> !IsReserved(server[k]);
    EscapeNoReserved(server);
  }

  /** Likewise the placeholder for a message without text. */
  lemma NoContentSurvivesEscaping()
    ensures Escape("No message content") == "No message content"
  {
    var text := "No message content";
    assert forall k :: 0 <= k < |text| ==> !IsReserved(text[k]);
    EscapeNoReserved(text);
  }

  /** The alert ends with the message link, inserted without escaping. */
  lemma LinkIsLastAndUnescaped(details: NotificationDetails, reason: string)
    ensures var t := ComposeNotificationText(details, reason);
            var tail := "[Link to Discord Message](" + details.messageLink + ")";
            |tail| <= |t| && t[|t| - |tail|..] == tail
  {
  }

  /** An important reason "deadline today." is shown with its period escaped. */
  lemma DeadlineReasonRendered(details: NotificationDetails)
    ensures ComposeNotificationText(details, "deadline today.") ==
            Template(Escape(OrElse(details.senderName, "Unknown User")),
                     Escape(OrElse(details.serverName, "Unknown Server")),
                     "deadline today\\.",
                     Escape(OrElse(details.text, "No message content")),
                     details.messageLink)
  {
    EscapeDeadlineExample();
  }
}
