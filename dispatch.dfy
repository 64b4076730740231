/**
 * The `messages.upsert` handler of the private WhatsApp agent: an ordered chain
 * of early returns that decides whether the first message of a batch is a
 * slash command the owner sent to their own chat, then a fixed table that maps
 * the command keyword to the reply text sent back to the same chat.
 *
 * Sending is not performed here: the handler's effect is its result, the one
 * `Send` it would hand to the client (or none).
 */
module Dispatch {
  import opened Wrappers
  import opened Text

  /** The owner's phone number, without `+` or spaces. */
  const MyNumber: string := "923245400743"
  /** Conversation id suffix of group chats. */
  const GroupSuffix: string := "@g.us"
  /** Conversation id suffix of the LID addressing format. */
  const LidSuffix: string := "@lid"
  /** The robot emoji every reply starts with; text that starts with it is never a command. */
  const Marker: string := "\U{1F916}"
  /** Commands start with a slash. */
  const CommandPrefix: string := "/"

  /** The text-bearing part of an inbound message: the plain and the extended text field. */
  datatype Message = Message(conversation: Option<string>, extendedText: Option<string>)

  /** Who and where: the chat id and whether the owner's own account sent it (absent reads as false). */
  datatype MessageKey = MessageKey(remoteJid: Option<string>, fromMe: Option<bool>)

  /** One inbound message record; `message` is absent for stubs and protocol messages. */
  datatype WebMessage = WebMessage(key: MessageKey, message: Option<Message>)

  /** The early return that dropped a message, in the order the handler tries them. */
  datatype Rejection =
    | NoMessage    // no first message, or it has no payload
    | NoJid        // no chat id (absent or empty)
    | GroupChat    // chat id ends with the group suffix
    | LidChat      // chat id ends with the LID suffix
    | NotFromMe    // not sent by the owner's own account
    | NotOwner     // chat id does not start with the owner's number
    | NoText       // neither text field holds a non-empty string
    | BotReply     // trimmed text starts with the reply marker
    | NotCommand   // trimmed text does not start with a slash

  /** A message that passed every filter: its chat id and its trimmed text. */
  datatype Command = Command(jid: string, text: string)

  /** The one outbound message the handler sends. */
  datatype Send = Send(jid: string, text: string)

  /** JavaScript truthiness of an optional string: present and not empty. */
  predicate Truthy(s: Option<string>) {
    s.Some? && s.value != []
  }

  /**
   * `conversation || extendedTextMessage?.text`, kept only when truthy: the
   * plain text field wins when it is non-empty, otherwise the extended one.
   */
  function MessageText(m: Message): (r: Option<string>)
    ensures r.Some? ==> r.value != []
    ensures r.None? <==> !Truthy(m.conversation) && !Truthy(m.extendedText)
    ensures Truthy(m.conversation) ==> r == m.conversation
    ensures !Truthy(m.conversation) && Truthy(m.extendedText) ==> r == m.extendedText
  {
    if Truthy(m.conversation) then m.conversation
    else if Truthy(m.extendedText) then m.extendedText
    else None
  }

  /** The guards on the chat, in order: a chat id, not a group, not LID, sent by the owner's account, the owner's number. */
  function ScreenChat(key: MessageKey): (r: Result<string, Rejection>)
    ensures r.Ok? ==> key.remoteJid == Some(r.value)
  {
    if !Truthy(key.remoteJid) then Err(NoJid)
    else
      var jid := key.remoteJid.value;
      if EndsWith(jid, GroupSuffix) then Err(GroupChat)
      else if EndsWith(jid, LidSuffix) then Err(LidChat)
      else if key.fromMe != Some(true) then Err(NotFromMe)
      else if !StartsWith(jid, MyNumber) then Err(NotOwner)
      else Ok(jid)
  }

  /** The guards on the text, in order: trimmed, it must not start with the marker and must start with a slash. */
  function ScreenText(text: string): (r: Result<string, Rejection>)
    ensures r.Ok? ==> r.value == Trim(text) && StartsWith(r.value, CommandPrefix)
  {
    var clean := Trim(text);
    if StartsWith(clean, Marker) then Err(BotReply)
    else if !StartsWith(clean, CommandPrefix) then Err(NotCommand)
    else Ok(clean)
  }

  /** The whole filter chain, one early return per guard, first failure wins. */
  function Screen(first: Option<WebMessage>): (r: Result<Command, Rejection>)
    ensures r.Ok? ==> first.Some? && first.value.key.remoteJid == Some(r.value.jid)
    ensures r.Ok? ==> StartsWith(r.value.text, CommandPrefix)
    ensures r.Ok? ==> first.value.message.Some? && MessageText(first.value.message.value).Some?
                      && r.value.text == Trim(MessageText(first.value.message.value).value)
  {
    if first.None? || first.value.message.None? then Err(NoMessage)
    else match ScreenChat(first.value.key)
      case Err(e) => Err(e)
      case Ok(jid) =>
        match MessageText(first.value.message.value)
        case None => Err(NoText)
        case Some(text) =>
          match ScreenText(text)
          case Err(e) => Err(e)
          case Ok(clean) => Ok(Command(jid, clean))
  }

  /** The chat guards at once: a chat id that is neither a group nor a LID id, starts with the owner's number, and the owner's account sent it. */
  predicate OwnerChat(key: MessageKey) {
    && Truthy(key.remoteJid)
    && !EndsWith(key.remoteJid.value, GroupSuffix)
    && !EndsWith(key.remoteJid.value, LidSuffix)
    && key.fromMe == Some(true)
    && StartsWith(key.remoteJid.value, MyNumber)
  }

  /** The text guards at once, on the trimmed text: not a bot reply, and a slash command. */
  predicate CommandText(clean: string) {
    !StartsWith(clean, Marker) && StartsWith(clean, CommandPrefix)
  }

  /**
   * Every guard of the chain at once: the independent statement of which
   * messages are actionable owner commands.
   */
  predicate Actionable(first: Option<WebMessage>) {
    && first.Some?
    && first.value.message.Some?
    && OwnerChat(first.value.key)
    && MessageText(first.value.message.value).Some?
    && CommandText(Trim(MessageText(first.value.message.value).value))
  }

  /** The command keyword: the text after the slash, trimmed and lower-cased. */
  function Keyword(clean: string): (r: string)
    requires StartsWith(clean, CommandPrefix)
    ensures IsTrimmed(r) && Lower(r) == r
    ensures |r| < |clean|
  {
    LowerTrim(clean[1..]);
    LowerIdempotent(Trim(clean[1..]));
    Lower(Trim(clean[1..]))
  }

  const PongReply: string := Marker + " pong"
  const GreetingReply: string := Marker + " Hello Alishan \U{1F680}"
  const FallbackPrefix: string := Marker + " Command received: "

  /** The command table; `now` stands for the local date and time rendered when the command arrives. */
  function Reply(keyword: string, now: string): (r: string)
    ensures StartsWith(r, Marker)
  {
    if keyword == "ping" then PongReply
    else if keyword == "hi" then GreetingReply
    else if keyword == "time" then Marker + " " + now
    else FallbackPrefix + keyword
  }

  /** The handler for one message: the reply it sends, if any. */
  function HandleMessage(first: Option<WebMessage>, now: string): (r: Option<Send>)
    ensures r.Some? ==> first.Some? && Some(r.value.jid) == first.value.key.remoteJid
    ensures r.Some? ==> StartsWith(r.value.text, Marker)
  {
    match Screen(first)
    case Err(_) => None
    case Ok(cmd) => Some(Send(cmd.jid, Reply(Keyword(cmd.text), now)))
  }

  /** The `messages.upsert` handler: only the first message of a batch is looked at. */
  function HandleUpsert(messages: seq<WebMessage>, now: string): (r: Option<Send>)
    ensures messages == [] ==> r.None?
    ensures r.Some? ==> Some(r.value.jid) == messages[0].key.remoteJid
  {
    HandleMessage(if messages == [] then None else Some(messages[0]), now)
  }

  // ---------------------------------------------------------------------------
  // The filter chain

  /** The chat stage lets a key through exactly when every chat guard holds. */
  lemma ScreenChatIff(key: MessageKey)
    ensures ScreenChat(key).Ok? <==> OwnerChat(key)
  {
  }

  /** The text stage lets a text through exactly when its trimmed form is a command and not a bot reply. */
  lemma ScreenTextIff(text: string)
    ensures ScreenText(text).Ok? <==> CommandText(Trim(text))
  {
  }

  /** The chain and the conjunction of its guards agree on every message: a reply is sent exactly when every guard passes. */
  lemma ReplyIffActionable(first: Option<WebMessage>, now: string)
    ensures Screen(first).Ok? <==> Actionable(first)
    ensures HandleMessage(first, now).Some? <==> Actionable(first)
  {
    if first.Some? {
      ScreenChatIff(first.value.key);
      if first.value.message.Some? && MessageText(first.value.message.value).Some? {
        ScreenTextIff(MessageText(first.value.message.value).value);
      }
    }
  }

  /** Group chats are dropped before the sender, the owner or the text is looked at. */
  lemma GroupChatRejectedFirst(first: Option<WebMessage>)
    requires first.Some? && first.value.message.Some? && Truthy(first.value.key.remoteJid)
    requires EndsWith(first.value.key.remoteJid.value, GroupSuffix)
    ensures Screen(first) == Err(GroupChat)
  {
  }

  /** LID chats that are not group chats are dropped next, before the sender, the owner or the text is looked at. */
  lemma LidChatRejectedSecond(first: Option<WebMessage>)
    requires first.Some? && first.value.message.Some? && Truthy(first.value.key.remoteJid)
    requires !EndsWith(first.value.key.remoteJid.value, GroupSuffix)
    requires EndsWith(first.value.key.remoteJid.value, LidSuffix)
    ensures Screen(first) == Err(LidChat)
  {
  }

  /** No payload, no chat id or no text: no reply. */
  lemma NoReplyWithoutContent(first: Option<WebMessage>, now: string)
    requires || first.None?
             || first.value.message.None?
             || !Truthy(first.value.key.remoteJid)
             || MessageText(first.value.message.value).None?
    ensures HandleMessage(first, now).None?
  {
  }

  /** Group and LID chats never get a reply, whatever the other fields hold. */
  lemma NoReplyInGroupOrLidChat(first: Option<WebMessage>, now: string)
    requires first.Some? && first.value.key.remoteJid.Some?
    requires EndsWith(first.value.key.remoteJid.value, GroupSuffix) || EndsWith(first.value.key.remoteJid.value, LidSuffix)
    ensures HandleMessage(first, now).None?
  {
  }

  /** Messages not sent by the owner's account, or in a chat whose id does not start with the owner's number, get no reply. */
  lemma NoReplyUnlessOwner(first: Option<WebMessage>, now: string)
    requires first.Some?
    requires first.value.key.fromMe != Some(true)
             || (first.value.key.remoteJid.Some? && !StartsWith(first.value.key.remoteJid.value, MyNumber))
    ensures HandleMessage(first, now).None?
  {
  }

  /** Text whose trimmed form starts with the marker, or does not start with a slash, gets no reply. */
  lemma NoReplyUnlessSlashCommand(first: Option<WebMessage>, text: string, now: string)
    requires first.Some? && first.value.message.Some?
    requires MessageText(first.value.message.value) == Some(text)
    requires StartsWith(Trim(text), Marker) || !StartsWith(Trim(text), CommandPrefix)
    ensures HandleMessage(first, now).None?
  {
  }

  /** Text that is only whitespace passes the emptiness test but is not a command. */
  lemma WhitespaceOnlyText(text: string)
    requires text != [] && AllWhitespace(text)
    ensures ScreenText(text) == Err(NotCommand)
  {
    var e: string := [];
    assert text == text + e + e;
    TrimOf(text, e, e);
  }

  // ---------------------------------------------------------------------------
  // Answering by the text fields

  /**
   * A message whose text (the plain field, or the extended one when the plain
   * one is absent or empty) passes the text guards, in a chat that passes the
   * chat guards, is answered in that chat with the table's reply for its keyword.
   */
  lemma TextAnswered(m: WebMessage, text: string, now: string)
    requires m.message.Some? && MessageText(m.message.value) == Some(text)
    requires ScreenChat(m.key).Ok? && ScreenText(text).Ok?
    ensures HandleMessage(Some(m), now) == Some(Send(ScreenChat(m.key).value, Reply(Keyword(ScreenText(text).value), now)))
  {
  }

  /** A message without text, or whose chat or text fails a guard, is not answered. */
  lemma TextIgnored(m: WebMessage, now: string)
    requires m.message.Some?
    requires || ScreenChat(m.key).Err?
             || MessageText(m.message.value).None?
             || ScreenText(MessageText(m.message.value).value).Err?
    ensures HandleMessage(Some(m), now) == None
  {
  }

  /**
   * When the plain text field is absent or empty, a padded slash command in the
   * extended text field is answered with the table's reply for the lower-cased word.
   */
  lemma ExtendedCommandAnswered(key: MessageKey, conversation: Option<string>, text: string,
                                a: string, b: string, k: string, c: string, now: string)
    requires ScreenChat(key).Ok? && !Truthy(conversation)
    requires AllWhitespace(a) && AllWhitespace(b) && AllWhitespace(c)
    requires IsTrimmed(k)
    requires text == a + "/" + b + k + c
    ensures var m := WebMessage(key, Some(Message(conversation, Some(text))));
            HandleMessage(Some(m), now) == Some(Send(ScreenChat(key).value, Reply(Lower(k), now)))
  {
    var m := WebMessage(key, Some(Message(conversation, Some(text))));
    KeywordIgnoresPadding(a, b, k, c);
    assert text != [];
    assert MessageText(m.message.value) == Some(text);
    TextAnswered(m, text, now);
  }

  /** A chat id of a private chat whose number starts with the owner's, sent from the owner's account, passes the chat guards. */
  lemma OwnerChatAccepted(number: string)
    requires StartsWith(number, MyNumber)
    ensures var jid := number + "@s.whatsapp.net";
            ScreenChat(MessageKey(Some(jid), Some(true))) == Ok(jid)
  {
    var jid := number + "@s.whatsapp.net";
    PrivateChatId(number);
    assert jid[..|MyNumber|] == number[..|MyNumber|];
  }

  /** Ids of private chats end with the user-server suffix, so they are neither group nor LID ids. */
  lemma PrivateChatId(number: string)
    ensures var jid := number + "@s.whatsapp.net";
            !EndsWith(jid, GroupSuffix) && !EndsWith(jid, LidSuffix)
  {
    var jid := number + "@s.whatsapp.net";
    assert jid[|jid| - 1] == 't';
    assert jid[|jid| - |GroupSuffix|..][|GroupSuffix| - 1] == jid[|jid| - 1];
    assert jid[|jid| - |LidSuffix|..][|LidSuffix| - 1] == jid[|jid| - 1];
  }

  /** A slash never starts with the marker. */
  lemma SlashIsNotMarker(clean: string)
    requires StartsWith(clean, CommandPrefix)
    ensures !StartsWith(clean, Marker)
  {
    assert clean[0] == '/';
  }

  // ---------------------------------------------------------------------------
  // Command resolution

  /** The trimmed form of a padded command: the slash, the inner padding and the keyword. */
  lemma TrimPaddedCommand(a: string, b: string, k: string, c: string)
    requires AllWhitespace(a) && AllWhitespace(b) && AllWhitespace(c)
    requires IsTrimmed(k)
    ensures Trim(a + "/" + b + k + c) == if k == [] then "/" else "/" + b + k
  {
    if k == [] {
      assert a + "/" + b + k + c == a + "/" + (b + c);
      assert AllWhitespace(b + c) by {
        assert forall i :: 0 <= i < |b + c| ==> (b + c)[i] == if i < |b| then b[i] else c[i - |b|];
      }
      TrimOf(a, "/", b + c);
    } else {
      var t := "/" + b + k;
      assert a + "/" + b + k + c == a + t + c;
      assert IsTrimmed(t) by {
        assert t[0] == '/' && t[|t| - 1] == k[|k| - 1];
      }
      TrimOf(a, t, c);
    }
  }

  /** The keyword of a slash, whitespace and a trimmed word is that word, lower-cased. */
  lemma KeywordOfPadded(b: string, k: string)
    requires AllWhitespace(b) && IsTrimmed(k)
    ensures Keyword(if k == [] then "/" else "/" + b + k) == Lower(k)
  {
    if k == [] {
      var e: string := [];
      assert "/"[1..] == e + e + e;
      TrimOf(e, e, e);
    } else {
      assert ("/" + b + k)[1..] == b + k + [];
      TrimOf(b, k, []);
    }
  }

  /**
   * Whitespace around the text and between the slash and the keyword does not
   * matter: the text passes the text guards and its keyword is the word, lower-cased.
   */
  lemma KeywordIgnoresPadding(a: string, b: string, k: string, c: string)
    requires AllWhitespace(a) && AllWhitespace(b) && AllWhitespace(c)
    requires IsTrimmed(k)
    ensures var text := a + "/" + b + k + c;
            ScreenText(text).Ok? && Keyword(ScreenText(text).value) == Lower(k)
  {
    TrimPaddedCommand(a, b, k, c);
    KeywordOfPadded(b, k);
    SlashIsNotMarker(Trim(a + "/" + b + k + c));
  }

  /**
   * A padded slash command sent from the owner's account in a private chat whose
   * number starts with the owner's is answered in that chat with the table's
   * reply for the lower-cased word.
   */
  lemma OwnerCommandAnswered(number: string, text: string, a: string, b: string, k: string, c: string, now: string)
    requires MyNumber <= number
    requires AllWhitespace(a) && AllWhitespace(b) && AllWhitespace(c)
    requires IsTrimmed(k)
    requires text == a + "/" + b + k + c
    ensures var jid := number + "@s.whatsapp.net";
            var m := WebMessage(MessageKey(Some(jid), Some(true)), Some(Message(Some(text), None)));
            HandleMessage(Some(m), now) == Some(Send(jid, Reply(Lower(k), now)))
  {
    var jid := number + "@s.whatsapp.net";
    OwnerChatAccepted(number);
    KeywordIgnoresPadding(a, b, k, c);
    assert text != [];
    var m := WebMessage(MessageKey(Some(jid), Some(true)), Some(Message(Some(text), None)));
    TextAnswered(m, text, now);
  }

  /** Texts equal up to letter case have equal keywords. */
  lemma KeywordCaseInsensitive(cx: string, cy: string)
    requires Lower(cx) == Lower(cy)
    requires StartsWith(cx, CommandPrefix) && StartsWith(cy, CommandPrefix)
    ensures Keyword(cx) == Keyword(cy)
  {
    LowerTrim(cx[1..]);
    LowerTrim(cy[1..]);
    assert Lower(cx[1..]) == Lower(cx)[1..];
    assert Lower(cy[1..]) == Lower(cy)[1..];
  }

  /** A prefix without letters is found in both of two strings that differ only in letter case, or in neither. */
  lemma PrefixCaseInsensitive(x: string, y: string, p: string)
    requires Lower(x) == Lower(y) && CaseFree(p)
    ensures StartsWith(x, p) <==> StartsWith(y, p)
  {
    LowerStartsWith(x, p);
    LowerStartsWith(y, p);
  }

  /** Neither the marker nor the slash contains a letter. */
  lemma MarkersAreCaseFree()
    ensures CaseFree(Marker) && CaseFree(CommandPrefix)
  {
  }

  /** Texts equal up to letter case stay so after trimming. */
  lemma TrimCaseInsensitive(x: string, y: string)
    requires Lower(x) == Lower(y)
    ensures Lower(Trim(x)) == Lower(Trim(y))
  {
    LowerTrim(x);
    LowerTrim(y);
  }

  /** Letter case changes neither the text guards' verdict nor the keyword. */
  lemma ScreenTextCaseInsensitive(x: string, y: string)
    requires Lower(x) == Lower(y)
    ensures ScreenText(x).Ok? <==> ScreenText(y).Ok?
    ensures ScreenText(x).Ok? ==> Keyword(ScreenText(x).value) == Keyword(ScreenText(y).value)
  {
    TrimCaseInsensitive(x, y);
    MarkersAreCaseFree();
    PrefixCaseInsensitive(Trim(x), Trim(y), Marker);
    PrefixCaseInsensitive(Trim(x), Trim(y), CommandPrefix);
    if StartsWith(Trim(x), CommandPrefix) {
      KeywordCaseInsensitive(Trim(x), Trim(y));
    }
  }

  /**
   * Two messages in the same chat whose texts differ only in letter case, in
   * whichever field each text sits, get the same reply, or both none.
   */
  lemma CaseInsensitive(key: MessageKey, mx: Message, my: Message, now: string)
    requires MessageText(mx).Some? <==> MessageText(my).Some?
    requires MessageText(mx).Some? ==> Lower(MessageText(mx).value) == Lower(MessageText(my).value)
    ensures HandleMessage(Some(WebMessage(key, Some(mx))), now)
         == HandleMessage(Some(WebMessage(key, Some(my))), now)
  {
    var wx, wy := WebMessage(key, Some(mx)), WebMessage(key, Some(my));
    if ScreenChat(key).Ok? && MessageText(mx).Some? {
      var x, y := MessageText(mx).value, MessageText(my).value;
      ScreenTextCaseInsensitive(x, y);
      if ScreenText(x).Ok? {
        TextAnswered(wx, x, now);
        TextAnswered(wy, y, now);
      } else {
        TextIgnored(wx, now);
        TextIgnored(wy, now);
      }
    } else {
      TextIgnored(wx, now);
      TextIgnored(wy, now);
    }
  }

  /** The command table, entry by entry. */
  lemma CommandTable(keyword: string, now: string)
    ensures Reply("ping", now) == Marker + " pong"
    ensures Reply("hi", now) == Marker + " Hello Alishan \U{1F680}"
    ensures Reply("time", now) == Marker + " " + now
    ensures keyword !in {"ping", "hi", "time"} ==> Reply(keyword, now) == Marker + " Command received: " + keyword
  {
  }

  /** The owner's own chat. */
  const OwnerJid: string := MyNumber + "@s.whatsapp.net"

  /** A message in the owner's own chat, from the owner's account, carrying `text` in the plain text field. */
  function OwnerMessage(text: string): WebMessage {
    WebMessage(MessageKey(Some(OwnerJid), Some(true)), Some(Message(Some(text), None)))
  }

  /** `/PING` answers pong in the owner's chat. */
  lemma UpperCasePing(now: string)
    ensures HandleMessage(Some(OwnerMessage("/PING")), now) == Some(Send(OwnerJid, PongReply))
  {
    var e: string := [];
    assert Lower("PING") == "ping";
    OwnerCommandAnswered(MyNumber, "/PING", e, e, "PING", e, now);
  }

  /** `/ ping` answers pong in the owner's chat. */
  lemma SpacedPing(now: string)
    ensures HandleMessage(Some(OwnerMessage("/ ping")), now) == Some(Send(OwnerJid, PongReply))
  {
    var e: string := [];
    assert Lower("ping") == "ping";
    OwnerCommandAnswered(MyNumber, "/ ping", e, " ", "ping", e, now);
  }

  /** `/ping ` answers pong in the owner's chat. */
  lemma PaddedPing(now: string)
    ensures HandleMessage(Some(OwnerMessage("/ping ")), now) == Some(Send(OwnerJid, PongReply))
  {
    var e: string := [];
    assert Lower("ping") == "ping";
    OwnerCommandAnswered(MyNumber, "/ping ", e, e, "ping", " ", now);
  }

  /** `/hi` greets the owner. */
  lemma HiGreets(now: string)
    ensures HandleMessage(Some(OwnerMessage("/hi")), now) == Some(Send(OwnerJid, GreetingReply))
  {
    var e: string := [];
    assert Lower("hi") == "hi";
    OwnerCommandAnswered(MyNumber, "/hi", e, e, "hi", e, now);
  }

  /** `/TIME` answers with the timestamp. */
  lemma UpperCaseTime(now: string)
    ensures HandleMessage(Some(OwnerMessage("/TIME")), now) == Some(Send(OwnerJid, Marker + " " + now))
  {
    var e: string := [];
    assert Lower("TIME") == "time";
    assert Reply("time", now) == Marker + " " + now;
    OwnerCommandAnswered(MyNumber, "/TIME", e, e, "TIME", e, now);
  }

  /**
   * Any other keyword is echoed back, lower-cased, after the fallback text;
   * `/unknown123` is answered with the fallback text and `unknown123`.
   */
  lemma UnknownCommandEchoed(text: string, k: string, now: string)
    requires text == "/" + k && IsTrimmed(k)
    requires Lower(k) !in {"ping", "hi", "time"}
    ensures HandleMessage(Some(OwnerMessage(text)), now) == Some(Send(OwnerJid, Marker + " Command received: " + Lower(k)))
  {
    var e: string := [];
    assert text == e + "/" + e + k + e;
    OwnerCommandAnswered(MyNumber, text, e, e, k, e, now);
  }

  /**
   * The owner test is a prefix test: a private chat of a different, longer
   * number that starts with the owner's digits is answered too.
   */
  lemma OwnerTestIsPrefix(now: string)
    ensures var jid := MyNumber + "9@s.whatsapp.net";
            var m := WebMessage(MessageKey(Some(jid), Some(true)), Some(Message(Some("/ping"), None)));
            jid != OwnerJid && HandleMessage(Some(m), now) == Some(Send(jid, PongReply))
  {
    var e: string := [];
    var number := MyNumber + "9";
    assert MyNumber <= number;
    assert number + "@s.whatsapp.net" == MyNumber + "9@s.whatsapp.net";
    assert Lower("ping") == "ping";
    OwnerCommandAnswered(number, "/ping", e, e, "ping", e, now);
    assert |MyNumber + "9@s.whatsapp.net"| != |OwnerJid|;
  }

  // ---------------------------------------------------------------------------
  // Loop prevention

  /** Every reply, trimmed, still starts with the marker. */
  lemma TrimmedReplyStartsWithMarker(reply: string)
    requires StartsWith(reply, Marker)
    ensures StartsWith(Trim(reply), Marker)
  {
    TrimKeepsHead(reply);
  }

  /**
   * A reply the handler sent, coming back as an inbound message in the same
   * chat (or any other), is never answered.
   */
  lemma LoopPrevention(sent: Option<WebMessage>, now: string, echo: WebMessage, later: string)
    requires HandleMessage(sent, now).Some?
    requires echo.message.Some?
    requires MessageText(echo.message.value) == Some(HandleMessage(sent, now).value.text)
    ensures HandleMessage(Some(echo), later).None?
  {
    TrimmedReplyStartsWithMarker(HandleMessage(sent, now).value.text);
  }

  // ---------------------------------------------------------------------------
  // Batches

  /** Only the first message of a batch decides; the rest are ignored. */
  lemma OnlyFirstMessageCounts(messages: seq<WebMessage>, rest: seq<WebMessage>, now: string)
    requires messages != []
    ensures HandleUpsert([messages[0]] + rest, now) == HandleUpsert(messages, now)
  {
  }
}
