/**
 * The decisions behind one reply in bot/bot.py: whether the bot was
 * addressed (`is_bot_mentioned`), what incoming text a message carries, how
 * the search query and the completion context are assembled from Python
 * values, and the bounded retry of the completion call. External calls appear
 * as the outcomes they produce.
 */
module BotReply {
  import opened Wrappers
  import opened BotText
  import DialogMemory

  type UserId = int

  datatype TelegramUser = TelegramUser(id: UserId, username: Option<string>, firstName: string, lastName: Option<string>)

  /** The message being replied to; `fromUserId` is `None` when it has no `from_user`. */
  datatype RepliedMessage = RepliedMessage(fromUserId: Option<int>)

  datatype IncomingMessage = IncomingMessage(
    chatType: string,
    text: Option<string>,
    replyTo: Option<RepliedMessage>,
    fromUser: TelegramUser)

  /** A Telegram update: a new message or an edited one (either may be absent). */
  datatype Update = Update(message: Option<IncomingMessage>, editedMessage: Option<IncomingMessage>)

  const PrivateChat: string := "private"

  // ---------------------------------------------------------------- is_bot_mentioned

  /** Python's exceptions, as far as the model distinguishes them. */
  datatype PyError = AttributeError | TypeError

  /**
   * The body of the `try` in `is_bot_mentioned`: `Ok(true)` for an early
   * `return True`, `Ok(false)` for running off its end, `Err` for the
   * exception raised on a missing message, a missing bot username or a
   * replied-to message without a sender.
   */
  function MentionCheck(message: Option<IncomingMessage>, botUsername: Option<string>, botId: int): (r: Result<bool, PyError>)
    ensures r.Err? <==>
      || message.None?
      || (message.value.chatType != PrivateChat && message.value.text.Some? && botUsername.None?)
      || (&& message.value.chatType != PrivateChat
          && (message.value.text.Some? ==> !Contains(message.value.text.value, "@" + botUsername.value))
          && message.value.replyTo.Some? && message.value.replyTo.value.fromUserId.None?)
  {
    match message
    case None => Err(AttributeError)
    case Some(m) =>
      if m.chatType == PrivateChat then Ok(true)
      else if m.text.Some? && botUsername.None? then Err(TypeError)
      else if m.text.Some? && Contains(m.text.value, "@" + botUsername.value) then Ok(true)
      else if m.replyTo.Some? then
        match m.replyTo.value.fromUserId
        case None => Err(AttributeError)
        case Some(sender) => Ok(sender == botId)
      else Ok(false)
  }

  /** When the bot counts as addressed, stated independently of the handler's order of checks. */
  ghost predicate Addressed(message: Option<IncomingMessage>, botUsername: Option<string>, botId: int)
  {
    message.None? ||
    var m := message.value;
    || m.chatType == PrivateChat
    || (m.text.Some? && (botUsername.None? || exists i :: OccursAt(m.text.value, "@" + botUsername.value, i)))
    || (m.replyTo.Some? && (m.replyTo.value.fromUserId.None? || m.replyTo.value.fromUserId == Some(botId)))
  }

  /** `is_bot_mentioned`: the bare `except` answers `True`, the `else` branch `False`. */
  function IsBotMentioned(message: Option<IncomingMessage>, botUsername: Option<string>, botId: int): (r: bool)
    ensures r <==> Addressed(message, botUsername, botId)
  {
    match MentionCheck(message, botUsername, botId)
    case Err(_) => true
    case Ok(b) => b
  }

  /** A group message that neither mentions nor answers the bot is not for it. */
  lemma GroupChatterIgnored(sender: TelegramUser, text: string, botUsername: string, botId: int)
    requires !Contains(text, "@" + botUsername)
    ensures !IsBotMentioned(Some(IncomingMessage("group", Some(text), None, sender)), Some(botUsername), botId)
  {
  }

  // ---------------------------------------------------------------- incoming text

  /** The message object and incoming text `message_handle` works with (bot.py lines 229-238). */
  datatype Prepared = Prepared(messageObj: IncomingMessage, incoming: Option<string>)

  /**
   * `update.edited_message or update.message`, then `message or message_obj.text`
   * (a transcribed voice text wins only when it is non-empty), then, outside
   * private chats, the mention removed and the text stripped. `None` is an
   * exception raised before the user is registered: no message at all, or in a
   * group chat no text or no bot username.
   */
  function PrepareIncoming(update: Update, message: Option<string>, botUsername: Option<string>): (r: Option<Prepared>)
    ensures r.None? <==>
      var obj := if update.editedMessage.Some? then update.editedMessage else update.message;
      || obj.None?
      || (obj.value.chatType != PrivateChat && (botUsername.None? || ((message.None? || message == Some("")) && obj.value.text.None?)))
    ensures r.Some? ==> r.value.messageObj == (if update.editedMessage.Some? then update.editedMessage.value else update.message.value)
    ensures r.Some? && r.value.messageObj.chatType == PrivateChat ==>
      r.value.incoming == if message.Some? && message.value != "" then message else r.value.messageObj.text
    ensures r.Some? && r.value.messageObj.chatType != PrivateChat ==>
      var text := if message.Some? && message.value != "" then message.value else r.value.messageObj.text.value;
      botUsername.Some? && r.value.incoming == Some(WithoutMention(text, botUsername.value))
  {
    var obj := if update.editedMessage.Some? then update.editedMessage else update.message;
    match obj
    case None => None
    case Some(m) =>
      var incoming := if message.Some? && message.value != "" then message else m.text;
      if m.chatType == PrivateChat then Some(Prepared(m, incoming))
      else if incoming.None? || botUsername.None? then None
      else Some(Prepared(m, Some(WithoutMention(incoming.value, botUsername.value))))
  }

  // ---------------------------------------------------------------- prompt assembly

  /** The Python values the prompt expressions operate on. */
  datatype PyValue = PyNone | PyStr(s: string) | PyList(items: seq<DialogMemory.Exchange>)

  /** `v[-n:]` on a string or a list; subscripting `None` raises. */
  function PyTail(v: PyValue, n: nat): (r: Result<PyValue, PyError>)
    ensures r.Ok? <==> !v.PyNone?
    ensures v.PyStr? ==> r == Ok(PyStr(v.s[|v.s| - Min(n, |v.s|)..]))
    ensures v.PyList? ==> r == Ok(PyList(v.items[|v.items| - Min(n, |v.items|)..]))
  {
    match v
    case PyNone => Err(TypeError)
    case PyStr(s) => Ok(PyStr(if |s| <= n then s else s[|s| - n..]))
    case PyList(xs) => Ok(PyList(if |xs| <= n then xs else xs[|xs| - n..]))
  }

  /** `a + b`: strings with strings and lists with lists; any other pairing raises `TypeError`. */
  function PyAdd(a: PyValue, b: PyValue): (r: Result<PyValue, PyError>)
    ensures r.Ok? <==> (a.PyStr? && b.PyStr?) || (a.PyList? && b.PyList?)
    ensures a.PyStr? && b.PyStr? ==> r == Ok(PyStr(a.s + b.s))
    ensures a.PyList? && b.PyList? ==> r == Ok(PyList(a.items + b.items))
  {
    if a.PyStr? && b.PyStr? then Ok(PyStr(a.s + b.s))
    else if a.PyList? && b.PyList? then Ok(PyList(a.items + b.items))
    else Err(TypeError)
  }

  /** The strings held by parts that are all strings. */
  function Strings(parts: seq<PyValue>): (r: seq<string>)
    requires forall i :: 0 <= i < |parts| ==> parts[i].PyStr?
    ensures |r| == |parts| && forall i :: 0 <= i < |parts| ==> r[i] == parts[i].s
  {
    seq(|parts|, i requires 0 <= i < |parts| => parts[i].s)
  }

  /** `"".join(parts)`: every part must be a string, and the result is their concatenation. */
  function PyJoin(parts: seq<PyValue>): (r: Result<string, PyError>)
    ensures r.Ok? <==> forall i :: 0 <= i < |parts| ==> parts[i].PyStr?
    ensures r.Ok? ==> r.value == Concat(Strings(parts))
  {
    if parts == [] then Ok("")
    else match (parts[0], PyJoin(parts[1..]))
      case (PyStr(s), Ok(rest)) =>
        assert Strings(parts)[1..] == Strings(parts[1..]);
        Ok(s + rest)
      case _ => Err(TypeError)
  }

  const QueryHistoryLength: nat := 150
  const HistoryHeading: string := "OUR HISTORY CONVERSATION:\n\n"
  const BackgroundHeading: string := "YOUR BACKGOUND:\n\n"
  const RecentHeading: string := "OUR RECENT CONVERSATION THAT MATTERS THE MOST: \n\n"

  /** A similarity search answers a string, or `None` after a non-200 status or a caught error. */
  function SearchValue(result: Option<string>): PyValue
  {
    if result.Some? then PyStr(result.value) else PyNone
  }

  /** The strings sent out for one message: the similarity query and the completion context. */
  datatype Prompt = Prompt(query: string, context: string)

  /**
   * bot.py lines 282-301: `dialog_messages[-150:] + incoming_message` as the
   * query, then the two headed search results, then `"".join` of background,
   * memories, the recent heading and the dialog history.
   */
  function BuildPrompt(history: PyValue, incoming: string, memories: Option<string>, background: Option<string>): (r: Result<Prompt, PyError>)
    ensures r.Ok? <==> history.PyStr? && memories.Some? && background.Some?
    ensures r.Err? ==> r.error == TypeError
  {
    match PyTail(history, QueryHistoryLength)
    case Err(e) => Err(e)
    case Ok(tail) =>
      match PyAdd(tail, PyStr(incoming))
      case Err(e) => Err(e)
      case Ok(query) =>
        if !query.PyStr? then Err(TypeError)
        else
          var previous := PyAdd(PyStr(HistoryHeading), SearchValue(memories));
          var celebrity := PyAdd(PyStr(BackgroundHeading), SearchValue(background));
          if previous.Err? then Err(previous.error)
          else if celebrity.Err? then Err(celebrity.error)
          else match PyJoin([celebrity.value, previous.value, PyStr(RecentHeading), history])
            case Ok(context) => Ok(Prompt(query.s, context))
            case Err(e) => Err(e)
  }

  /**
   * As written, `dialog_messages` is the list of exchanges that memory.py
   * stores, and adding a list to the incoming string raises `TypeError`
   * whatever the history, the message and the search results.
   */
  lemma AsWrittenPromptRaises(messages: seq<DialogMemory.Exchange>, incoming: string, memories: Option<string>, background: Option<string>)
    ensures BuildPrompt(PyList(messages), incoming, memories, background) == Err(TypeError)
  {
  }

  /**
   * The history as text, each half of each exchange on a line of its own, the
   * string the annotation `dialog_messages: str` promises. Its contract only
   * bounds the text; what the text holds is stated by `HistoryTextAfterAppend`
   * and, inside the prompt, by `PromptOfText`.
   */
  function HistoryText(messages: seq<DialogMemory.Exchange>): (text: string)
    ensures messages == [] ==> text == ""
    ensures |text| >= 2 * |messages|
    decreases |messages|
  {
    if messages == [] then ""
    else HistoryText(messages[..|messages| - 1]) + messages[|messages| - 1].0 + "\n" + messages[|messages| - 1].1 + "\n"
  }

  /**
   * Which value the prompt takes as `dialog_messages`: the stored list of
   * exchanges, as the code has it, or that list rendered by `HistoryText`.
   */
  datatype HistoryForm = StoredList | RenderedText

  function HistoryValue(form: HistoryForm, messages: seq<DialogMemory.Exchange>): PyValue
  {
    match form
    case StoredList => PyList(messages)
    case RenderedText => PyStr(HistoryText(messages))
  }

  /**
   * Storing an exchange with `add_message` extends the rendered history by
   * its two prefixed lines, so the text is always the dialog in order.
   */
  lemma HistoryTextAfterAppend(t: DialogMemory.Table, userId: int, human: string, bot: string, defaultMode: string, now: int)
    ensures var before := DialogMemory.Ensured(t, userId, defaultMode, now)[userId].messages;
            var after := DialogMemory.Appended(t, userId, human, bot, defaultMode, now)[userId].messages;
      HistoryText(after) == HistoryText(before) + DialogMemory.HumanPrefix + human + "\n" + DialogMemory.BotPrefix + bot + "\n"
  {
    var before := DialogMemory.Ensured(t, userId, defaultMode, now)[userId].messages;
    var after := DialogMemory.Appended(t, userId, human, bot, defaultMode, now)[userId].messages;
    assert after[..|after| - 1] == before;
  }

  /**
   * With the history as text, the prompt is built: the query is the last 150
   * characters of the history (all of it when shorter) followed by the
   * incoming message, and the context holds the background, the memories and
   * the whole history, in that order.
   * A failed search still raises, since a heading plus `None` is a `TypeError`.
   */
  lemma TextHistoryPromptBuilds(messages: seq<DialogMemory.Exchange>, incoming: string, memories: Option<string>, background: Option<string>)
    ensures var p := BuildPrompt(PyStr(HistoryText(messages)), incoming, memories, background);
      && (p.Ok? <==> memories.Some? && background.Some?)
      && (p.Ok? ==>
          && p.value.query == HistoryText(messages)[|HistoryText(messages)| - Min(QueryHistoryLength, |HistoryText(messages)|)..] + incoming
          && p.value.context == BackgroundHeading + background.value + HistoryHeading + memories.value
                                + RecentHeading + HistoryText(messages))
  {
    StringHistoryPromptBuilds(HistoryText(messages), incoming, memories, background);
  }

  /** `TextHistoryPromptBuilds` for any history string. */
  lemma StringHistoryPromptBuilds(text: string, incoming: string, memories: Option<string>, background: Option<string>)
    ensures var p := BuildPrompt(PyStr(text), incoming, memories, background);
      && (p.Ok? <==> memories.Some? && background.Some?)
      && (p.Ok? ==>
          && p.value.query == text[|text| - Min(QueryHistoryLength, |text|)..] + incoming
          && p.value.context == BackgroundHeading + background.value + HistoryHeading + memories.value
                                + RecentHeading + text)
  {
    if memories.Some? && background.Some? {
      PromptOfText(text, incoming, memories.value, background.value);
    }
  }

  /** The prompt built from a history string when both searches answered. */
  lemma PromptOfText(text: string, incoming: string, memories: string, background: string)
    ensures BuildPrompt(PyStr(text), incoming, Some(memories), Some(background))
         == Ok(Prompt(text[|text| - Min(QueryHistoryLength, |text|)..] + incoming,
                      BackgroundHeading + background + HistoryHeading + memories + RecentHeading + text))
  {
    var tail := text[|text| - Min(QueryHistoryLength, |text|)..];
    assert PyTail(PyStr(text), QueryHistoryLength) == Ok(PyStr(tail));
    assert PyAdd(PyStr(tail), PyStr(incoming)) == Ok(PyStr(tail + incoming));
    var celebrity, previous := BackgroundHeading + background, HistoryHeading + memories;
    assert PyAdd(PyStr(HistoryHeading), SearchValue(Some(memories))) == Ok(PyStr(previous));
    assert PyAdd(PyStr(BackgroundHeading), SearchValue(Some(background))) == Ok(PyStr(celebrity));
    JoinFour(celebrity, previous, RecentHeading, text);
    assert celebrity + previous + RecentHeading + text
        == BackgroundHeading + background + HistoryHeading + memories + RecentHeading + text;
  }

  lemma JoinFour(a: string, b: string, c: string, d: string)
    ensures PyJoin([PyStr(a), PyStr(b), PyStr(c), PyStr(d)]) == Ok(a + b + c + d)
  {
    var parts := [PyStr(a), PyStr(b), PyStr(c), PyStr(d)];
    assert PyJoin(parts[3..]) == Ok(d) by {
      assert parts[3..] == [PyStr(d)];
      assert parts[3..][1..] == [];
      assert PyJoin([]) == Ok("");
      assert d + "" == d;
    }
    assert PyJoin(parts[2..]) == Ok(c + d) by {
      assert parts[2..][1..] == parts[3..];
    }
    assert PyJoin(parts[1..]) == Ok(b + (c + d)) by {
      assert parts[1..][1..] == parts[2..];
    }
    assert parts[1..] == [PyStr(b), PyStr(c), PyStr(d)];
    assert a + (b + (c + d)) == a + b + c + d;
  }

  // ---------------------------------------------------------------- completion with retry

  /** What `ChatGPT.send_message` returns: the answer and the input and output token counts. */
  datatype Completion = Completion(answer: string, nInputTokens: int, nOutputTokens: int)

  /** The outcome of one `send_message` call. */
  datatype Attempt = Completed(completion: Completion) | Raised

  const MaxAttempts: nat := 3

  /** `NameError("OpenAI send_message fails 3 times")`. */
  datatype RetryError = FailedThreeTimes

  /** The first successful attempt, if any: every attempt before it raised. */
  function FirstSuccess(attempts: seq<Attempt>): (k: Option<nat>)
    ensures k.Some? ==> k.value < |attempts| && attempts[k.value].Completed?
    ensures forall j :: 0 <= j < |attempts| && (k.None? || j < k.value) ==> attempts[j].Raised?
  {
    if attempts == [] then None
    else if attempts[0].Completed? then Some(0)
    else match FirstSuccess(attempts[1..])
      case Some(j) => Some(j + 1)
      case None => None
  }

  /**
   * The `for i in range(1, 4)` loop with `break` on success and the `else`
   * that raises: it calls until the first success, at most three times.
   */
  method SendWithRetry(outcomes: seq<Attempt>) returns (r: Result<Completion, RetryError>, calls: nat)
    requires |outcomes| == MaxAttempts
    ensures 1 <= calls <= MaxAttempts
    ensures FirstSuccess(outcomes).Some? ==>
      calls == FirstSuccess(outcomes).value + 1 && r == Ok(outcomes[calls - 1].completion)
    ensures FirstSuccess(outcomes).None? ==> calls == MaxAttempts && r == Err(FailedThreeTimes)
  {
    var answer: Option<Completion> := None;
    calls := 0;
    for i := 1 to MaxAttempts + 1
      invariant calls == i - 1
      invariant answer.None?
      invariant forall j :: 0 <= j < calls ==> outcomes[j].Raised?
    {
      calls := calls + 1;
      match outcomes[i - 1]
      case Completed(c) =>
        answer := Some(c);
        break;
      case Raised =>
        // logged, then the next attempt
    }
    if answer.Some? {
      r := Ok(answer.value);
    } else {
      r := Err(FailedThreeTimes);
    }
  }
}
