/**
 * The stateful handlers of bot/bot.py: registering a user, answering a
 * message (`message_handle` with its inner `message_handle_fn`) and crediting
 * a payment. The module-level `db`, `bot_memory`, `user_semaphores` and
 * `user_tasks` are the fields of a `TelegramBot`; what Telegram, the similarity
 * searches, the completion service and the voice service answer arrives as an
 * `Environment`, and `datetime.now()` as `now`.
 */
module BotHandlers {
  import opened Wrappers
  import opened BotText
  import opened BotReply
  import DM = DialogMemory
  import DB = UserDatabase

  /** A dialog with more exchanges than this is reset before answering. */
  const HistoryResetThreshold: nat := 8192

  /** Tokens credited per unit of a payment's `total_amount` (cents): 600 per dollar. */
  const TokensPerPaymentUnit: int := 6

  /** The three calls of the voice step, in order. */
  datatype VoiceCall = GenerateVoice | SendVoice | DeletePlaceholder

  /**
   * How the voice step ends: the voice sent and the "..." placeholder deleted,
   * a Telegram `BadRequest` raised by one of its calls (`notModified` when its
   * text starts with "Message is not modified"), or any other exception.
   */
  datatype VoiceOutcome = VoiceSent | BadRequest(raisedBy: VoiceCall, notModified: bool) | VoiceRaised

  /** What the outside world answers while one message is handled. */
  datatype Environment = Environment(
    memories: Option<string>,      // similarity search in the user's namespace
    background: Option<string>,    // similarity search in the celebrity namespace
    completions: seq<Attempt>,     // the successive `send_message` outcomes
    voice: VoiceOutcome)

  /**
   * How a voiced answer reached the user: with the placeholder deleted, or
   * with the placeholder left in the chat, and then, unless the error was
   * "not modified", followed by "Something went wrong, please try again."
   */
  datatype Delivery = Voiced | PlaceholderLeft(retryRequested: bool)

  /** How handling one update ends, by the reply the user sees. */
  datatype HandleOutcome =
    | NotAddressed   // not for the bot: nothing happens
    | Crashed        // an exception escapes the handler
    | OutOfTokens    // "You have no remaining tokens. ..."
    | EmptyMessage   // "You sent empty message. ..."
    | Apologised     // "Hey there, something went wrong. Please try again."
    | Undelivered(retryRequested: bool)  // no voice: only, unless "not modified", "Something went wrong, please try again."
    | Answered(reply: string, delivery: Delivery)

  /** `register_user_if_not_exists`' effect on the user collection. */
  function RegisteredStore(s: DB.Store, user: TelegramUser, now: int, available: int): (r: DB.Store)
    ensures r.Keys == s.Keys + {user.id}
    ensures user.id in s ==> r == s
    ensures forall u :: u in s ==> r[u] == s[u]
    ensures user.id !in s ==>
      r[user.id] == DB.NewUserDocument(user.id, OptionalText(user.username), DB.Str(user.firstName), OptionalText(user.lastName), now, available)
  {
    DB.WithNewUser(s, user.id, OptionalText(user.username), DB.Str(user.firstName), OptionalText(user.lastName), now, available)
  }

  /** `register_user_if_not_exists`' effect on the dialog table: a new user gets a fresh default dialog. */
  function RegisteredTable(t: DM.Table, s: DB.Store, user: TelegramUser, defaultMode: string, now: int): (r: DM.Table)
    ensures user.id in s ==> r == t
    ensures user.id !in s ==> r == DM.Created(t, user.id, None, defaultMode, now)
  {
    if user.id in s then t else DM.Created(t, user.id, None, defaultMode, now)
  }

  function OptionalText(s: Option<string>): DB.Value
  {
    if s.Some? then DB.Str(s.value) else DB.Null
  }

  /** Registering twice, at any two times, is registering once. */
  lemma RegistrationIdempotent(s: DB.Store, t: DM.Table, user: TelegramUser, defaultMode: string, now: int, later: int, available: int)
    ensures var s1 := RegisteredStore(s, user, now, available);
            var t1 := RegisteredTable(t, s, user, defaultMode, now);
      && RegisteredStore(s1, user, later, available) == s1
      && RegisteredTable(t1, s1, user, defaultMode, later) == t1
  {
  }

  /** A newly registered user holds the starting balance, no usage and an empty dialog in the default mode. */
  lemma NewUserStartsFresh(s: DB.Store, t: DM.Table, user: TelegramUser, defaultMode: string, now: int, available: int)
    requires user.id !in s
    ensures DB.StoredUsage(RegisteredStore(s, user, now, available), user.id) == Ok(DB.TokenUsage(0, 0, available))
    ensures RegisteredTable(t, s, user, defaultMode, now)[user.id] == DM.Dialog(defaultMode, now, [])
  {
  }

  /** The dialog table once `message_handle_fn` has read the dialog, reset when it is too long. */
  function AfterDialogRead(t: DM.Table, userId: UserId, defaultMode: string, now: int): (r: DM.Table)
    ensures r.Keys == t.Keys + {userId}
    ensures forall u :: u in t && u != userId ==> r[u] == t[u]
    ensures userId !in t ==> r[userId] == DM.NewDialog(defaultMode, now)
    ensures userId in t && |t[userId].messages| <= HistoryResetThreshold ==> r == t
    ensures userId in t && |t[userId].messages| > HistoryResetThreshold ==>
      r[userId] == t[userId].(messages := [], startTime := now)
    ensures DM.WellFormed(t) ==> DM.WellFormed(r)
  {
    var read := DM.Ensured(t, userId, defaultMode, now);
    if |read[userId].messages| > HistoryResetThreshold then DM.WasReset(read, userId, defaultMode, now) else read
  }

  /** The guards of `message_handle_fn` pass: the balance is readable and positive and the message is not empty. */
  function Ready(s: DB.Store, userId: UserId, incoming: Option<string>): bool
  {
    var balance := DB.StoredUsage(s, userId);
    balance.Ok? && balance.value.nRemainingOutputTokens > 0 && incoming.Some? && incoming.value != ""
  }

  /**
   * The outcome once the answer is stored, by how the voice step ends. The
   * answer reaches the user exactly when `send_voice` returned. A
   * `BadRequest` from `generateVoice` comes before `current_chat_id` is bound,
   * so sending the retry message raises `UnboundLocalError`, which the outer
   * handler turns into the apology.
   */
  function Delivered(answer: string, voice: VoiceOutcome): (r: HandleOutcome)
    ensures r.Answered? <==> voice.VoiceSent? || (voice.BadRequest? && voice.raisedBy == DeletePlaceholder)
    ensures r.Answered? ==> r.reply == answer && (r.delivery == Voiced <==> voice.VoiceSent?)
    ensures r.Undelivered? <==> voice.BadRequest? && (voice.raisedBy == SendVoice || (voice.raisedBy == GenerateVoice && voice.notModified))
    ensures r == Apologised <==> voice.VoiceRaised? || voice == BadRequest(GenerateVoice, false)
    ensures (r.Undelivered? && r.retryRequested) || (r.Answered? && r.delivery == PlaceholderLeft(true)) <==>
      voice.BadRequest? && voice.raisedBy != GenerateVoice && !voice.notModified
  {
    match voice
    case VoiceSent => Answered(answer, Voiced)
    case BadRequest(DeletePlaceholder, notModified) => Answered(answer, PlaceholderLeft(!notModified))
    case BadRequest(SendVoice, notModified) => Undelivered(!notModified)
    case BadRequest(GenerateVoice, notModified) => if notModified then Undelivered(false) else Apologised
    case VoiceRaised => Apologised
  }

  /**
   * The guards pass and the prompt is built from `form` of the history as
   * `get_dialog` returned it, before any reset.
   */
  function Prompted(store: DB.Store, table: DM.Table, defaultMode: string, form: HistoryForm, userId: UserId,
                    incoming: Option<string>, env: Environment, now: int): bool
  {
    var history := DM.Ensured(table, userId, defaultMode, now)[userId].messages;
    Ready(store, userId, incoming) && BuildPrompt(HistoryValue(form, history), incoming.value, env.memories, env.background).Ok?
  }

  /**
   * What `message_handle_fn` does for `userId`, from user collection `store`
   * and dialog table `table` to `storeAfter` and `tableAfter`, with the prompt
   * built from `form` of the history. The dialog is read (and reset when too
   * long) in every case. The answer and the token charge are committed exactly
   * when the guards pass, the prompt is built and one of the at most three
   * completion attempts succeeded. With the code's own `StoredList` the prompt
   * is never built, so every message past the guards gets the apology.
   */
  ghost predicate Served(
    store: DB.Store, table: DM.Table, defaultMode: string, form: HistoryForm, userId: UserId, incoming: Option<string>,
    env: Environment, now: int, outcome: HandleOutcome, attempts: nat, storeAfter: DB.Store, tableAfter: DM.Table): (served: bool)
    ensures served ==> attempts <= MaxAttempts && outcome != NotAddressed
    ensures served && attempts == 0 ==> storeAfter == store && tableAfter == AfterDialogRead(table, userId, defaultMode, now)
    ensures served && form == StoredList ==> attempts == 0 && (Ready(store, userId, incoming) ==> outcome == Apologised)
    ensures served && form == RenderedText && Ready(store, userId, incoming) && env.memories.Some? && env.background.Some? ==>
      0 < attempts
  {
    var balance := DB.StoredUsage(store, userId);
    var read := AfterDialogRead(table, userId, defaultMode, now);
    var prompted := Prompted(store, table, defaultMode, form, userId, incoming, env, now);
    var success := FirstSuccess(env.completions);
    && outcome != NotAddressed
    && attempts <= MaxAttempts
    && (outcome == Crashed <==> balance.Err?)
    && (outcome == OutOfTokens <==> balance.Ok? && balance.value.nRemainingOutputTokens <= 0)
    && (outcome == EmptyMessage <==>
          balance.Ok? && balance.value.nRemainingOutputTokens > 0 && (incoming.None? || incoming.value == ""))
    && (attempts > 0 ==> prompted)
    && if prompted && success.Some? then
         var c := env.completions[success.value].completion;
         var answer := Truncated(c.answer, MessageLimit);
         && attempts == success.value + 1
         && outcome == Delivered(answer, env.voice)
         && tableAfter == DM.Appended(read, userId, incoming.value, answer, defaultMode, now)
         && storeAfter == DB.WithUsage(store, userId, DB.Charged(balance.value, c.nInputTokens, c.nOutputTokens))
       else
         && storeAfter == store
         && tableAfter == read
         && (Ready(store, userId, incoming) ==> outcome == Apologised && attempts == if prompted then MaxAttempts else 0)
  }

  /** The paths of `message_handle_fn` that commit nothing: each guard's early return and each apology. */
  lemma ServedUncommitted(
    store: DB.Store, table: DM.Table, defaultMode: string, form: HistoryForm, userId: UserId, incoming: Option<string>,
    env: Environment, now: int, outcome: HandleOutcome, attempts: nat)
    requires var balance := DB.StoredUsage(store, userId);
             var prompted := Prompted(store, table, defaultMode, form, userId, incoming, env, now);
      || (balance.Err? && outcome == Crashed && attempts == 0)
      || (balance.Ok? && balance.value.nRemainingOutputTokens <= 0 && outcome == OutOfTokens && attempts == 0)
      || (&& balance.Ok? && balance.value.nRemainingOutputTokens > 0 && (incoming.None? || incoming.value == "")
          && outcome == EmptyMessage && attempts == 0)
      || (Ready(store, userId, incoming) && !prompted && outcome == Apologised && attempts == 0)
      || (prompted && FirstSuccess(env.completions).None? && outcome == Apologised && attempts == MaxAttempts)
    ensures Served(store, table, defaultMode, form, userId, incoming, env, now, outcome, attempts,
                   store, AfterDialogRead(table, userId, defaultMode, now))
  {
  }

  /** The path of `message_handle_fn` that stores the answer and charges the tokens. */
  lemma ServedCommitted(
    store: DB.Store, table: DM.Table, defaultMode: string, form: HistoryForm, userId: UserId, incoming: Option<string>,
    env: Environment, now: int, attempts: nat, c: Completion)
    requires Prompted(store, table, defaultMode, form, userId, incoming, env, now)
    requires FirstSuccess(env.completions).Some? && attempts == FirstSuccess(env.completions).value + 1
    requires attempts <= MaxAttempts && c == env.completions[attempts - 1].completion
    ensures var answer := Truncated(c.answer, MessageLimit);
      Served(store, table, defaultMode, form, userId, incoming, env, now, Delivered(answer, env.voice), attempts,
             DB.WithUsage(store, userId, DB.Charged(DB.StoredUsage(store, userId).value, c.nInputTokens, c.nOutputTokens)),
             DM.Appended(AfterDialogRead(table, userId, defaultMode, now), userId, incoming.value, answer, defaultMode, now))
  {
  }

  /**
   * As written, no message reaches the completion service: the prompt is
   * never built from the stored list, so every message that passes the guards
   * gets the apology, and nothing but the dialog read is committed.
   */
  lemma AsWrittenNeverAnswers(
    store: DB.Store, table: DM.Table, defaultMode: string, userId: UserId, incoming: Option<string>,
    env: Environment, now: int, outcome: HandleOutcome, attempts: nat, storeAfter: DB.Store, tableAfter: DM.Table)
    requires Served(store, table, defaultMode, StoredList, userId, incoming, env, now, outcome, attempts, storeAfter, tableAfter)
    ensures attempts == 0 && storeAfter == store && tableAfter == AfterDialogRead(table, userId, defaultMode, now)
    ensures outcome == Crashed || outcome == OutOfTokens || outcome == EmptyMessage || outcome == Apologised
    ensures Ready(store, userId, incoming) <==> outcome == Apologised
  {
    var history := DM.Ensured(table, userId, defaultMode, now)[userId].messages;
    if Ready(store, userId, incoming) {
      AsWrittenPromptRaises(history, incoming.value, env.memories, env.background);
    }
  }

  /**
   * With the history rendered as text, a new user's first private message,
   * answered by the first completion:
   * the dialog holds exactly that exchange, the usage counters are the
   * completion's, and the balance is the starting one less the output, never
   * below zero.
   */
  lemma FirstAnswer(
    s: DB.Store, t: DM.Table, user: TelegramUser, defaultMode: string, available: int, incoming: string,
    env: Environment, now: int, outcome: HandleOutcome, attempts: nat, storeAfter: DB.Store, tableAfter: DM.Table)
    requires user.id !in s && 0 < available && incoming != ""
    requires env.memories.Some? && env.background.Some? && |env.completions| == MaxAttempts && env.completions[0].Completed?
    requires Served(RegisteredStore(s, user, now, available), RegisteredTable(t, s, user, defaultMode, now), defaultMode,
                    RenderedText, user.id, Some(incoming), env, now, outcome, attempts, storeAfter, tableAfter)
    ensures var c := env.completions[0].completion;
            var answer := Truncated(c.answer, MessageLimit);
      && attempts == 1
      && tableAfter[user.id].messages == [DM.StoredExchange(incoming, answer)]
      && DB.StoredUsage(storeAfter, user.id) ==
         Ok(DB.TokenUsage(c.nInputTokens, c.nOutputTokens, DB.Max(available - c.nOutputTokens, 0)))
  {
    var store := RegisteredStore(s, user, now, available);
    var table := RegisteredTable(t, s, user, defaultMode, now);
    NewUserStartsFresh(s, t, user, defaultMode, now, available);
    assert Ready(store, user.id, Some(incoming));
    assert FirstSuccess(env.completions) == Some(0);
    var read := AfterDialogRead(table, user.id, defaultMode, now);
    assert read[user.id].messages == [];
  }

  /** The bot's shared state: the database, the dialog memory and the per-user bookkeeping. */
  class TelegramBot {
    const db: DB.Database
    const memory: DM.Memory
    /** The users that have a semaphore in `user_semaphores`. */
    var userSemaphores: set<UserId>
    /** The users with a task in `user_tasks`. */
    var userTasks: set<UserId>
    /** `context.bot.username` and `context.bot.id`. */
    const botUsername: Option<string>
    const botId: int

    ghost predicate Valid()
      reads this, memory
    {
      memory.Valid()
    }

    constructor (db: DB.Database, memory: DM.Memory, botUsername: Option<string>, botId: int)
      requires memory.Valid()
      ensures Valid()
      ensures this.db == db && this.memory == memory && this.botUsername == botUsername && this.botId == botId
      ensures userSemaphores == {} && userTasks == {}
    {
      this.db := db;
      this.memory := memory;
      this.botUsername := botUsername;
      this.botId := botId;
      userSemaphores := {};
      userTasks := {};
    }

    /** `register_user_if_not_exists(user)`. */
    method RegisterUserIfNotExists(user: TelegramUser, now: int)
      requires Valid()
      modifies db`users, memory`memory, this`userSemaphores
      ensures Valid()
      ensures db.users == RegisteredStore(old(db.users), user, now, db.availableTokenNewUser)
      ensures memory.memory == RegisteredTable(old(memory.memory), old(db.users), user, memory.defaultChatMode, now)
      ensures userSemaphores == old(userSemaphores) + {user.id}
    {
      var found := db.CheckIfUserExists(user.id, false);
      if !found.value {
        db.AddNewUser(user.id, OptionalText(user.username), DB.Str(user.firstName), OptionalText(user.lastName), now);
        memory.CreateDialog(user.id, None, now);
      }
      if user.id !in userSemaphores {
        userSemaphores := userSemaphores + {user.id};
      }
    }

    /**
     * `message_handle_fn` for `userId` and its incoming text, with `form`
     * saying which value stands for the history in the prompt: `StoredList`
     * is the code as written, `RenderedText` the evident intent.
     */
    method MessageHandleFn(userId: UserId, incoming: Option<string>, env: Environment, now: int, form: HistoryForm)
      returns (outcome: HandleOutcome, attempts: nat)
      requires Valid() && |env.completions| == MaxAttempts
      modifies db`users, memory`memory
      ensures Valid()
      ensures Served(old(db.users), old(memory.memory), memory.defaultChatMode, form, userId, incoming, env, now,
                     outcome, attempts, db.users, memory.memory)
    {
      ghost var store, table := db.users, memory.memory;
      var chatMode := memory.GetChatMode(userId, now);
      var dialog := memory.GetDialog(userId, now);
      var history := dialog.value.messages;
      if |history| > HistoryResetThreshold {
        // the archiving coroutine is created but never awaited: only the reset takes effect
        memory.ResetDialog(userId, now);
      }
      assert memory.memory == AfterDialogRead(table, userId, memory.defaultChatMode, now);
      var remaining := db.GetRemainingTokens(userId);
      if remaining.Err? {
        outcome, attempts := Crashed, 0;
      } else if remaining.value <= 0 {
        outcome, attempts := OutOfTokens, 0;
      } else if incoming.None? || |incoming.value| == 0 {
        outcome, attempts := EmptyMessage, 0;
      } else {
        // the prompt is built from the history as read, before any reset
        var prompt := BuildPrompt(HistoryValue(form, history), incoming.value, env.memories, env.background);
        if prompt.Err? {
          outcome, attempts := Apologised, 0;
        } else {
          var completion;
          completion, attempts := SendWithRetry(env.completions);
          if completion.Err? {
            outcome := Apologised;
          } else {
            var answer := Truncated(completion.value.answer, MessageLimit);
            memory.AddMessage(userId, incoming.value, answer, now);
            var balance := db.UpdateNUsedTokens(userId, completion.value.nInputTokens, completion.value.nOutputTokens);
            outcome := Delivered(answer, env.voice);
            ServedCommitted(store, table, memory.defaultChatMode, form, userId, incoming, env, now, attempts, completion.value);
            return;
          }
        }
      }
      ServedUncommitted(store, table, memory.defaultChatMode, form, userId, incoming, env, now, outcome, attempts);
    }

    /**
     * `message_handle(update, context, message)`: the mention check, the
     * incoming text, registration, then `message_handle_fn` run as the user's
     * task, which is removed from `user_tasks` however it ends.
     */
    method MessageHandle(update: Update, message: Option<string>, env: Environment, now: int, form: HistoryForm)
      returns (outcome: HandleOutcome, attempts: nat)
      requires Valid() && |env.completions| == MaxAttempts
      modifies db`users, memory`memory, this`userSemaphores, this`userTasks
      ensures Valid()
      ensures outcome == NotAddressed <==> !IsBotMentioned(update.message, botUsername, botId)
      ensures outcome == NotAddressed || PrepareIncoming(update, message, botUsername).None? ==>
        && (outcome == NotAddressed || outcome == Crashed) && attempts == 0
        && db.users == old(db.users) && memory.memory == old(memory.memory)
        && userSemaphores == old(userSemaphores) && userTasks == old(userTasks)
      ensures outcome != NotAddressed && PrepareIncoming(update, message, botUsername).Some? ==>
        var prepared := PrepareIncoming(update, message, botUsername).value;
        var user := prepared.messageObj.fromUser;
        && userSemaphores == old(userSemaphores) + {user.id}
        && userTasks == old(userTasks) - {user.id}
        && Served(RegisteredStore(old(db.users), user, now, db.availableTokenNewUser),
                  RegisteredTable(old(memory.memory), old(db.users), user, memory.defaultChatMode, now),
                  memory.defaultChatMode, form, user.id, prepared.incoming, env, now,
                  outcome, attempts, db.users, memory.memory)
    {
      if !IsBotMentioned(update.message, botUsername, botId) {
        return NotAddressed, 0;
      }
      var prepared := PrepareIncoming(update, message, botUsername);
      if prepared.None? {
        return Crashed, 0;
      }
      var user := prepared.value.messageObj.fromUser;
      RegisterUserIfNotExists(user, now);
      // under the user's semaphore; concurrency is not modelled
      userTasks := userTasks + {user.id};
      outcome, attempts := MessageHandleFn(user.id, prepared.value.incoming, env, now, form);
      userTasks := userTasks - {user.id};
    }

    /** `successful_payment_handle`: the payer is credited six tokens per cent paid. */
    method SuccessfulPaymentHandle(userId: UserId, totalAmount: int) returns (r: Result<int, DB.DbError>)
      modifies db`users
      ensures DB.StoredUsage(old(db.users), userId).Err? ==>
        r == Err(DB.StoredUsage(old(db.users), userId).error) && db.users == old(db.users)
      ensures DB.StoredUsage(old(db.users), userId).Ok? ==>
        var credited := DB.Credited(DB.StoredUsage(old(db.users), userId).value, totalAmount * TokensPerPaymentUnit);
        && db.users == DB.WithUsage(old(db.users), userId, credited)
        && r == Ok(credited.nRemainingOutputTokens)
    {
      r := db.IncreaseRemainingTokens(userId, totalAmount * TokensPerPaymentUnit);
    }
  }
}
