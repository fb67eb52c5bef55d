/**
 * The bot's short-term dialog memory (bot/memory.py): a table from user id
 * to that user's dialog, updated in place by a `Memory` object.
 *
 * The table transitions are first given as functions on `Table` values; the
 * `Memory` class then performs them on its `memory` field, and each of its
 * methods is proved to produce exactly the corresponding transition.
 * `datetime.now()` is the parameter `now`.
 */
module DialogMemory {
  import opened Wrappers

  type UserId = int

  /** One stored exchange: the prefixed human message and the prefixed bot response. */
  type Exchange = (string, string)

  /** The dictionary `create_dialog` builds: chat mode, start time, exchanges. */
  datatype Dialog = Dialog(chatMode: string, startTime: int, messages: seq<Exchange>)

  type Table = map<UserId, Dialog>

  /** The default of `Memory.__init__`'s `default_chat_mode`. */
  const DefaultChatMode: string := "sweet"
  const HumanPrefix: string := "User said:"
  const BotPrefix: string := "You said:"

  /** The exception `set_chat_mode` raises for a user without a dialog. */
  datatype MemoryError = NoDialogFound(userId: UserId)

  function NewDialog(chatMode: string, now: int): Dialog
  {
    Dialog(chatMode, now, [])
  }

  /** The pair `add_message` appends for one exchange. */
  function StoredExchange(human: string, bot: string): Exchange
  {
    (HumanPrefix + human, BotPrefix + bot)
  }

  predicate StartsWith(s: string, prefix: string)
  {
    |prefix| <= |s| && s[..|prefix|] == prefix
  }

  /** An exchange as `add_message` writes it: both halves carry their prefix. */
  predicate Prefixed(e: Exchange)
  {
    StartsWith(e.0, HumanPrefix) && StartsWith(e.1, BotPrefix)
  }

  /** The table invariant: every stored exchange was written by `add_message`. */
  ghost predicate WellFormed(t: Table)
  {
    forall u :: u in t ==> forall e :: e in t[u].messages ==> Prefixed(e)
  }

  lemma StoredExchangeIsPrefixed(human: string, bot: string)
    ensures Prefixed(StoredExchange(human, bot))
  {
    assert (HumanPrefix + human)[..|HumanPrefix|] == HumanPrefix;
    assert (BotPrefix + bot)[..|BotPrefix|] == BotPrefix;
  }

  /** `create_dialog`: an absent mode means the default one; any old dialog is replaced. */
  function Created(t: Table, userId: UserId, chatMode: Option<string>, defaultMode: string, now: int): (r: Table)
    ensures r.Keys == t.Keys + {userId}
    ensures r[userId].messages == [] && r[userId].startTime == now
    ensures r[userId].chatMode == (if chatMode.Some? then chatMode.value else defaultMode)
    ensures forall u :: u in t && u != userId ==> r[u] == t[u]
    ensures WellFormed(t) ==> WellFormed(r)
  {
    t[userId := NewDialog(if chatMode.None? then defaultMode else chatMode.value, now)]
  }

  /** `get_dialog`: an unknown user gets a fresh default dialog; a known one keeps theirs. */
  function Ensured(t: Table, userId: UserId, defaultMode: string, now: int): (r: Table)
    ensures r.Keys == t.Keys + {userId}
    ensures forall u :: u in t ==> r[u] == t[u]
    ensures userId !in t ==> r[userId] == NewDialog(defaultMode, now)
    ensures WellFormed(t) ==> WellFormed(r)
  {
    if userId in t then t else Created(t, userId, None, defaultMode, now)
  }

  /** `add_message`: one prefixed exchange at the end of the (possibly fresh) dialog. */
  function Appended(t: Table, userId: UserId, human: string, bot: string, defaultMode: string, now: int): (r: Table)
    ensures r.Keys == t.Keys + {userId}
    ensures var before := Ensured(t, userId, defaultMode, now)[userId];
      && r[userId].messages == before.messages + [StoredExchange(human, bot)]
      && r[userId].chatMode == before.chatMode
      && r[userId].startTime == before.startTime
    ensures forall u :: u in t && u != userId ==> r[u] == t[u]
    ensures WellFormed(t) ==> WellFormed(r)
  {
    var base := Ensured(t, userId, defaultMode, now);
    var d := base[userId];
    StoredExchangeIsPrefixed(human, bot);
    base[userId := d.(messages := d.messages + [StoredExchange(human, bot)])]
  }

  /** `reset_dialog`: no exchanges and a new start time; a known user keeps the mode. */
  function WasReset(t: Table, userId: UserId, defaultMode: string, now: int): (r: Table)
    ensures r.Keys == t.Keys + {userId}
    ensures r[userId].messages == [] && r[userId].startTime == now
    ensures r[userId].chatMode == if userId in t then t[userId].chatMode else defaultMode
    ensures forall u :: u in t && u != userId ==> r[u] == t[u]
    ensures WellFormed(t) ==> WellFormed(r)
  {
    if userId in t then t[userId := t[userId].(messages := [], startTime := now)]
    else Created(t, userId, None, defaultMode, now)
  }

  /** `set_chat_mode`: only the mode of a known user changes; an unknown user is an error. */
  function ModeSet(t: Table, userId: UserId, chatMode: string): (r: Result<Table, MemoryError>)
    ensures r.Ok? <==> userId in t
    ensures r.Err? ==> r.error == NoDialogFound(userId)
    ensures r.Ok? ==> && r.value.Keys == t.Keys
                      && r.value[userId].chatMode == chatMode
                      && r.value[userId].messages == t[userId].messages
                      && r.value[userId].startTime == t[userId].startTime
                      && forall u :: u in t && u != userId ==> r.value[u] == t[u]
    ensures r.Ok? && WellFormed(t) ==> WellFormed(r.value)
  {
    if userId in t then Ok(t[userId := t[userId].(chatMode := chatMode)])
    else Err(NoDialogFound(userId))
  }

  /** Asking for a dialog twice, at any two times, gives what asking once gives. */
  lemma EnsuredIdempotent(t: Table, userId: UserId, defaultMode: string, now: int, later: int)
    ensures Ensured(Ensured(t, userId, defaultMode, now), userId, defaultMode, later)
         == Ensured(t, userId, defaultMode, now)
  {
  }

  /** The table after exchanges are added one by one, oldest first. */
  function AppendedAll(t: Table, userId: UserId, exchanges: seq<(string, string)>, defaultMode: string, now: int): Table
    decreases |exchanges|
  {
    if exchanges == [] then Ensured(t, userId, defaultMode, now)
    else
      var last := exchanges[|exchanges| - 1];
      Appended(AppendedAll(t, userId, exchanges[..|exchanges| - 1], defaultMode, now), userId, last.0, last.1, defaultMode, now)
  }

  function StoredAll(exchanges: seq<(string, string)>): (r: seq<Exchange>)
    ensures |r| == |exchanges|
    ensures forall i :: 0 <= i < |r| ==> r[i] == StoredExchange(exchanges[i].0, exchanges[i].1)
  {
    seq(|exchanges|, i requires 0 <= i < |exchanges| => StoredExchange(exchanges[i].0, exchanges[i].1))
  }

  /**
   * The history is a log: after a run of `add_message` calls the dialog holds the
   * earlier exchanges followed by the new ones, prefixed, in call order, and its
   * mode and start time are those it had before the run.
   */
  lemma {:induction false} AppendedAllIsLog(t: Table, userId: UserId, exchanges: seq<(string, string)>, defaultMode: string, now: int)
    ensures var before := Ensured(t, userId, defaultMode, now)[userId];
            var after := AppendedAll(t, userId, exchanges, defaultMode, now);
      && userId in after
      && after[userId].messages == before.messages + StoredAll(exchanges)
      && after[userId].chatMode == before.chatMode
      && after[userId].startTime == before.startTime
      && forall u :: u in t && u != userId ==> u in after && after[u] == t[u]
    decreases |exchanges|
  {
    var before := Ensured(t, userId, defaultMode, now)[userId];
    if exchanges != [] {
      var init := exchanges[..|exchanges| - 1];
      var last := exchanges[|exchanges| - 1];
      AppendedAllIsLog(t, userId, init, defaultMode, now);
      var mid := AppendedAll(t, userId, init, defaultMode, now);
      assert mid[userId].messages == before.messages + StoredAll(init);
      assert Ensured(mid, userId, defaultMode, now) == mid;
      assert StoredAll(exchanges) == StoredAll(init) + [StoredExchange(last.0, last.1)];
    } else {
      assert StoredAll(exchanges) == [];
    }
  }

  /** The dialog table of one bot: `memory.py`'s `Memory`. */
  class Memory {
    var memory: Table
    const defaultChatMode: string

    ghost predicate Valid()
      reads this
    {
      WellFormed(memory)
    }

    constructor (defaultChatMode: string := DefaultChatMode)
      ensures Valid()
      ensures memory == map[] && this.defaultChatMode == defaultChatMode
    {
      memory := map[];
      this.defaultChatMode := defaultChatMode;
    }

    /** `get_dialog`; the result is what `dict.get` returns, so it may in principle be absent. */
    method GetDialog(userId: UserId, now: int) returns (d: Option<Dialog>)
      requires Valid()
      modifies this`memory
      ensures Valid()
      ensures memory == Ensured(old(memory), userId, defaultChatMode, now)
      ensures d == Some(memory[userId])
    {
      if userId !in memory {
        CreateDialog(userId, None, now);
      }
      d := if userId in memory then Some(memory[userId]) else None;
    }

    method GetChatMode(userId: UserId, now: int) returns (chatMode: string)
      requires Valid()
      modifies this`memory
      ensures Valid()
      ensures memory == Ensured(old(memory), userId, defaultChatMode, now)
      ensures chatMode == memory[userId].chatMode
    {
      var d := GetDialog(userId, now);
      chatMode := d.value.chatMode;
    }

    method CreateDialog(userId: UserId, chatMode: Option<string>, now: int)
      requires Valid()
      modifies this`memory
      ensures Valid()
      ensures memory == Created(old(memory), userId, chatMode, defaultChatMode, now)
    {
      var mode := if chatMode.None? then defaultChatMode else chatMode.value;
      memory := memory[userId := Dialog(mode, now, [])];
    }

    method AddMessage(userId: UserId, humanMessage: string, botResponse: string, now: int)
      requires Valid()
      modifies this`memory
      ensures Valid()
      ensures memory == Appended(old(memory), userId, humanMessage, botResponse, defaultChatMode, now)
    {
      var d := GetDialog(userId, now);
      var human := HumanPrefix + humanMessage;
      var bot := BotPrefix + botResponse;
      match d
      case Some(dialog) =>
        memory := memory[userId := dialog.(messages := dialog.messages + [(human, bot)])];
      case None =>
        // the "No dialog found" exception: get_dialog has just created the dialog
        assert false;
    }

    method ResetDialog(userId: UserId, now: int)
      requires Valid()
      modifies this`memory
      ensures Valid()
      ensures memory == WasReset(old(memory), userId, defaultChatMode, now)
    {
      if userId in memory {
        memory := memory[userId := memory[userId].(messages := [])];
        memory := memory[userId := memory[userId].(startTime := now)];
      } else {
        CreateDialog(userId, None, now);
      }
    }

    method SetChatMode(userId: UserId, chatMode: string) returns (r: Outcome<MemoryError>)
      requires Valid()
      modifies this`memory
      ensures Valid()
      ensures ModeSet(old(memory), userId, chatMode).Ok? ==> r == Pass && memory == ModeSet(old(memory), userId, chatMode).value
      ensures ModeSet(old(memory), userId, chatMode).Err? ==> r == Fail(NoDialogFound(userId)) && memory == old(memory)
    {
      if userId in memory {
        memory := memory[userId := memory[userId].(chatMode := chatMode)];
        r := Pass;
      } else {
        r := Fail(NoDialogFound(userId));
      }
    }
  }
}
