/**
 * Per-user token accounting (bot/database.py). The Mongo `user` collection is
 * a map from user id to a document, a map from attribute name to value; the
 * `Database` object holds that map and rewrites it the way the collection's
 * `insert_one` and `update_one({"$set": ...})` calls do.
 */
module UserDatabase {
  import opened Wrappers

  type UserId = int

  /** The `n_used_tokens` sub-document. */
  datatype TokenUsage = TokenUsage(nInputTokens: int, nOutputTokens: int, nRemainingOutputTokens: int)

  /** The attribute values the bot stores: Python `None`, strings, ints, datetimes (as ticks) and token usage. */
  datatype Value = Null | Str(s: string) | Int(i: int) | Time(ticks: int) | Usage(usage: TokenUsage)

  type Document = map<string, Value>
  type Store = map<UserId, Document>

  /**
   * `ValueError("User ... does not exist")`, raised by `check_if_user_exists(..., raise_exception=True)`,
   * and the `TypeError` of subscripting an `n_used_tokens` attribute that is absent (`None`) or not a dictionary.
   */
  datatype DbError = UserDoesNotExist(userId: UserId) | NotSubscriptable

  const UsageKey: string := "n_used_tokens"

  /** The document `add_new_user` inserts. */
  function NewUserDocument(userId: UserId, username: Value, firstName: Value, lastName: Value, now: int, available: int): (d: Document)
    ensures UsageKey in d && d[UsageKey] == Usage(TokenUsage(0, 0, available))
  {
    map["_id" := Int(userId), "username" := username, "first_name" := firstName,
        "last_name" := lastName, "first_seen" := Time(now), UsageKey := Usage(TokenUsage(0, 0, available))]
  }

  /** The store after `add_new_user`: a new user's document is inserted, an existing one is kept. */
  function WithNewUser(s: Store, userId: UserId, username: Value, firstName: Value, lastName: Value, now: int, available: int): (r: Store)
    ensures r.Keys == s.Keys + {userId}
    ensures forall u :: u in s ==> r[u] == s[u]
    ensures userId !in s ==> r[userId] == NewUserDocument(userId, username, firstName, lastName, now, available)
  {
    if userId in s then s else s[userId := NewUserDocument(userId, username, firstName, lastName, now, available)]
  }

  /**
   * Reading `n_used_tokens` and subscripting it: a missing user raises `ValueError`, a missing
   * or non-dictionary attribute raises `TypeError`.
   */
  function StoredUsage(s: Store, userId: UserId): (r: Result<TokenUsage, DbError>)
    ensures userId !in s ==> r == Err(UserDoesNotExist(userId))
    ensures r.Ok? <==> userId in s && UsageKey in s[userId] && s[userId][UsageKey].Usage?
    ensures r.Ok? ==> s[userId][UsageKey] == Usage(r.value)
    ensures r.Err? && userId in s ==> r.error == NotSubscriptable
  {
    if userId !in s then Err(UserDoesNotExist(userId))
    else if UsageKey !in s[userId] then Err(NotSubscriptable)
    else match s[userId][UsageKey]
      case Usage(u) => Ok(u)
      case _ => Err(NotSubscriptable)
  }

  /** `update_n_used_tokens`' arithmetic: counters grow by the amounts, the balance drops by the output, clamped at 0. */
  function Charged(u: TokenUsage, nInputTokens: int, nOutputTokens: int): (r: TokenUsage)
    ensures r.nInputTokens - u.nInputTokens == nInputTokens
    ensures r.nOutputTokens - u.nOutputTokens == nOutputTokens
    ensures r.nRemainingOutputTokens >= 0
    ensures r.nRemainingOutputTokens >= u.nRemainingOutputTokens - nOutputTokens
    ensures r.nRemainingOutputTokens == 0 || r.nRemainingOutputTokens == u.nRemainingOutputTokens - nOutputTokens
  {
    TokenUsage(u.nInputTokens + nInputTokens, u.nOutputTokens + nOutputTokens,
               Max(u.nRemainingOutputTokens - nOutputTokens, 0))
  }

  /** `increase_remaining_tokens`' arithmetic: only the balance moves, by exactly the amount. */
  function Credited(u: TokenUsage, tokensAdded: int): (r: TokenUsage)
    ensures r.nRemainingOutputTokens - u.nRemainingOutputTokens == tokensAdded
    ensures r.nInputTokens == u.nInputTokens && r.nOutputTokens == u.nOutputTokens
  {
    u.(nRemainingOutputTokens := u.nRemainingOutputTokens + tokensAdded)
  }

  function Max(a: int, b: int): int
  {
    if a < b then b else a
  }

  /** The store with one user's `n_used_tokens` replaced. */
  function WithUsage(s: Store, userId: UserId, u: TokenUsage): (r: Store)
    requires userId in s
    ensures r.Keys == s.Keys
    ensures r[userId].Keys == s[userId].Keys + {UsageKey}
    ensures r[userId][UsageKey] == Usage(u)
    ensures forall k :: k in s[userId] && k != UsageKey ==> r[userId][k] == s[userId][k]
    ensures forall v :: v in s && v != userId ==> r[v] == s[v]
  {
    s[userId := s[userId][UsageKey := Usage(u)]]
  }

  /** Charging never takes a balance below zero, however large the output: with balance 5 and 10 output tokens it becomes 0. */
  lemma ChargeFromFiveByTen()
    ensures Charged(TokenUsage(0, 0, 5), 3, 10) == TokenUsage(3, 10, 0)
  {
  }

  /** A charge that the balance covers subtracts exactly; one that it does not leaves exactly zero. */
  lemma ChargedExactly(u: TokenUsage, nInputTokens: int, nOutputTokens: int)
    ensures nOutputTokens <= u.nRemainingOutputTokens ==> Charged(u, nInputTokens, nOutputTokens).nRemainingOutputTokens == u.nRemainingOutputTokens - nOutputTokens
    ensures nOutputTokens > u.nRemainingOutputTokens ==> Charged(u, nInputTokens, nOutputTokens).nRemainingOutputTokens == 0
  {
  }

  /** The `Database` object over the `user` collection. */
  class Database {
    var users: Store
    /** `config.available_token_new_user`. */
    const availableTokenNewUser: int

    constructor (availableTokenNewUser: int)
      ensures users == map[] && this.availableTokenNewUser == availableTokenNewUser
    {
      users := map[];
      this.availableTokenNewUser := availableTokenNewUser;
    }

    method CheckIfUserExists(userId: UserId, raiseException: bool) returns (r: Result<bool, DbError>)
      ensures r.Ok? <==> (userId in users || !raiseException)
      ensures r.Ok? ==> (r.value <==> userId in users)
      ensures r.Err? ==> r.error == UserDoesNotExist(userId)
    {
      if userId in users {
        r := Ok(true);
      } else if raiseException {
        r := Err(UserDoesNotExist(userId));
      } else {
        r := Ok(false);
      }
    }

    method AddNewUser(userId: UserId, username: Value, firstName: Value, lastName: Value, now: int)
      modifies this`users
      ensures users == WithNewUser(old(users), userId, username, firstName, lastName, now, availableTokenNewUser)
    {
      var found := CheckIfUserExists(userId, false);
      if !found.value {
        users := users[userId := NewUserDocument(userId, username, firstName, lastName, now, availableTokenNewUser)];
      }
    }

    /** Absent attribute: `None`, here `Ok(None)`. */
    method GetUserAttribute(userId: UserId, key: string) returns (r: Result<Option<Value>, DbError>)
      ensures r.Err? <==> userId !in users
      ensures r.Err? ==> r.error == UserDoesNotExist(userId)
      ensures r.Ok? ==> (r.value.Some? <==> key in users[userId])
      ensures r.Ok? && r.value.Some? ==> r.value.value == users[userId][key]
    {
      var found := CheckIfUserExists(userId, true);
      if found.Err? {
        return Err(found.error);
      }
      var userDict := users[userId];
      if key !in userDict {
        return Ok(None);
      }
      r := Ok(Some(userDict[key]));
    }

    method SetUserAttribute(userId: UserId, key: string, value: Value) returns (r: Outcome<DbError>)
      modifies this`users
      ensures old(userId in users) ==> r == Pass && users == old(users)[userId := old(users)[userId][key := value]]
      ensures old(userId !in users) ==> r == Fail(UserDoesNotExist(userId)) && users == old(users)
    {
      var found := CheckIfUserExists(userId, true);
      if found.Err? {
        return Fail(found.error);
      }
      users := users[userId := users[userId][key := value]];
      r := Pass;
    }

    /** Reads the usage attribute and subscripts it, as the three token methods do. */
    method ReadUsage(userId: UserId) returns (r: Result<TokenUsage, DbError>)
      ensures r == StoredUsage(users, userId)
    {
      var attribute := GetUserAttribute(userId, UsageKey);
      if attribute.Err? {
        return Err(attribute.error);
      }
      match attribute.value
      case Some(Usage(u)) => r := Ok(u);
      case _ => r := Err(NotSubscriptable);
    }

    method UpdateNUsedTokens(userId: UserId, nInputTokens: int, nOutputTokens: int) returns (r: Result<int, DbError>)
      modifies this`users
      ensures StoredUsage(old(users), userId).Err? ==> r == Err(StoredUsage(old(users), userId).error) && users == old(users)
      ensures StoredUsage(old(users), userId).Ok? ==>
        var charged := Charged(StoredUsage(old(users), userId).value, nInputTokens, nOutputTokens);
        && users == WithUsage(old(users), userId, charged)
        && r == Ok(charged.nRemainingOutputTokens)
    {
      var usage := ReadUsage(userId);
      if usage.Err? {
        return Err(usage.error);
      }
      var charged := TokenUsage(usage.value.nInputTokens + nInputTokens,
                                usage.value.nOutputTokens + nOutputTokens,
                                Max(usage.value.nRemainingOutputTokens - nOutputTokens, 0));
      var written := SetUserAttribute(userId, UsageKey, Usage(charged));
      r := Ok(charged.nRemainingOutputTokens);
    }

    method GetRemainingTokens(userId: UserId) returns (r: Result<int, DbError>)
      ensures r.Ok? <==> StoredUsage(users, userId).Ok?
      ensures r.Ok? ==> r.value == StoredUsage(users, userId).value.nRemainingOutputTokens
      ensures r.Err? ==> r.error == StoredUsage(users, userId).error
    {
      var usage := ReadUsage(userId);
      if usage.Err? {
        return Err(usage.error);
      }
      r := Ok(usage.value.nRemainingOutputTokens);
    }

    method IncreaseRemainingTokens(userId: UserId, tokensAdded: int) returns (r: Result<int, DbError>)
      modifies this`users
      ensures StoredUsage(old(users), userId).Err? ==> r == Err(StoredUsage(old(users), userId).error) && users == old(users)
      ensures StoredUsage(old(users), userId).Ok? ==>
        var credited := Credited(StoredUsage(old(users), userId).value, tokensAdded);
        && users == WithUsage(old(users), userId, credited)
        && r == Ok(credited.nRemainingOutputTokens)
    {
      var usage := ReadUsage(userId);
      if usage.Err? {
        return Err(usage.error);
      }
      var credited := usage.value.(nRemainingOutputTokens := usage.value.nRemainingOutputTokens + tokensAdded);
      var written := SetUserAttribute(userId, UsageKey, Usage(credited));
      r := Ok(credited.nRemainingOutputTokens);
    }
  }
}
