/**
 * The client's in-memory logger (frontend/src/utils/logger.ts): entries are
 * kept in order, at most `MaxLogs` of them, the oldest dropped first. The
 * clock is the `now` parameter; the user id is read from the stored token
 * through `tokenUser`, which stands for decoding the JWT payload and taking
 * `sub || user_id` (`None` for any decoding error).
 */
module WebLogger {
  import opened Wrappers
  import opened WebStorage
  import Strings

  const MaxLogs := 1000
  /** The logger reads this key itself, whatever the environment says. */
  const TokenKey := "access_token"

  datatype LogLevel = Debug | Info | Warn | Error

  /** A context value: text, the summary of an `Error`, or `undefined`. */
  datatype Value = Text(text: string) | ErrorSummary(name: string, message: string, stack: Option<string>) | Undefined

  datatype LogEntry = LogEntry(timestamp: string, level: LogLevel, message: string,
                               context: Option<map<string, Value>>, userId: Option<string>)

  datatype Category = Auth | TaskCategory | Navigation | Ui {
    function Name(): string {
      match this
      case Auth => "auth"
      case TaskCategory => "task"
      case Navigation => "navigation"
      case Ui => "ui"
    }
  }

  /** The last `n` elements of `s` (all of them when there are fewer). */
  function LastN<T>(s: seq<T>, n: nat): (r: seq<T>)
    ensures |r| <= n && |r| <= |s|
    ensures |s| <= n ==> r == s
  {
    if |s| <= n then s else s[|s| - n..]
  }

  /** Appending to a window of the last `n` and dropping one when over gives the window of the longer history. */
  lemma LastNPush<T>(s: seq<T>, e: T, n: nat)
    requires n > 0
    ensures var w := LastN(s, n) + [e];
      LastN(s + [e], n) == (if |w| > n then w[1..] else w)
  {
    var w := LastN(s, n) + [e];
    if |s| + 1 > n {
      if |s| <= n {
        assert |s| == n && w == s + [e];
      } else {
        assert (s + [e])[|s| + 1 - n..] == s[|s| - n..][1..] + [e];
      }
    }
  }

  /** `logs.filter(log => log.level === level)`: exactly the entries of that level; `FilterLevelAppend` gives their order. */
  function FilterLevel(logs: seq<LogEntry>, level: LogLevel): (r: seq<LogEntry>)
    ensures |r| <= |logs|
    ensures forall i :: 0 <= i < |r| ==> r[i].level == level
    ensures forall e :: e in r <==> e in logs && e.level == level
  {
    if logs == [] then []
    else (if logs[0].level == level then [logs[0]] else []) + FilterLevel(logs[1..], level)
  }

  /** `logs.filter(log => log.userId === userId)`: exactly the entries of that user; `FilterUserAppend` gives their order. */
  function FilterUser(logs: seq<LogEntry>, userId: string): (r: seq<LogEntry>)
    ensures |r| <= |logs|
    ensures forall i :: 0 <= i < |r| ==> r[i].userId == Some(userId)
    ensures forall e :: e in r <==> e in logs && e.userId == Some(userId)
  {
    if logs == [] then []
    else (if logs[0].userId == Some(userId) then [logs[0]] else []) + FilterUser(logs[1..], userId)
  }

  /**
   * The filter keeps stored order: filtering two runs of entries is filtering
   * each and joining the results. With the one-entry case in the definition,
   * this fixes the result as the matching entries in the order they were stored.
   */
  lemma {:induction false} FilterLevelAppend(a: seq<LogEntry>, b: seq<LogEntry>, level: LogLevel)
    ensures FilterLevel(a + b, level) == FilterLevel(a, level) + FilterLevel(b, level)
    decreases |a|
  {
    if a != [] {
      assert (a + b)[0] == a[0] && (a + b)[1..] == a[1..] + b;
      FilterLevelAppend(a[1..], b, level);
    } else {
      assert a + b == b;
    }
  }

  /** The same order property for the filter by user. */
  lemma {:induction false} FilterUserAppend(a: seq<LogEntry>, b: seq<LogEntry>, userId: string)
    ensures FilterUser(a + b, userId) == FilterUser(a, userId) + FilterUser(b, userId)
    decreases |a|
  {
    if a != [] {
      assert (a + b)[0] == a[0] && (a + b)[1..] == a[1..] + b;
      FilterUserAppend(a[1..], b, userId);
    } else {
      assert a + b == b;
    }
  }

  /** Every level's entries together account for every entry. */
  lemma {:induction false} FilterLevelPartition(logs: seq<LogEntry>)
    ensures |FilterLevel(logs, Debug)| + |FilterLevel(logs, Info)| + |FilterLevel(logs, Warn)| + |FilterLevel(logs, Error)| == |logs|
  {
    if logs != [] {
      FilterLevelPartition(logs[1..]);
    }
  }

  class Logger {
    const isDevelopment: bool
    const storage: LocalStorage
    const tokenUser: string -> Option<string>
    var logs: seq<LogEntry>
    /** Every entry stored since the logger was made or last cleared. */
    ghost var stored: seq<LogEntry>

    ghost predicate Valid()
      reads this
    {
      logs == LastN(stored, MaxLogs)
    }

    /** `isDevelopment` is `process.env.NODE_ENV === 'development'`. */
    constructor (nodeEnv: Option<string>, storage: LocalStorage, tokenUser: string -> Option<string>)
      ensures Valid() && logs == [] && stored == []
      ensures isDevelopment == (nodeEnv == Some("development"))
      ensures this.storage == storage && this.tokenUser == tokenUser
    {
      isDevelopment := nodeEnv == Some("development");
      this.storage := storage;
      this.tokenUser := tokenUser;
      logs := [];
      stored := [];
    }

    /** `getUserId`: the user of the token stored under `access_token`, if any can be decoded. */
    function UserId(): Option<string>
      reads storage
    {
      var token := storage.GetItem(TokenKey);
      if token.Some? && token.value != "" then tokenUser(token.value) else None
    }

    function CreateLogEntry(now: string, level: LogLevel, message: string, context: Option<map<string, Value>>): LogEntry
      reads storage
    {
      LogEntry(now, level, message, context, UserId())
    }

    /** `storeLog`: push, then drop the oldest when over the limit. */
    method StoreLog(entry: LogEntry)
      requires Valid()
      modifies this
      ensures Valid() && stored == old(stored) + [entry]
      ensures |logs| <= MaxLogs && logs[|logs| - 1] == entry
    {
      LastNPush(stored, entry, MaxLogs);
      logs := logs + [entry];
      if |logs| > MaxLogs {
        logs := logs[1..];
      }
      stored := stored + [entry];
    }

    /** `debug`: stored only in development. */
    method LogDebug(now: string, message: string, context: Option<map<string, Value>>)
      requires Valid()
      modifies this
      ensures Valid()
      ensures stored == (if isDevelopment then old(stored) + [CreateLogEntry(now, Debug, message, context)] else old(stored))
    {
      if isDevelopment {
        StoreLog(CreateLogEntry(now, Debug, message, context));
      }
    }

    method LogInfo(now: string, message: string, context: Option<map<string, Value>>)
      requires Valid()
      modifies this
      ensures Valid() && stored == old(stored) + [CreateLogEntry(now, Info, message, context)]
    {
      StoreLog(CreateLogEntry(now, Info, message, context));
    }

    method LogWarn(now: string, message: string, context: Option<map<string, Value>>)
      requires Valid()
      modifies this
      ensures Valid() && stored == old(stored) + [CreateLogEntry(now, Warn, message, context)]
    {
      StoreLog(CreateLogEntry(now, Warn, message, context));
    }

    /** `error`: the context always gains an `error` key, `undefined` when no error was passed. */
    method LogError(now: string, message: string, error: Option<Value>, context: Option<map<string, Value>>)
      requires Valid()
      modifies this
      ensures Valid()
      ensures stored == old(stored) + [CreateLogEntry(now, Error, message, Some(ErrorContext(error, context)))]
    {
      StoreLog(CreateLogEntry(now, Error, message, Some(ErrorContext(error, context))));
    }

    /** `logAction`: an info entry "User action: <action>" whose context is the category overlaid by the metadata. */
    method LogAction(now: string, action: string, category: Category, metadata: Option<map<string, Value>>)
      requires Valid()
      modifies this
      ensures Valid()
      ensures stored == old(stored) + [CreateLogEntry(now, Info, "User action: " + action, Some(ActionContext(category, metadata)))]
    {
      StoreLog(CreateLogEntry(now, Info, "User action: " + action, Some(ActionContext(category, metadata))));
    }

    /** `getLogs`: a copy of what is kept. */
    method GetLogs() returns (r: seq<LogEntry>)
      requires Valid()
      ensures r == LastN(stored, MaxLogs) && |r| <= MaxLogs
    {
      r := logs;
    }

    method ClearLogs()
      modifies this
      ensures Valid() && logs == [] && stored == []
    {
      logs := [];
      stored := [];
    }

    function GetLogsByLevel(level: LogLevel): seq<LogEntry>
      reads this
    {
      FilterLevel(logs, level)
    }

    function GetLogsByUserId(userId: string): seq<LogEntry>
      reads this
    {
      FilterUser(logs, userId)
    }
  }

  /** `{...context, error: error ? {...} : undefined}`. */
  function ErrorContext(error: Option<Value>, context: Option<map<string, Value>>): (r: map<string, Value>)
    ensures "error" in r && r["error"] == error.GetOr(Undefined)
    ensures context.Some? ==> forall k :: k in context.value && k != "error" ==> k in r && r[k] == context.value[k]
  {
    context.GetOr(map[])["error" := error.GetOr(Undefined)]
  }

  /** `{category, ...metadata}`: a metadata key named `category` overrides the category. */
  function ActionContext(category: Category, metadata: Option<map<string, Value>>): (r: map<string, Value>)
    ensures "category" in r
    ensures metadata.None? || "category" !in metadata.value ==> r["category"] == Text(category.Name())
    ensures metadata.Some? ==> forall k :: k in metadata.value ==> k in r && r[k] == metadata.value[k]
  {
    map["category" := Text(category.Name())] + metadata.GetOr(map[])
  }

  /**
   * A long session keeps only the newest entries: after `MaxLogs + 1` info
   * entries the first one is gone and the others are kept in order.
   */
  method Overflow(storage: LocalStorage, tokenUser: string -> Option<string>, now: string, messages: seq<string>)
    returns (kept: seq<LogEntry>)
    requires |messages| == MaxLogs + 1
    ensures |kept| == MaxLogs
    ensures forall k :: 0 <= k < MaxLogs ==> kept[k].message == messages[k + 1] && kept[k].level == Info
  {
    var logger := new Logger(None, storage, tokenUser);
    var i := 0;
    while i < |messages|
      invariant 0 <= i <= |messages|
      invariant logger.Valid() && |logger.stored| == i && logger.storage == storage
      invariant forall k :: 0 <= k < i ==> logger.stored[k].message == messages[k] && logger.stored[k].level == Info
    {
      logger.LogInfo(now, messages[i], None);
      i := i + 1;
    }
    kept := logger.GetLogs();
  }
}
