/**
 * The persisted platform document (`data.json`) and the operations on it.
 * Every mutator of the source loads the whole document, changes it and saves
 * it back; here each mutator is a function from the old document to the new
 * one, and Storage.Store replays them on mutable fields.
 */
module PlatformState {
  import opened Wrappers
  import opened Keys

  /** A user's one registered bot, stored under `users[str(user_id)]`. */
  datatype UserRecord = UserRecord(botToken: string, botUsername: string, createdAt: int)

  /** The secondary index entry `bots[bot_username]`. */
  datatype BotRecord = BotRecord(ownerId: int, botToken: string, createdAt: int)

  /** One entry of the append-only creation log `stats.created_bots`. */
  datatype LogEntry = LogEntry(ownerId: int, botUsername: string, createdAt: int, botToken: string)

  datatype Document = Document(
    owners: seq<int>,
    users: map<string, UserRecord>,
    bots: map<string, BotRecord>,
    createdBots: seq<LogEntry>)

  /** The document `load_data` returns when no data file exists yet. */
  function Default(): Document {
    Document([], map[], map[], [])
  }

  /** `is_owner`. */
  predicate IsOwner(d: Document, u: int) {
    u in d.owners
  }

  /** `get_user_bot`: the record stored under `str(u)`, if any. */
  function GetUserBot(d: Document, u: int): Option<UserRecord> {
    var k := UserKey(u);
    if k in d.users then Some(d.users[k]) else None
  }

  /** Owner initialisation in `/start`: an empty owner list becomes `[u]`. */
  function InitOwners(d: Document, u: int): Document {
    if d.owners == [] then d.(owners := [u]) else d
  }

  /** `set_user_bot`: overwrite the user record and the index entry, append to the log. */
  function SetUserBot(d: Document, u: int, token: string, username: string, now: int): Document {
    d.(users := d.users[UserKey(u) := UserRecord(token, username, now)],
       bots := d.bots[username := BotRecord(u, token, now)],
       createdBots := d.createdBots + [LogEntry(u, username, now, token)])
  }

  /**
   * `delete_user_bot`: the new document and whether there was a record.
   * The index entry named by the record is removed only when it is present.
   */
  function DeleteUserBot(d: Document, u: int): (Document, bool) {
    var k := UserKey(u);
    if k !in d.users then (d, false)
    else
      var name := d.users[k].botUsername;
      (d.(users := d.users - {k},
          bots := if name in d.bots then d.bots - {name} else d.bots), true)
  }

  /** The user record under key `k` has an index entry naming that user with the same token and time. */
  ghost predicate Indexed(d: Document, k: string)
    requires k in d.users
  {
    var r := d.users[k];
    && r.botUsername in d.bots
    && UserKey(d.bots[r.botUsername].ownerId) == k
    && d.bots[r.botUsername].botToken == r.botToken
    && d.bots[r.botUsername].createdAt == r.createdAt
  }

  /** The index entry `n` belongs to a user whose record names `n`. */
  ghost predicate Backed(d: Document, n: string)
    requires n in d.bots
  {
    var k := UserKey(d.bots[n].ownerId);
    k in d.users && d.users[k].botUsername == n
  }

  /** `bots` mirrors `users`: every record is indexed and every index entry is backed. */
  ghost predicate Mirror(d: Document) {
    && (forall k :: k in d.users ==> Indexed(d, k))
    && (forall n :: n in d.bots ==> Backed(d, n))
  }

  /** `created[-10:]`: the last ten log entries, or the whole log when it is shorter. */
  function LastTen(log: seq<LogEntry>): (r: seq<LogEntry>)
    ensures |r| == if |log| < 10 then |log| else 10
    ensures log == log[..|log| - |r|] + r
  {
    if |log| <= 10 then log else log[|log| - 10..]
  }

  /** The two figures of the statistics panel: log length and number of user records. */
  function Counts(d: Document): (nat, nat) {
    (|d.createdBots|, |d.users|)
  }

  // ---------------------------------------------------------------------------
  // What the mutators promise

  /** The first `/start` on an empty owner list makes that user the sole owner; otherwise owners stay. */
  lemma InitOwnersEffect(d: Document, u: int)
    ensures d.owners == [] ==> InitOwners(d, u).owners == [u]
    ensures d.owners != [] ==> InitOwners(d, u).owners == d.owners
    ensures IsOwner(InitOwners(d, u), u) <==> d.owners == [] || IsOwner(d, u)
    ensures InitOwners(d, u).(owners := d.owners) == d
  {
  }

  /**
   * `set_user_bot` stores the record for `u` and the index entry for `username`,
   * appends exactly one log entry, and leaves owners, every other user's record
   * and every other index entry as they were.
   */
  lemma SetUserBotEffect(d: Document, u: int, token: string, username: string, now: int)
    ensures GetUserBot(SetUserBot(d, u, token, username, now), u) == Some(UserRecord(token, username, now))
    ensures SetUserBot(d, u, token, username, now).bots[username] == BotRecord(u, token, now)
    ensures SetUserBot(d, u, token, username, now).createdBots == d.createdBots + [LogEntry(u, username, now, token)]
    ensures SetUserBot(d, u, token, username, now).owners == d.owners
    ensures forall v :: v != u ==> GetUserBot(SetUserBot(d, u, token, username, now), v) == GetUserBot(d, v)
    ensures forall n :: n != username ==> (n in SetUserBot(d, u, token, username, now).bots <==> n in d.bots)
    ensures forall n :: n != username && n in d.bots ==> SetUserBot(d, u, token, username, now).bots[n] == d.bots[n]
  {
    forall v | v != u
      ensures GetUserBot(SetUserBot(d, u, token, username, now), v) == GetUserBot(d, v)
    {
      UserKeyInjective(u, v);
    }
  }

  /**
   * `delete_user_bot` without a record reports false and changes nothing; with a
   * record it reports true, removes exactly that record, removes the index entry
   * the record names if there is one, and never touches the log, the owners or
   * any other user's record.
   */
  lemma DeleteUserBotEffect(d: Document, u: int)
    ensures GetUserBot(d, u) == None ==> DeleteUserBot(d, u) == (d, false)
    ensures GetUserBot(d, u).Some? ==>
      var (d', deleted) := DeleteUserBot(d, u);
      var name := GetUserBot(d, u).value.botUsername;
      && deleted
      && GetUserBot(d', u) == None
      && d'.bots == (if name in d.bots then d.bots - {name} else d.bots)
      && d'.createdBots == d.createdBots
      && d'.owners == d.owners
      && forall v :: v != u ==> GetUserBot(d', v) == GetUserBot(d, v)
  {
    if GetUserBot(d, u).Some? {
      var d' := DeleteUserBot(d, u).0;
      forall v | v != u ensures GetUserBot(d', v) == GetUserBot(d, v) {
        UserKeyInjective(u, v);
      }
    }
  }

  /** Each registration adds one log entry, and one user exactly when `u` had no record. */
  lemma SetUserBotCounts(d: Document, u: int, token: string, username: string, now: int)
    ensures Counts(SetUserBot(d, u, token, username, now)).0 == Counts(d).0 + 1
    ensures Counts(SetUserBot(d, u, token, username, now)).1 ==
            if GetUserBot(d, u) == None then Counts(d).1 + 1 else Counts(d).1
  {
  }

  // ---------------------------------------------------------------------------
  // Mirror consistency holds only under the guard of `receive_token`

  lemma DefaultMirror()
    ensures Mirror(Default())
  {
  }

  /**
   * Registering a user who has no record, under a username nobody has indexed,
   * keeps `bots` a mirror of `users`. `set_user_bot` itself checks neither.
   */
  lemma SetUserBotPreservesMirror(d: Document, u: int, token: string, username: string, now: int)
    requires Mirror(d)
    requires GetUserBot(d, u) == None
    requires username !in d.bots
    ensures Mirror(SetUserBot(d, u, token, username, now))
  {
    var d' := SetUserBot(d, u, token, username, now);
    var key := UserKey(u);
    forall k | k in d'.users ensures Indexed(d', k) {
      if k != key {
        assert Indexed(d, k);
        assert d.users[k].botUsername != username;
      }
    }
    forall n | n in d'.bots ensures Backed(d', n) {
      if n != username {
        assert Backed(d, n);
        assert UserKey(d.bots[n].ownerId) != key;
      }
    }
  }

  /** Deleting keeps the mirror: the index entry the record names is the user's own. */
  lemma DeleteUserBotPreservesMirror(d: Document, u: int)
    requires Mirror(d)
    ensures Mirror(DeleteUserBot(d, u).0)
  {
    var key := UserKey(u);
    if key in d.users {
      var d' := DeleteUserBot(d, u).0;
      var name := d.users[key].botUsername;
      assert Indexed(d, key);
      forall k | k in d'.users ensures Indexed(d', k) {
        assert Indexed(d, k);
        assert d.users[k].botUsername != name;
      }
      forall n | n in d'.bots ensures Backed(d', n) {
        assert Backed(d, n);
      }
    }
  }

  lemma InitOwnersPreservesMirror(d: Document, u: int)
    requires Mirror(d)
    ensures Mirror(InitOwners(d, u))
  {
  }

  /**
   * Without that guard the mirror breaks: when a second user registers the
   * username that the first user's record names, `bots` is overwritten and
   * the first user's record is no longer indexed.
   */
  lemma ReusedUsernameBreaksMirror(d: Document, u: int, v: int, token: string, now: int)
    requires GetUserBot(d, u).Some?
    requires v != u
    ensures !Mirror(SetUserBot(d, v, token, GetUserBot(d, u).value.botUsername, now))
  {
    var name := GetUserBot(d, u).value.botUsername;
    var d' := SetUserBot(d, v, token, name, now);
    SetUserBotEffect(d, v, token, name, now);
    UserKeyInjective(u, v);
    assert UserKey(u) in d'.users && d'.users[UserKey(u)].botUsername == name;
    assert !Indexed(d', UserKey(u));
  }
}
