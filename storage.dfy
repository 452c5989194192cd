/**
 * The data file as a mutable object: its four top-level entries are fields
 * that the mutators of bot.py update in place. Each method is proved to
 * leave the document its specification function in PlatformState computes.
 */
module Storage {
  import opened Keys
  import opened PlatformState

  class Store {
    var owners: seq<int>
    var users: map<string, UserRecord>
    var bots: map<string, BotRecord>
    var createdBots: seq<LogEntry>

    /** The document the fields currently hold. */
    function Doc(): Document
      reads this
    {
      Document(owners, users, bots, createdBots)
    }

    /** A store over the default document, as `load_data` gives when no file exists. */
    constructor ()
      ensures Doc() == Default()
      ensures owners == [] && users == map[] && bots == map[] && createdBots == []
    {
      owners := [];
      users := map[];
      bots := map[];
      createdBots := [];
    }

    /** Owner initialisation of `/start`. */
    method InitOwners(u: int)
      modifies this
      ensures Doc() == PlatformState.InitOwners(old(Doc()), u)
    {
      if owners == [] {
        owners := [u];
      }
    }

    method SetUserBot(u: int, token: string, username: string, now: int)
      modifies this
      ensures Doc() == PlatformState.SetUserBot(old(Doc()), u, token, username, now)
    {
      var uid := UserKey(u);
      users := users[uid := UserRecord(token, username, now)];
      bots := bots[username := BotRecord(u, token, now)];
      createdBots := createdBots + [LogEntry(u, username, now, token)];
    }

    method DeleteUserBot(u: int) returns (deleted: bool)
      modifies this
      ensures (Doc(), deleted) == PlatformState.DeleteUserBot(old(Doc()), u)
    {
      var uid := UserKey(u);
      if uid !in users {
        return false;
      }
      var username := users[uid].botUsername;
      users := users - {uid};
      if username in bots {
        bots := bots - {username};
      }
      deleted := true;
    }
  }
}
