/**
 * The command and button handlers of bot.py other than the registration
 * workflow: `/start`, the "delete" button of the bot-management menu, and
 * the owner-only `/admin` panel with its callbacks. Replies are modelled as
 * values; their texts and keyboards are not.
 */
module Handlers {
  import opened Wrappers
  import opened PlatformState
  import opened Storage

  /** What `/start` shows: the owner greeting or the general one, and which main-menu button. */
  datatype StartView = StartView(greetsOwner: bool, offersCreate: bool)

  /** `/start`: make the caller owner if there is none yet, then show the menu for the new state. */
  method Start(store: Store, u: int) returns (view: StartView)
    modifies store
    ensures store.Doc() == InitOwners(old(store.Doc()), u)
    ensures view.greetsOwner <==> old(store.owners) == [] || IsOwner(old(store.Doc()), u)
    ensures view.offersCreate <==> GetUserBot(store.Doc(), u) == None
  {
    store.InitOwners(u);
    InitOwnersEffect(old(store.Doc()), u);
    var userBot := GetUserBot(store.Doc(), u);
    view := StartView(IsOwner(store.Doc(), u), userBot.None?);
  }

  /** The reply of the "delete" button. */
  datatype DeleteView = NoBotToManage | Deleted | NothingDeleted

  /** The "delete" button: a user without a record is turned away before `delete_user_bot` runs. */
  method BotDelete(store: Store, u: int) returns (view: DeleteView)
    modifies store
    ensures old(GetUserBot(store.Doc(), u)) == None ==> view == NoBotToManage && store.Doc() == old(store.Doc())
    ensures old(GetUserBot(store.Doc(), u)).Some? ==>
              view == Deleted && store.Doc() == DeleteUserBot(old(store.Doc()), u).0
  {
    if GetUserBot(store.Doc(), u) == None {
      return NoBotToManage;
    }
    var ok := store.DeleteUserBot(u);
    view := if ok then Deleted else NothingDeleted;
  }

  /** One line of the created-bots report: its 1-based number and the log entry's fields. */
  datatype ReportLine = ReportLine(number: nat, botUsername: string, ownerId: int, createdAt: int, botToken: string)

  datatype BotsReport = NoneCreated | Listing(lines: seq<ReportLine>)

  function LineOf(number: nat, e: LogEntry): ReportLine {
    ReportLine(number, e.botUsername, e.ownerId, e.createdAt, e.botToken)
  }

  /**
   * `report` lists the last `min(10, |log|)` log entries, oldest first,
   * numbered from 1, and an empty log gives the "none created" reply.
   */
  ghost predicate ShowsLastTen(log: seq<LogEntry>, report: BotsReport) {
    && (report == NoneCreated <==> log == [])
    && (report.Listing? ==>
          && |report.lines| == (if |log| < 10 then |log| else 10)
          && forall i :: 0 <= i < |report.lines| ==>
               report.lines[i] == LineOf(i + 1, log[|log| - |report.lines| + i]))
  }

  /** The "created bots" section: the `enumerate` loop over `created[-10:]`. */
  method BuildBotsReport(log: seq<LogEntry>) returns (report: BotsReport)
    ensures ShowsLastTen(log, report)
  {
    var last := LastTen(log);
    if last == [] {
      return NoneCreated;
    }
    var lines: seq<ReportLine> := [];
    var i := 0;
    while i < |last|
      invariant 0 <= i <= |last|
      invariant |lines| == i
      invariant forall j :: 0 <= j < i ==> lines[j] == LineOf(j + 1, last[j])
    {
      lines := lines + [LineOf(i + 1, last[i])];
      i := i + 1;
    }
    report := Listing(lines);
    assert forall j :: 0 <= j < |last| ==> last[j] == log[|log| - |last| + j];
  }

  /** `/admin` and the `admin_` buttons. */
  datatype AdminRequest = Panel | AddMedia | Send | Bots | Stats | Settings | UnknownSection

  datatype AdminView =
    | Denied
    | PanelMenu
    | Placeholder(request: AdminRequest)
    | Report(report: BotsReport)
    | Statistics(totalBots: nat, totalUsers: nat)

  /** The owner gate, then the section: the report over the log, the two counts, or a placeholder. */
  method Admin(store: Store, u: int, request: AdminRequest) returns (view: AdminView)
    ensures !IsOwner(store.Doc(), u) <==> view == Denied
    ensures IsOwner(store.Doc(), u) && request == Panel ==> view == PanelMenu
    ensures IsOwner(store.Doc(), u) && request == Bots ==>
              view.Report? && ShowsLastTen(store.createdBots, view.report)
    ensures IsOwner(store.Doc(), u) && request == Stats ==>
              view == Statistics(|store.createdBots|, |store.users|)
    ensures IsOwner(store.Doc(), u) && request in {AddMedia, Send, Settings, UnknownSection} ==>
              view == Placeholder(request)
  {
    if !IsOwner(store.Doc(), u) {
      return Denied;
    }
    match request {
      case Panel =>
        view := PanelMenu;
      case Bots =>
        var report := BuildBotsReport(store.createdBots);
        view := Report(report);
      case Stats =>
        var (totalBots, totalUsers) := Counts(store.Doc());
        view := Statistics(totalBots, totalUsers);
      case _ =>
        view := Placeholder(request);
    }
  }

  /** With twelve log entries the report shows the last ten, numbered 1 to 10: entries 3 to 12. */
  lemma TwelveEntriesShowLastTen(log: seq<LogEntry>, report: BotsReport)
    requires |log| == 12
    requires ShowsLastTen(log, report)
    ensures report.Listing? && |report.lines| == 10
    ensures forall i :: 0 <= i < 10 ==> report.lines[i] == LineOf(i + 1, log[i + 2])
  {
  }
}
