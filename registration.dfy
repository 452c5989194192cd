/**
 * The per-user token registration: the in-memory `waiting_for_token` map,
 * set by the "create bot" button and consumed by `receive_token`. The map
 * only ever holds `True`, so it is modelled as the set of pending user ids.
 * The `getMe` request is not made here: its outcome is an input.
 */
module Registration {
  import opened Wrappers
  import opened Text
  import opened PlatformState
  import opened Storage

  /** The buttons of the main menu that `main_menu_callbacks` handles. */
  datatype MenuChoice = About | CreateBot | MyBot

  /** What the main menu callback shows. */
  datatype MenuView =
    | AboutText
    | LimitReached(botUsername: string)   // create pressed with a bot already registered
    | AskForToken                         // create pressed without a bot: now waiting for the token
    | NoBotYet
    | ManageBot(botUsername: string)

  /** The outcome of `GET https://api.telegram.org/bot<token>/getMe`. */
  datatype GetMe = NetworkError | NotOk | Ok(username: string)

  /** The reply `receive_token` sends. */
  datatype TokenReply =
    | NotIntercepted           // the sender is not waiting: the handler's filter does not fire
    | NotAToken                // no ':' after trimming
    | AlreadyHasBot            // the user already has a record
    | CheckFailed              // the getMe request raised
    | InvalidToken             // getMe answered ok=false
    | Ready(botUsername: string)

  datatype Outcome = Outcome(doc: Document, pending: set<int>, reply: TokenReply)

  /** `main_menu_callbacks`: the view and the new pending set. The document is only read. */
  function MenuTransition(d: Document, pending: set<int>, u: int, choice: MenuChoice): (MenuView, set<int>) {
    match choice
    case About => (AboutText, pending)
    case CreateBot =>
      (match GetUserBot(d, u)
       case Some(r) => (LimitReached(r.botUsername), pending)
       case None => (AskForToken, pending + {u}))
    case MyBot =>
      (match GetUserBot(d, u)
       case Some(r) => (ManageBot(r.botUsername), pending)
       case None => (NoBotYet, pending))
  }

  /** The token `receive_token` sends to getMe, or None when it replies before making the request. */
  function TokenToCheck(d: Document, pending: set<int>, u: int, text: string): Option<string> {
    var token := Strip(text);
    if u !in pending || ':' !in token || GetUserBot(d, u).Some? then None else Some(token)
  }

  /** `receive_token`, given the getMe outcome and the clock reading `now`. */
  function TokenTransition(d: Document, pending: set<int>, u: int, text: string, check: GetMe, now: int): Outcome {
    if u !in pending then Outcome(d, pending, NotIntercepted)
    else
      var token := Strip(text);
      if ':' !in token then Outcome(d, pending, NotAToken)
      else if GetUserBot(d, u).Some? then Outcome(d, pending - {u}, AlreadyHasBot)
      else
        match check
        case NetworkError => Outcome(d, pending, CheckFailed)
        case NotOk => Outcome(d, pending, InvalidToken)
        case Ok(name) => Outcome(SetUserBot(d, u, token, name, now), pending - {u}, Ready(name))
  }

  // ---------------------------------------------------------------------------
  // What the workflow promises

  /**
   * Only "create bot" pressed by a user without a record makes that user pending;
   * no button changes any other user's pending state, and a user with a record
   * is never prompted: "create bot" shows them the limit view naming their bot.
   */
  lemma MainMenuGate(d: Document, pending: set<int>, u: int, choice: MenuChoice)
    ensures var (view, p) := MenuTransition(d, pending, u, choice);
      && (u in p <==> u in pending || (choice == CreateBot && GetUserBot(d, u) == None))
      && p - {u} == pending - {u}
      && (GetUserBot(d, u).Some? ==> p == pending && view != AskForToken)
      && (choice == CreateBot && GetUserBot(d, u).Some? ==> view == LimitReached(GetUserBot(d, u).value.botUsername))
      && (view == AskForToken <==> choice == CreateBot && GetUserBot(d, u) == None)
  {
  }

  /** A text without ':' never reaches getMe: it is rejected, still pending, with the store unchanged. */
  lemma MalformedTokenRejected(d: Document, pending: set<int>, u: int, text: string, check: GetMe, now: int)
    requires u in pending
    requires ':' !in text
    ensures TokenToCheck(d, pending, u, text) == None
    ensures TokenTransition(d, pending, u, text, check, now) == Outcome(d, pending, NotAToken)
  {
    NonSpaceSurvivesStrip(text, ':');
  }

  /** The reply and the new state depend on the getMe outcome only when the request is made. */
  lemma NoRequestNoDependence(d: Document, pending: set<int>, u: int, text: string, c1: GetMe, c2: GetMe, now: int)
    requires TokenToCheck(d, pending, u, text) == None
    ensures TokenTransition(d, pending, u, text, c1, now) == TokenTransition(d, pending, u, text, c2, now)
  {
  }

  /** The request is made with the trimmed text, which contains ':'. */
  lemma RequestedTokenWellFormed(d: Document, pending: set<int>, u: int, text: string)
    requires TokenToCheck(d, pending, u, text).Some?
    ensures TokenToCheck(d, pending, u, text).value == Strip(text)
    ensures ':' in text && u in pending && GetUserBot(d, u) == None
  {
    NonSpaceSurvivesStrip(text, ':');
  }

  /**
   * The outcomes of `receive_token` for a pending user: recoverable failures keep
   * the user pending and the store unchanged; an existing record clears the
   * pending state and creates nothing; success stores exactly the trimmed token
   * under the returned username and then clears the pending state. Nobody else's
   * pending state changes.
   */
  lemma ReceiveTokenOutcome(d: Document, pending: set<int>, u: int, text: string, check: GetMe, now: int)
    requires u in pending
    ensures var o := TokenTransition(d, pending, u, text, check, now);
      && o.pending - {u} == pending - {u}
      && (u in o.pending <==> o.reply in {NotAToken, CheckFailed, InvalidToken})
      && (o.doc != d <==> o.reply.Ready?)
      && (GetUserBot(d, u).Some? ==> o.doc == d && o.reply in {NotAToken, AlreadyHasBot})
      && (o.reply == AlreadyHasBot <==> ':' in text && GetUserBot(d, u).Some?)
      && (o.reply == CheckFailed <==> TokenToCheck(d, pending, u, text).Some? && check == NetworkError)
      && (o.reply == InvalidToken <==> TokenToCheck(d, pending, u, text).Some? && check == NotOk)
      && (o.reply.Ready? <==> TokenToCheck(d, pending, u, text).Some? && check.Ok?)
      && (o.reply.Ready? ==>
            && o.reply.botUsername == check.username
            && o.doc == SetUserBot(d, u, Strip(text), check.username, now)
            && GetUserBot(o.doc, u) == Some(UserRecord(Strip(text), check.username, now)))
  {
    NonSpaceSurvivesStrip(text, ':');
    var o := TokenTransition(d, pending, u, text, check, now);
    if o.reply.Ready? {
      SetUserBotEffect(d, u, Strip(text), check.username, now);
      assert |o.doc.createdBots| == |d.createdBots| + 1;
    }
  }

  /** The document changes only by the registration of a user who had no record, with a getMe success. */
  lemma TokenTransitionDoc(d: Document, pending: set<int>, u: int, text: string, check: GetMe, now: int)
    ensures var o := TokenTransition(d, pending, u, text, check, now);
      || o.doc == d
      || (&& check.Ok? && u in pending && GetUserBot(d, u) == None
          && o.doc == SetUserBot(d, u, Strip(text), check.username, now))
  {
  }

  /** The state of the `waiting_for_token` map, with the handlers that change it. */
  class Waiting {
    var pending: set<int>

    /** At process start nobody is waiting: the map is not persisted. */
    constructor ()
      ensures pending == {}
    {
      pending := {};
    }

    method MainMenu(store: Store, u: int, choice: MenuChoice) returns (view: MenuView)
      modifies this
      ensures (view, pending) == MenuTransition(store.Doc(), old(pending), u, choice)
    {
      var userBot := GetUserBot(store.Doc(), u);
      match choice {
        case About =>
          view := AboutText;
        case CreateBot =>
          if userBot.Some? {
            view := LimitReached(userBot.value.botUsername);
            return;
          }
          pending := pending + {u};
          view := AskForToken;
        case MyBot =>
          if userBot.None? {
            view := NoBotYet;
            return;
          }
          view := ManageBot(userBot.value.botUsername);
      }
    }

    method ReceiveToken(store: Store, u: int, text: string, check: GetMe, now: int) returns (reply: TokenReply)
      modifies this, store
      ensures Outcome(store.Doc(), pending, reply) ==
              TokenTransition(old(store.Doc()), old(pending), u, text, check, now)
    {
      if u !in pending {
        return NotIntercepted;
      }
      var token := Strip(text);
      if ':' !in token {
        return NotAToken;
      }
      if GetUserBot(store.Doc(), u).Some? {
        pending := pending - {u};
        return AlreadyHasBot;
      }
      match check {
        case NetworkError =>
          reply := CheckFailed;
        case NotOk =>
          reply := InvalidToken;
        case Ok(username) =>
          store.SetUserBot(u, token, username, now);
          pending := pending - {u};
          reply := Ready(username);
      }
    }
  }
}
