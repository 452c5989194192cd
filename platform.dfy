/**
 * The platform as a sequence of handled events. Each handler runs to
 * completion before the next event, so the whole system is the persisted
 * document together with the pending set, and a run is a fold of steps.
 * The steps are the specification functions the handler methods are proved
 * against.
 */
module Platform {
  import opened Wrappers
  import opened Keys
  import opened Text
  import opened PlatformState
  import opened Registration

  datatype Event =
    | Start(user: int)
    | Menu(user: int, choice: MenuChoice)
    | Message(user: int, text: string, check: GetMe, now: int)
    | DeleteBot(user: int)

  datatype System = System(doc: Document, pending: set<int>)

  /** A fresh process over a missing data file. */
  function Init(): System {
    System(Default(), {})
  }

  function Step(s: System, e: Event): System {
    match e
    case Start(u) => s.(doc := InitOwners(s.doc, u))
    case Menu(u, c) => s.(pending := MenuTransition(s.doc, s.pending, u, c).1)
    case Message(u, t, c, now) =>
      var o := TokenTransition(s.doc, s.pending, u, t, c, now);
      System(o.doc, o.pending)
    case DeleteBot(u) =>
      if GetUserBot(s.doc, u) == None then s else s.(doc := DeleteUserBot(s.doc, u).0)
  }

  function Run(s: System, es: seq<Event>): System
    decreases |es|
  {
    if es == [] then s else Run(Step(s, es[0]), es[1..])
  }

  // ---------------------------------------------------------------------------
  // Owners

  lemma StepKeepsOwners(s: System, e: Event)
    requires s.doc.owners != []
    ensures Step(s, e).doc.owners == s.doc.owners
  {
    match e {
      case Start(u) =>
      case Menu(u, c) =>
      case Message(u, t, c, now) =>
        TokenTransitionDoc(s.doc, s.pending, u, t, c, now);
      case DeleteBot(u) =>
    }
  }

  /** Once there is an owner, no event changes the owner list. */
  lemma {:induction false} OwnersStable(s: System, es: seq<Event>)
    requires s.doc.owners != []
    ensures Run(s, es).doc.owners == s.doc.owners
    decreases |es|
  {
    if es != [] {
      StepKeepsOwners(s, es[0]);
      OwnersStable(Step(s, es[0]), es[1..]);
    }
  }

  /** The first `/start` on an ownerless platform makes its sender the sole owner for good. */
  lemma FirstStartOwnsForever(s: System, u: int, es: seq<Event>)
    requires s.doc.owners == []
    ensures Run(s, [Start(u)] + es).doc.owners == [u]
  {
    assert ([Start(u)] + es)[1..] == es;
    OwnersStable(Step(s, Start(u)), es);
  }

  /** Every event other than `/start` leaves the owner list as it is, even an empty one. */
  lemma NonStartKeepsOwners(s: System, e: Event)
    requires !e.Start?
    ensures Step(s, e).doc.owners == s.doc.owners
  {
    match e {
      case Menu(u, c) =>
      case Message(u, t, c, now) =>
        TokenTransitionDoc(s.doc, s.pending, u, t, c, now);
      case DeleteBot(u) =>
    }
  }

  /** A run without any `/start` leaves the owner list as it is. */
  lemma {:induction false} StartFreeRunKeepsOwners(s: System, es: seq<Event>)
    requires forall i :: 0 <= i < |es| ==> !es[i].Start?
    ensures Run(s, es).doc.owners == s.doc.owners
    decreases |es|
  {
    if es != [] {
      NonStartKeepsOwners(s, es[0]);
      StartFreeRunKeepsOwners(Step(s, es[0]), es[1..]);
    }
  }

  /** Running two stretches of events one after the other is running them joined. */
  lemma {:induction false} RunAppend(s: System, a: seq<Event>, b: seq<Event>)
    ensures Run(s, a + b) == Run(Run(s, a), b)
    decreases |a|
  {
    if a == [] {
      assert a + b == b;
    } else {
      assert (a + b)[0] == a[0];
      assert (a + b)[1..] == a[1..] + b;
      RunAppend(Step(s, a[0]), a[1..], b);
    }
  }

  /**
   * From a fresh process, whatever presses and messages come first, the first
   * user ever to send `/start` is the sole owner for good.
   */
  lemma FirstStartEverFromInit(pre: seq<Event>, u: int, es: seq<Event>)
    requires forall i :: 0 <= i < |pre| ==> !pre[i].Start?
    ensures Run(Init(), pre + ([Start(u)] + es)).doc.owners == [u]
  {
    StartFreeRunKeepsOwners(Init(), pre);
    RunAppend(Init(), pre, [Start(u)] + es);
    FirstStartOwnsForever(Run(Init(), pre), u, es);
  }

  // ---------------------------------------------------------------------------
  // One bot per user

  lemma StepKeepsRecord(s: System, e: Event, u: int)
    requires GetUserBot(s.doc, u).Some?
    requires e != DeleteBot(u)
    ensures GetUserBot(Step(s, e).doc, u) == GetUserBot(s.doc, u)
  {
    match e {
      case Start(v) =>
      case Menu(v, c) =>
      case Message(v, t, c, now) =>
        TokenTransitionDoc(s.doc, s.pending, v, t, c, now);
        if Step(s, e).doc != s.doc {
          SetUserBotEffect(s.doc, v, Strip(t), c.username, now);
        }
      case DeleteBot(v) =>
        DeleteUserBotEffect(s.doc, v);
    }
  }

  /**
   * Once a user has a record, it stays exactly as it is until that user deletes
   * it: however often "create bot" is pressed or a token is sent, no second
   * registration replaces it.
   */
  lemma {:induction false} RecordKeptUntilDeleted(s: System, u: int, es: seq<Event>)
    requires GetUserBot(s.doc, u).Some?
    requires forall i :: 0 <= i < |es| ==> es[i] != DeleteBot(u)
    ensures GetUserBot(Run(s, es).doc, u) == GetUserBot(s.doc, u)
    decreases |es|
  {
    if es != [] {
      StepKeepsRecord(s, es[0], u);
      RecordKeptUntilDeleted(Step(s, es[0]), u, es[1..]);
    }
  }

  // ---------------------------------------------------------------------------
  // Mirror consistency

  /** A message that reaches getMe and succeeds, so that it commits, names a bot not indexed yet. */
  ghost predicate FreshUsername(s: System, e: Event) {
    e.Message? && e.check.Ok? && TokenToCheck(s.doc, s.pending, e.user, e.text).Some? ==>
      e.check.username !in s.doc.bots
  }

  /** Every registration committed along the run names a bot not indexed at that point. */
  ghost predicate FreshUsernames(s: System, es: seq<Event>)
    decreases |es|
  {
    es == [] || (FreshUsername(s, es[0]) && FreshUsernames(Step(s, es[0]), es[1..]))
  }

  lemma StepPreservesMirror(s: System, e: Event)
    requires Mirror(s.doc)
    requires FreshUsername(s, e)
    ensures Mirror(Step(s, e).doc)
  {
    match e {
      case Start(u) =>
        InitOwnersPreservesMirror(s.doc, u);
      case Menu(u, c) =>
      case Message(u, t, c, now) =>
        TokenTransitionDoc(s.doc, s.pending, u, t, c, now);
        if Step(s, e).doc != s.doc {
          SetUserBotPreservesMirror(s.doc, u, Strip(t), c.username, now);
        }
      case DeleteBot(u) =>
        DeleteUserBotPreservesMirror(s.doc, u);
    }
  }

  /**
   * `bots` stays a mirror of `users` along any run in which every username
   * getMe returns for a committed registration is not yet indexed; the guard
   * of `receive_token` provides the rest.
   */
  lemma {:induction false} RunPreservesMirror(s: System, es: seq<Event>)
    requires Mirror(s.doc)
    requires FreshUsernames(s, es)
    ensures Mirror(Run(s, es).doc)
    decreases |es|
  {
    if es != [] {
      StepPreservesMirror(s, es[0]);
      RunPreservesMirror(Step(s, es[0]), es[1..]);
    }
  }

  /**
   * Two users who send the same well-formed token, which getMe resolves to the
   * same username: both are accepted, and afterwards the first user's record is
   * no longer mirrored in `bots`.
   */
  lemma SharedTokenBreaksMirror(a: int, b: int, text: string, name: string, t1: int, t2: int)
    requires a != b
    requires ':' in text
    ensures
      var s := Run(Init(), [Menu(a, CreateBot), Message(a, text, Ok(name), t1),
                            Menu(b, CreateBot), Message(b, text, Ok(name), t2)]);
      GetUserBot(s.doc, a).Some? && GetUserBot(s.doc, b).Some? && !Mirror(s.doc)
  {
    NonSpaceSurvivesStrip(text, ':');
    var token := Strip(text);
    var d1 := SetUserBot(Default(), a, token, name, t1);
    var d2 := SetUserBot(d1, b, token, name, t2);
    SharedTokenRun(a, b, text, name, t1, t2);
    SetUserBotEffect(Default(), a, token, name, t1);
    SetUserBotEffect(d1, b, token, name, t2);
    ReusedUsernameBreaksMirror(d1, a, b, token, t2);
  }

  /** The document after the shared-token events: both registrations went through. */
  lemma SharedTokenRun(a: int, b: int, text: string, name: string, t1: int, t2: int)
    requires a != b
    requires ':' in Strip(text)
    ensures Run(Init(), [Menu(a, CreateBot), Message(a, text, Ok(name), t1),
                         Menu(b, CreateBot), Message(b, text, Ok(name), t2)]) ==
            System(SetUserBot(SetUserBot(Default(), a, Strip(text), name, t1), b, Strip(text), name, t2), {})
  {
    var d1 := SetUserBot(Default(), a, Strip(text), name, t1);
    var d2 := SetUserBot(d1, b, Strip(text), name, t2);
    CreateStep(Init(), a);
    AcceptedTokenStep(System(Default(), {a}), a, text, name, t1);
    UserKeyInjective(a, b);
    assert UserKey(b) !in d1.users;
    CreateStep(System(d1, {}), b);
    AcceptedTokenStep(System(d1, {b}), b, text, name, t2);
    RunFour(Init(), Menu(a, CreateBot), Message(a, text, Ok(name), t1),
            Menu(b, CreateBot), Message(b, text, Ok(name), t2),
            System(Default(), {a}), System(d1, {}), System(d1, {b}), System(d2, {}));
  }

  /** "Create bot" pressed by a user without a record makes that user pending. */
  lemma CreateStep(s: System, u: int)
    requires GetUserBot(s.doc, u) == None
    ensures Step(s, Menu(u, CreateBot)) == System(s.doc, s.pending + {u})
  {
  }

  lemma RunThree(s0: System, e0: Event, s1: System, e1: Event, s2: System, e2: Event, s3: System)
    requires Step(s0, e0) == s1 && Step(s1, e1) == s2 && Step(s2, e2) == s3
    ensures Run(s0, [e0, e1, e2]) == s3
  {
    assert [e0, e1, e2][1..] == [e1, e2];
    assert [e1, e2][1..] == [e2];
    assert [e2][1..] == [];
    assert Run(s2, [e2]) == s3;
    assert Run(s1, [e1, e2]) == s3;
  }

  lemma RunFour(s0: System, e0: Event, e1: Event, e2: Event, e3: Event,
                s1: System, s2: System, s3: System, s4: System)
    requires Step(s0, e0) == s1 && Step(s1, e1) == s2 && Step(s2, e2) == s3 && Step(s3, e3) == s4
    ensures Run(s0, [e0, e1, e2, e3]) == s4
  {
    assert [e0, e1, e2, e3][1..] == [e1, e2, e3];
    RunThree(s1, e1, s2, e2, s3, e3, s4);
  }

  /** A pending user without a record who sends a well-formed token accepted by getMe is registered. */
  lemma AcceptedTokenStep(s: System, u: int, text: string, name: string, now: int)
    requires u in s.pending && GetUserBot(s.doc, u) == None
    requires ':' in Strip(text)
    ensures Step(s, Message(u, text, Ok(name), now)) ==
            System(SetUserBot(s.doc, u, Strip(text), name, now), s.pending - {u})
  {
    var o := TokenTransition(s.doc, s.pending, u, text, Ok(name), now);
    assert o.doc == SetUserBot(s.doc, u, Strip(text), name, now);
    assert o.pending == s.pending - {u};
  }

  /** The document after the walk-through's three events. */
  lemma ScenarioRun(a: int, text: string, name: string, now: int)
    requires ':' in Strip(text)
    ensures Run(Init(), [Start(a), Menu(a, CreateBot), Message(a, text, Ok(name), now)]) ==
            System(SetUserBot(Document([a], map[], map[], []), a, Strip(text), name, now), {})
  {
    var d1 := Document([a], map[], map[], []);
    assert Step(Init(), Start(a)) == System(d1, {});
    CreateStep(System(d1, {}), a);
    AcceptedTokenStep(System(d1, {a}), a, text, name, now);
    RunThree(Init(), Start(a), System(d1, {}), Menu(a, CreateBot), System(d1, {a}),
             Message(a, text, Ok(name), now), System(SetUserBot(d1, a, Strip(text), name, now), {}));
  }

  /**
   * The registration walk-through: the first user starts, presses "create bot"
   * and sends a token text that getMe accepts; the user is then owner, has
   * exactly the record for the trimmed token, is no longer pending, and another
   * "create bot" only shows the limit.
   */
  lemma RegistrationScenario(a: int, text: string, name: string, now: int)
    requires ':' in text
    ensures
      var s := Run(Init(), [Start(a), Menu(a, CreateBot), Message(a, text, Ok(name), now)]);
      && s.doc.owners == [a]
      && GetUserBot(s.doc, a) == Some(UserRecord(Strip(text), name, now))
      && a !in s.pending
      && |s.doc.createdBots| == 1
      && Mirror(s.doc)
      && MenuTransition(s.doc, s.pending, a, CreateBot) == (LimitReached(name), s.pending)
  {
    NonSpaceSurvivesStrip(text, ':');
    var d1 := Document([a], map[], map[], []);
    ScenarioRun(a, text, name, now);
    SetUserBotEffect(d1, a, Strip(text), name, now);
    SetUserBotPreservesMirror(d1, a, Strip(text), name, now);
  }

  /** The same walk-through with the token `111:AAA` resolved to `fooBot`. */
  lemma FooBotScenario(a: int, now: int)
    ensures
      var s := Run(Init(), [Start(a), Menu(a, CreateBot), Message(a, "111:AAA", Ok("fooBot"), now)]);
      GetUserBot(s.doc, a) == Some(UserRecord("111:AAA", "fooBot", now)) && a !in s.pending
  {
    var text := "111:AAA";
    assert text == "111" + [':'] + "AAA";
    StripUnchanged(text);
    RegistrationScenario(a, text, "fooBot", now);
  }
}
