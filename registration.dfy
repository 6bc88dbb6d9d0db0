/**
 * The registration dialogue of the bot as a transition system on values: the
 * `Registration` states group, the dispatcher's choice of handler for an
 * incoming update, the effect of each handler on the user's FSM session and on
 * the `users` table, and the row that the last handler inserts.
 *
 * The imperative handlers in module Bot are proved to behave as `Deliver`
 * says; the lemmas here state what that behaviour amounts to.
 */
module Registration {
  import opened Wrappers
  import opened PyText
  import opened Commands

  /** The states of the `Registration` states group, in declaration order. */
  datatype Step = Name | City | Activity | Meet | Mentor | Contacts

  /** The steps a registering user actually passes through, in order. */
  const Flow: seq<Step> := [Name, City, Activity, Meet, Contacts]

  /** The session-data key under which the answer given in a step is stored. */
  function Key(s: Step): string
    requires s != Mentor
  {
    match s
    case Name => "name"
    case City => "city"
    case Activity => "activity"
    case Meet => "meet"
    case Contacts => "contacts"
  }

  /** The keys the committed row reads from the session data. */
  predicate IsRowKey(k: string) {
    k == "name" || k == "city" || k == "activity" || k == "meet" || k == "contacts"
  }

  /** Whether the data map holds every key the committed row reads. */
  predicate HasRowKeys(data: map<string, string>) {
    "name" in data && "city" in data && "activity" in data && "meet" in data && "contacts" in data
  }

  /**
   * An update delivered by the chat transport: a text message, or the press
   * of an inline button carrying its callback data. `from` is the sender's
   * optional Telegram username.
   */
  datatype Event =
    | Message(text: string, from: Option<string>)
    | Callback(payload: string, from: Option<string>)

  /** A row of the `users` table as `finish_registration` inserts it. */
  datatype Row = Row(
    userName: string,
    cityId: int,
    activityId: int,
    inMeetings: bool,
    inContacts: bool,
    tgUsername: Option<string>)

  /** One user's FSM session: the current state (none at first) and the data map. */
  datatype Session = Session(state: Option<Step>, data: map<string, string>)

  const Initial: Session := Session(None, map[])

  /**
   * The part of the world the dialogue touches: the user's session, the
   * `users` table, and the bot's own username, which the `/start` filter
   * compares a mention with.
   */
  datatype World = World(session: Session, users: seq<Row>, botUsername: string)

  /** The six handlers registered with the dispatcher, in registration order. */
  datatype Handler =
    | CommandStart
    | ProcessName
    | ProcessCity
    | ProcessActivity
    | ProcessMeet
    | FinishRegistration

  /** What the bot answers, reduced to which prompt or notice it is. */
  datatype Reply =
    | Silent
    | AlreadyRegistered
    | AskName
    | AskCity
    | AskActivity
    | AskMeet
    | AskContacts
    | Congratulated

  /** Why building the committed row raises: a `KeyError` or a `ValueError` from `int()`. */
  datatype CommitError = MissingKey(key: string) | NotAnInteger(key: string)

  /**
   * The outcome of one update: the new world, the reply sent, and the error
   * building the committed row raised, if any. Errors of the chat API are not
   * part of the model.
   */
  datatype Delivery = Delivery(world: World, reply: Reply, raised: Option<CommitError>)

  /** The position of a handler in the order the handlers are registered. */
  function Precedence(h: Handler): nat {
    match h
    case CommandStart => 0
    case ProcessName => 1
    case ProcessCity => 2
    case ProcessActivity => 3
    case ProcessMeet => 4
    case FinishRegistration => 5
  }

  /**
   * The filter each handler is registered with: `CommandStart()` with no state
   * filter, a message filter on `Registration.name` alone, and a callback-query
   * filter on one state for each of the others. Every handler but
   * `command_start` names a state, and none names `mentor`.
   */
  predicate Accepts(h: Handler, state: Option<Step>, ev: Event, me: string)
    ensures Accepts(h, state, ev, me) && h != CommandStart ==> state.Some? && state.value != Mentor
  {
    match h
    case CommandStart => ev.Message? && IsStartCommand(ev.text, me)
    case ProcessName => ev.Message? && state == Some(Name)
    case ProcessCity => ev.Callback? && state == Some(City)
    case ProcessActivity => ev.Callback? && state == Some(Activity)
    case ProcessMeet => ev.Callback? && state == Some(Meet)
    case FinishRegistration => ev.Callback? && state == Some(Contacts)
  }

  /**
   * The dispatcher: the handler that runs for an update in a given state, or
   * none. The dispatcher tries the handlers in the order they are registered
   * and runs the first whose filter accepts the update. The filter of
   * `process_name` also accepts `/start` in `name`; `command_start` gets it
   * because it is registered first.
   */
  function Route(state: Option<Step>, ev: Event, me: string): (h: Option<Handler>)
    ensures h.None? ==> forall g :: !Accepts(g, state, ev, me)
    ensures h.Some? ==> Accepts(h.value, state, ev, me)
    ensures h.Some? ==> forall g :: Precedence(g) < Precedence(h.value) ==> !Accepts(g, state, ev, me)
  {
    match ev
    case Message(text, _) =>
      if IsStartCommand(text, me) then Some(CommandStart)
      else if state == Some(Name) then Some(ProcessName)
      else None
    case Callback(_, _) =>
      match state
      case Some(City) => Some(ProcessCity)
      case Some(Activity) => Some(ProcessActivity)
      case Some(Meet) => Some(ProcessMeet)
      case Some(Contacts) => Some(FinishRegistration)
      case _ => None
  }

  /**
   * The lookup `select 1 from users where tg_username = $1`, a scan of the
   * table. A sender without a username is compared as NULL, which matches no
   * row.
   */
  function Registered(users: seq<Row>, from: Option<string>): (found: bool)
    ensures found <==> from.Some? && exists i :: 0 <= i < |users| && users[i].tgUsername == from
  {
    if from.None? || users == [] then false
    else users[|users| - 1].tgUsername == from || Registered(users[..|users| - 1], from)
  }

  /**
   * The parameter list `finish_registration` builds for the insert, evaluated
   * left to right as Python does: the first missing key raises `KeyError`,
   * a non-numeric city or activity raises `ValueError`, and the two opt-ins
   * are `bool()` of the stored strings.
   */
  function CommittedRow(data: map<string, string>, from: Option<string>): (r: Result<Row, CommitError>)
    ensures r.Success? <==> HasRowKeys(data) && PyInt(data["city"]).Some? && PyInt(data["activity"]).Some?
    ensures r.Success? ==>
              && r.value.userName == data["name"]
              && PyInt(data["city"]) == Some(r.value.cityId)
              && PyInt(data["activity"]) == Some(r.value.activityId)
              && r.value.inMeetings == PyBool(data["meet"])
              && r.value.inContacts == PyBool(data["contacts"])
              && r.value.tgUsername == from
    ensures r.Failure? && r.error.MissingKey? ==> IsRowKey(r.error.key) && r.error.key !in data
    ensures r.Failure? && r.error.NotAnInteger? ==>
              (r.error.key == "city" || r.error.key == "activity") && r.error.key in data && PyInt(data[r.error.key]) == None
  {
    if "name" !in data then Failure(MissingKey("name"))
    else if "city" !in data then Failure(MissingKey("city"))
    else
      match PyInt(data["city"])
      case None => Failure(NotAnInteger("city"))
      case Some(cityId) =>
        if "activity" !in data then Failure(MissingKey("activity"))
        else
          match PyInt(data["activity"])
          case None => Failure(NotAnInteger("activity"))
          case Some(activityId) =>
            if "meet" !in data then Failure(MissingKey("meet"))
            else if "contacts" !in data then Failure(MissingKey("contacts"))
            else Success(Row(data["name"], cityId, activityId, PyBool(data["meet"]), PyBool(data["contacts"]), from))
  }

  /**
   * The effect of one update on the world. Unhandled updates change nothing.
   * `command_start` consults the `users` table; each of the next four handlers
   * sets the next state and stores its raw answer; `finish_registration`
   * stores the contacts answer, confirms, and then inserts the row unless
   * building it raised. No handler clears the session.
   */
  function Deliver(w: World, ev: Event): (d: Delivery)
    ensures d.world.botUsername == w.botUsername
    ensures d.world.session.state == Some(Mentor) ==> w.session.state == Some(Mentor)
    ensures w.session.data.Keys <= d.world.session.data.Keys
    ensures w.users <= d.world.users && |d.world.users| <= |w.users| + 1
    ensures d.raised.Some? ==> d.world.users == w.users
  {
    var s := w.session;
    match Route(s.state, ev, w.botUsername)
    case None => Delivery(w, Silent, None)
    case Some(CommandStart) =>
      if Registered(w.users, ev.from) then Delivery(w, AlreadyRegistered, None)
      else Delivery(w.(session := Session(Some(Name), s.data)), AskName, None)
    case Some(ProcessName) =>
      Delivery(w.(session := Session(Some(City), s.data["name" := ev.text])), AskCity, None)
    case Some(ProcessCity) =>
      Delivery(w.(session := Session(Some(Activity), s.data["city" := ev.payload])), AskActivity, None)
    case Some(ProcessActivity) =>
      Delivery(w.(session := Session(Some(Meet), s.data["activity" := ev.payload])), AskMeet, None)
    case Some(ProcessMeet) =>
      Delivery(w.(session := Session(Some(Contacts), s.data["meet" := ev.payload])), AskContacts, None)
    case Some(FinishRegistration) =>
      var session := Session(s.state, s.data["contacts" := ev.payload]);
      match CommittedRow(session.data, ev.from)
      case Success(row) => Delivery(World(session, w.users + [row], w.botUsername), Congratulated, None)
      case Failure(e) => Delivery(w.(session := session), Congratulated, Some(e))
  }

  /**
   * The world after a sequence of updates from one user, delivered in order:
   * the table only grows, by at most one row per update, and no data key is
   * ever removed.
   */
  function Run(w: World, evs: seq<Event>): (r: World)
    ensures r.botUsername == w.botUsername
    ensures w.users <= r.users && |r.users| <= |w.users| + |evs|
    ensures w.session.data.Keys <= r.session.data.Keys
    decreases |evs|
  {
    if evs == [] then w else Run(Deliver(w, evs[0]).world, evs[1..])
  }

  /** The answer an update carries: a message's text or a button's callback data. */
  function Answer(ev: Event): string {
    if ev.Message? then ev.text else ev.payload
  }

  /** Whether the data map holds the answers of the steps before `state`. */
  predicate Answered(state: Option<Step>, data: map<string, string>) {
    match state
    case Some(City) => "name" in data
    case Some(Activity) => "name" in data && "city" in data
    case Some(Meet) => "name" in data && "city" in data && "activity" in data
    case Some(Contacts) => "name" in data && "city" in data && "activity" in data && "meet" in data
    case _ => true
  }

  /**
   * What holds of every session the dialogue can reach: it is never in
   * `mentor`, and the answers of the steps before the current one are stored.
   */
  predicate Consistent(s: Session) {
    s.state != Some(Mentor) && Answered(s.state, s.data)
  }

  /** An update that no handler accepts leaves the world as it was and gets no reply. */
  lemma UnhandledChangesNothing(w: World, ev: Event)
    requires forall h :: !Accepts(h, w.session.state, ev, w.botUsername)
    ensures Deliver(w, ev) == Delivery(w, Silent, None)
  {
    assert Route(w.session.state, ev, w.botUsername) == None;
  }

  /** `/start` from a registered user, in any state, only answers that the user is registered. */
  lemma StartWhenRegistered(w: World, text: string, from: Option<string>)
    requires IsStartCommand(text, w.botUsername) && Registered(w.users, from)
    ensures Deliver(w, Message(text, from)) == Delivery(w, AlreadyRegistered, None)
  {
  }

  /**
   * `/start` from anyone else, in any state (`name` included), moves the
   * session to `name` and keeps the data map, so answers from an earlier
   * attempt survive.
   */
  lemma StartWhenNotRegistered(w: World, text: string, from: Option<string>)
    requires IsStartCommand(text, w.botUsername) && !Registered(w.users, from)
    ensures Deliver(w, Message(text, from))
         == Delivery(w.(session := Session(Some(Name), w.session.data)), AskName, None)
  {
  }

  /**
   * Each registration handler runs only in its own state and advances the
   * session by exactly one step along `Flow`; the last step keeps the state.
   */
  lemma OneStepPerHandler(w: World, ev: Event)
    requires Route(w.session.state, ev, w.botUsername).Some?
    requires Route(w.session.state, ev, w.botUsername) != Some(CommandStart)
    ensures exists i :: 0 <= i < |Flow| && w.session.state == Some(Flow[i]) &&
              Deliver(w, ev).world.session.state == Some(Flow[if i + 1 < |Flow| then i + 1 else i])
    ensures ev.Message? <==> w.session.state == Some(Name)
  {
    var next := Deliver(w, ev).world.session.state;
    match w.session.state.value
    case Name => assert Flow[0] == Name && next == Some(Flow[1]);
    case City => assert Flow[1] == City && next == Some(Flow[2]);
    case Activity => assert Flow[2] == Activity && next == Some(Flow[3]);
    case Meet => assert Flow[3] == Meet && next == Some(Flow[4]);
    case Contacts => assert Flow[4] == Contacts && next == Some(Flow[4]);
  }

  /**
   * Each registration handler writes exactly one key, the one of its own
   * state, with the raw answer; every other key keeps its value.
   */
  lemma OneKeyPerStep(w: World, ev: Event)
    requires Route(w.session.state, ev, w.botUsername).Some?
    requires Route(w.session.state, ev, w.botUsername) != Some(CommandStart)
    ensures w.session.state.Some? && w.session.state.value != Mentor
    ensures var key, d := Key(w.session.state.value), Deliver(w, ev).world.session.data;
      && d.Keys == w.session.data.Keys + {key}
      && d[key] == Answer(ev)
      && forall k :: k in w.session.data && k != key ==> d[k] == w.session.data[k]
  {
  }

  /**
   * No step validates its input: in `city`, `activity` and `meet` any
   * callback data is stored as given and the dialogue moves on.
   */
  lemma NoValidation(w: World, payload: string, from: Option<string>)
    requires w.session.state in {Some(City), Some(Activity), Some(Meet)}
    ensures var d := Deliver(w, Callback(payload, from));
      var next := if w.session.state == Some(City) then Activity
                  else if w.session.state == Some(Activity) then Meet
                  else Contacts;
      && d.raised == None
      && d.world == w.(session := Session(Some(next), w.session.data[Key(w.session.state.value) := payload]))
  {
  }

  /**
   * In `name`, every text other than this bot's start command is stored as
   * the name, a command addressed to another bot included.
   */
  lemma NameStored(w: World, text: string, from: Option<string>)
    requires w.session.state == Some(Name) && !IsStartCommand(text, w.botUsername)
    ensures Deliver(w, Message(text, from))
         == Delivery(w.(session := Session(Some(City), w.session.data["name" := text])), AskCity, None)
  {
    assert Route(w.session.state, Message(text, from), w.botUsername) == Some(ProcessName);
  }

  /** A single update keeps a session consistent. */
  lemma DeliverConsistent(w: World, ev: Event)
    requires Consistent(w.session)
    ensures Consistent(Deliver(w, ev).world.session)
  {
    match Route(w.session.state, ev, w.botUsername)
    case None =>
    case Some(CommandStart) =>
    case Some(_) => OneKeyPerStep(w, ev);
  }

  /** Every update sequence keeps a session consistent. */
  lemma {:induction false} RunConsistent(w: World, evs: seq<Event>)
    requires Consistent(w.session)
    ensures Consistent(Run(w, evs).session)
    decreases |evs|
  {
    if evs != [] {
      DeliverConsistent(w, evs[0]);
      RunConsistent(Deliver(w, evs[0]).world, evs[1..]);
    }
  }

  /**
   * `mentor` is declared but dead: no handler accepts anything in it except
   * `/start`, and no sequence of updates from a fresh session reaches it.
   */
  lemma MentorUnreachable(users: seq<Row>, me: string, evs: seq<Event>)
    ensures forall h, ev :: Accepts(h, Some(Mentor), ev, me) ==> h == CommandStart
    ensures Run(World(Initial, users, me), evs).session.state != Some(Mentor)
  {
    RunConsistent(World(Initial, users, me), evs);
  }

  /**
   * In a reachable `contacts` state every key the row needs is present, so
   * committing fails exactly when the stored city or activity is not an
   * integer, and never with a `KeyError`.
   */
  lemma ReachableCommit(users: seq<Row>, me: string, evs: seq<Event>, payload: string, from: Option<string>)
    requires Run(World(Initial, users, me), evs).session.state == Some(Contacts)
    ensures Answered(Some(Contacts), Run(World(Initial, users, me), evs).session.data)
    ensures var w := Run(World(Initial, users, me), evs);
      var d := Deliver(w, Callback(payload, from));
      && (d.raised.Some? <==> PyInt(w.session.data["city"]) == None || PyInt(w.session.data["activity"]) == None)
      && (d.raised.Some? ==> d.raised.value.NotAnInteger?)
  {
    var w := Run(World(Initial, users, me), evs);
    RunConsistent(World(Initial, users, me), evs);
    var data := w.session.data["contacts" := payload];
    assert HasRowKeys(data);
    assert data["city"] == w.session.data["city"] && data["activity"] == w.session.data["activity"];
    Commit(w, payload, from);
  }

  /**
   * The ids the city and activity buttons carry as `str(id)` come back as the
   * same ids in the row, while a `'false'` answer is stored as true because
   * `bool('false')` is true.
   */
  lemma FalseAnswerStoredAsTrue(name: string, cityId: int, activityId: int, from: Option<string>)
    ensures CommittedRow(map["name" := name, "city" := Str(cityId), "activity" := Str(activityId),
                             "meet" := "false", "contacts" := "false"], from)
         == Success(Row(name, cityId, activityId, true, true, from))
  {
    var data := map["name" := name, "city" := Str(cityId), "activity" := Str(activityId),
                    "meet" := "false", "contacts" := "false"];
    ButtonIdsCommitted(data, from, cityId, activityId);
    BoolOfAnswerTokens();
  }

  /**
   * Once city and activity hold the payloads of the rendered buttons, the
   * commit succeeds and the row carries those ids.
   */
  lemma ButtonIdsCommitted(data: map<string, string>, from: Option<string>, cityId: int, activityId: int)
    requires HasRowKeys(data) && data["city"] == Str(cityId) && data["activity"] == Str(activityId)
    ensures CommittedRow(data, from)
         == Success(Row(data["name"], cityId, activityId, PyBool(data["meet"]), PyBool(data["contacts"]), from))
  {
    IntOfStr(cityId);
    IntOfStr(activityId);
  }

  /**
   * A button payload that is not a number, such as a yes/no token, makes the
   * commit raise and no row is written.
   */
  lemma NonNumericCityWritesNothing(w: World, token: string, from: Option<string>)
    requires w.session.state == Some(Contacts)
    requires "city" in w.session.data && PyInt(w.session.data["city"]) == None
    ensures Deliver(w, Callback(token, from)).world.users == w.users
    ensures Deliver(w, Callback(token, from)).raised.Some?
  {
    var data := w.session.data["contacts" := token];
    assert CommittedRow(data, from).Failure? by {
      assert data["city"] == w.session.data["city"];
    }
    assert Route(w.session.state, Callback(token, from), w.botUsername) == Some(FinishRegistration);
  }

  /**
   * Committing does not clear the session: it stays in `contacts` with its
   * data, so a second button press inserts the same row a second time.
   */
  lemma SessionNotCleared(w: World, payload: string, from: Option<string>)
    requires w.session.state == Some(Contacts)
    ensures var d1 := Deliver(w, Callback(payload, from));
      && d1.world.session == Session(Some(Contacts), w.session.data["contacts" := payload])
      && d1.reply == Congratulated
    ensures var d1 := Deliver(w, Callback(payload, from));
      var d2 := Deliver(d1.world, Callback(payload, from));
      d1.raised == None ==>
        && d2.raised == None
        && d2.world.session == d1.world.session
        && |d2.world.users| == |w.users| + 2
        && d2.world.users[|w.users|] == d2.world.users[|w.users| + 1]
  {
    Commit(w, payload, from);
    var d1 := Deliver(w, Callback(payload, from));
    assert d1.world.session.data["contacts" := payload] == d1.world.session.data;
    Commit(d1.world, payload, from);
  }

  /**
   * Once a sender with a username has committed a row, a later `/start` from
   * that sender is answered with "already registered".
   */
  lemma RegisteredAfterCommit(w: World, payload: string, from: Option<string>, text: string)
    requires w.session.state == Some(Contacts) && from.Some?
    requires Deliver(w, Callback(payload, from)).raised == None
    requires IsStartCommand(text, w.botUsername)
    ensures var w1 := Deliver(w, Callback(payload, from)).world;
      Deliver(w1, Message(text, from)) == Delivery(w1, AlreadyRegistered, None)
  {
    Commit(w, payload, from);
    var w1 := Deliver(w, Callback(payload, from)).world;
    assert w1.users[|w.users|].tgUsername == from;
    StartWhenRegistered(w1, text, from);
  }

  /**
   * The whole dialogue, started from any earlier session by an unregistered
   * user who sends `/start` and a name that is not itself a `/start` command,
   * and presses the rendered city and activity buttons, inserts exactly one
   * row built from this attempt's answers and leaves the session in
   * `contacts`.
   */
  lemma CompleteDialogue(prior: Session, users: seq<Row>, me: string, from: Option<string>, start: string,
                         name: string, cityId: int, activityId: int, meet: string, contacts: string)
    requires !Registered(users, from)
    requires IsStartCommand(start, me) && !IsStartCommand(name, me)
    ensures var w := Run(World(prior, users, me), [Message(start, from), Message(name, from),
                                                   Callback(Str(cityId), from), Callback(Str(activityId), from),
                                                   Callback(meet, from), Callback(contacts, from)]);
      && w.session.state == Some(Contacts)
      && w.users == users + [Row(name, cityId, activityId, PyBool(meet), PyBool(contacts), from)]
  {
    var evs := [Message(start, from), Message(name, from), Callback(Str(cityId), from),
                Callback(Str(activityId), from), Callback(meet, from), Callback(contacts, from)];
    var w5 := CollectAnswers(prior, users, me, from, start, name, cityId, activityId, meet);
    CommitAnswers(w5, from, name, cityId, activityId, meet, contacts);
    assert evs[..5] == [Message(start, from), Message(name, from), Callback(Str(cityId), from),
                        Callback(Str(activityId), from), Callback(meet, from)];
    assert evs[5..] == [Callback(contacts, from)];
    RunSteps(World(prior, users, me), evs, 5);
  }

  /**
   * The first five updates of a complete dialogue: the answers are stored
   * under their keys and the session waits in `contacts`.
   */
  lemma CollectAnswers(prior: Session, users: seq<Row>, me: string, from: Option<string>, start: string,
                       name: string, cityId: int, activityId: int, meet: string) returns (w5: World)
    requires !Registered(users, from)
    requires IsStartCommand(start, me) && !IsStartCommand(name, me)
    ensures w5 == Run(World(prior, users, me), [Message(start, from), Message(name, from),
                                               Callback(Str(cityId), from), Callback(Str(activityId), from),
                                               Callback(meet, from)])
    ensures w5 == World(Session(Some(Contacts), prior.data["name" := name]["city" := Str(cityId)]
                                  ["activity" := Str(activityId)]["meet" := meet]), users, me)
  {
    var evs := [Message(start, from), Message(name, from), Callback(Str(cityId), from),
                Callback(Str(activityId), from), Callback(meet, from)];
    var w2 := World(Session(Some(City), prior.data["name" := name]), users, me);
    StartAndName(prior, users, me, from, start, name);
    w5 := PressButtons(w2, from, Str(cityId), Str(activityId), meet);
    assert evs[..2] == [Message(start, from), Message(name, from)];
    assert evs[2..] == [Callback(Str(cityId), from), Callback(Str(activityId), from), Callback(meet, from)];
    RunSteps(World(prior, users, me), evs, 2);
  }

  /** `/start` and a name from an unregistered sender leave the session in `city` with the name stored. */
  lemma StartAndName(prior: Session, users: seq<Row>, me: string, from: Option<string>, start: string, name: string)
    requires !Registered(users, from)
    requires IsStartCommand(start, me) && !IsStartCommand(name, me)
    ensures Run(World(prior, users, me), [Message(start, from), Message(name, from)])
         == World(Session(Some(City), prior.data["name" := name]), users, me)
  {
    var evs := [Message(start, from), Message(name, from)];
    var w0 := World(prior, users, me);
    var w1 := World(Session(Some(Name), prior.data), users, me);
    StartWhenNotRegistered(w0, start, from);
    NameStored(w1, name, from);
    RunStep(w1, evs[1..]);
    assert evs[1..][1..] == [];
    RunStep(w0, evs);
  }

  /** Three button presses from `city` store the three payloads and leave the session in `contacts`. */
  lemma PressButtons(w2: World, from: Option<string>, city: string, activity: string, meet: string)
    returns (w5: World)
    requires w2.session.state == Some(City)
    ensures w5 == Run(w2, [Callback(city, from), Callback(activity, from), Callback(meet, from)])
    ensures w5 == w2.(session := Session(Some(Contacts), w2.session.data["city" := city]
                                           ["activity" := activity]["meet" := meet]))
  {
    var evs := [Callback(city, from), Callback(activity, from), Callback(meet, from)];
    var w3 := w2.(session := Session(Some(Activity), w2.session.data["city" := city]));
    var w4 := w3.(session := Session(Some(Meet), w3.session.data["activity" := activity]));
    w5 := w4.(session := Session(Some(Contacts), w4.session.data["meet" := meet]));
    NoValidation(w2, city, from);
    NoValidation(w3, activity, from);
    NoValidation(w4, meet, from);
    RunStep(w4, evs[2..]);
    assert evs[2..][1..] == [];
    RunStep(w3, evs[1..]);
    assert evs[1..][1..] == evs[2..];
    RunStep(w2, evs);
  }

  /**
   * The last update of a complete dialogue: the contacts answer is stored and
   * the row of the collected answers is inserted.
   */
  lemma CommitAnswers(w: World, from: Option<string>, name: string, cityId: int, activityId: int,
                      meet: string, contacts: string)
    requires w.session.state == Some(Contacts)
    requires "name" in w.session.data && w.session.data["name"] == name
    requires "city" in w.session.data && w.session.data["city"] == Str(cityId)
    requires "activity" in w.session.data && w.session.data["activity"] == Str(activityId)
    requires "meet" in w.session.data && w.session.data["meet"] == meet
    ensures Run(w, [Callback(contacts, from)])
         == World(Session(Some(Contacts), w.session.data["contacts" := contacts]),
                  w.users + [Row(name, cityId, activityId, PyBool(meet), PyBool(contacts), from)], w.botUsername)
  {
    var d6 := w.session.data["contacts" := contacts];
    assert d6["name"] == name && d6["meet"] == meet && d6["contacts"] == contacts;
    assert d6["city"] == Str(cityId) && d6["activity"] == Str(activityId);
    ButtonIdsCommitted(d6, from, cityId, activityId);
    Commit(w, contacts, from);
    RunStep(w, [Callback(contacts, from)]);
    assert [Callback(contacts, from)][1..] == [];
  }

  /** Delivering a sequence is delivering a prefix, then the rest. */
  lemma {:induction false} RunSteps(w: World, evs: seq<Event>, k: nat)
    requires k <= |evs|
    ensures Run(w, evs) == Run(Run(w, evs[..k]), evs[k..])
    decreases k
  {
    if k > 0 {
      RunStep(w, evs);
      RunSteps(Deliver(w, evs[0]).world, evs[1..], k - 1);
      assert evs[1..][..k - 1] == evs[..k][1..];
      assert evs[1..][k - 1..] == evs[k..];
      RunStep(w, evs[..k]);
    }
  }

  /** The effect of `finish_registration`, unfolded once. */
  lemma Commit(w: World, payload: string, from: Option<string>)
    requires w.session.state == Some(Contacts)
    ensures var data := w.session.data["contacts" := payload];
      var row := CommittedRow(data, from);
      && Deliver(w, Callback(payload, from)).world
           == World(Session(Some(Contacts), data), if row.Success? then w.users + [row.value] else w.users,
                    w.botUsername)
      && Deliver(w, Callback(payload, from)).raised == if row.Success? then None else Some(row.error)
  {
    assert Route(w.session.state, Callback(payload, from), w.botUsername) == Some(FinishRegistration);
  }

  lemma RunStep(w: World, evs: seq<Event>)
    requires evs != []
    ensures Run(w, evs) == Run(Deliver(w, evs[0]).world, evs[1..])
  {
  }
}
