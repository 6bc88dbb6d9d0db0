/**
 * The bot's handlers as they run: each one mutates the user's FSM context in
 * place through `set_state` and `update_data`, and the last one appends a row
 * to the `users` table. `Dispatch` plays the dispatcher, and is proved to do
 * exactly what `Registration.Deliver` describes.
 */
module Bot {
  import opened Wrappers
  import opened Registration

  /** aiogram's `FSMContext` for one user: the current state and the data map. */
  class FsmContext {
    var state: Option<Step>
    var data: map<string, string>

    /** A user the storage has not seen yet: no state and no data. */
    constructor ()
      ensures state == None && data == map[]
    {
      state := None;
      data := map[];
    }

    function Snapshot(): Session
      reads this
    {
      Session(state, data)
    }

    /** `set_state`: replaces the current state and keeps the data map. */
    method SetState(s: Option<Step>)
      modifies this
      ensures state == s && data == old(data)
    {
      state := s;
    }

    /** `update_data(key=value)`: merges one entry into the data map and keeps the state. */
    method UpdateData(key: string, value: string)
      modifies this
      ensures state == old(state) && data == old(data)[key := value]
    {
      data := data[key := value];
    }

    /** `get_data`: the data map as it stands. */
    method GetData() returns (d: map<string, string>)
      ensures d == data
    {
      d := data;
    }
  }

  /** The `users` table as its rows in insertion order, with no uniqueness constraint. */
  class UsersTable {
    var rows: seq<Row>

    constructor (initial: seq<Row>)
      ensures rows == initial
    {
      rows := initial;
    }

    /** The `insert into users` statement: appends the row. */
    method Insert(row: Row)
      modifies this
      ensures rows == old(rows) + [row]
    {
      rows := rows + [row];
    }
  }

  /**
   * `command_start`, run for the start command in any state: a sender whose username
   * is in the table is told so and nothing changes; anyone else is moved to
   * `name`, with the data map kept.
   */
  method CommandStart(from: Option<string>, ctx: FsmContext, users: UsersTable) returns (reply: Reply)
    modifies ctx
    ensures Registered(users.rows, from) ==>
              reply == AlreadyRegistered && ctx.state == old(ctx.state) && ctx.data == old(ctx.data)
    ensures !Registered(users.rows, from) ==>
              reply == AskName && ctx.state == Some(Name) && ctx.data == old(ctx.data)
  {
    if Registered(users.rows, from) {
      reply := AlreadyRegistered;
    } else {
      ctx.SetState(Some(Name));
      reply := AskName;
    }
  }

  /** `process_name`, run for a message in `name`: moves to `city` and stores the text. */
  method ProcessName(text: string, ctx: FsmContext) returns (reply: Reply)
    requires ctx.state == Some(Name)
    modifies ctx
    ensures ctx.state == Some(City) && ctx.data == old(ctx.data)["name" := text]
    ensures reply == AskCity
  {
    ctx.SetState(Some(City));
    ctx.UpdateData("name", text);
    reply := AskCity;
  }

  /** `process_city`, run for a button press in `city`: moves to `activity` and stores the callback data. */
  method ProcessCity(payload: string, ctx: FsmContext) returns (reply: Reply)
    requires ctx.state == Some(City)
    modifies ctx
    ensures ctx.state == Some(Activity) && ctx.data == old(ctx.data)["city" := payload]
    ensures reply == AskActivity
  {
    ctx.SetState(Some(Activity));
    ctx.UpdateData("city", payload);
    reply := AskActivity;
  }

  /** `process_activity`, run for a button press in `activity`: moves to `meet` and stores the callback data. */
  method ProcessActivity(payload: string, ctx: FsmContext) returns (reply: Reply)
    requires ctx.state == Some(Activity)
    modifies ctx
    ensures ctx.state == Some(Meet) && ctx.data == old(ctx.data)["activity" := payload]
    ensures reply == AskMeet
  {
    ctx.SetState(Some(Meet));
    ctx.UpdateData("activity", payload);
    reply := AskMeet;
  }

  /**
   * `process_meet`, run for a button press in `meet`: moves straight to
   * `contacts`, past the declared `mentor` state, and stores the callback data.
   */
  method ProcessMeet(payload: string, ctx: FsmContext) returns (reply: Reply)
    requires ctx.state == Some(Meet)
    modifies ctx
    ensures ctx.state == Some(Contacts) && ctx.data == old(ctx.data)["meet" := payload]
    ensures reply == AskContacts
  {
    ctx.SetState(Some(Contacts));
    ctx.UpdateData("meet", payload);
    reply := AskContacts;
  }

  /**
   * `finish_registration`, run for a button press in `contacts`: stores the
   * callback data, confirms, and inserts the committed row, or raises while
   * building it. The state is left in `contacts` and the data is kept.
   */
  method FinishRegistration(payload: string, from: Option<string>, ctx: FsmContext, users: UsersTable)
    returns (reply: Reply, raised: Option<CommitError>)
    requires ctx.state == Some(Contacts)
    modifies ctx, users
    ensures ctx.state == Some(Contacts) && ctx.data == old(ctx.data)["contacts" := payload]
    ensures reply == Congratulated
    ensures CommittedRow(ctx.data, from).Success? ==>
              users.rows == old(users.rows) + [CommittedRow(ctx.data, from).value] && raised == None
    ensures CommittedRow(ctx.data, from).Failure? ==>
              users.rows == old(users.rows) && raised == Some(CommittedRow(ctx.data, from).error)
  {
    ctx.UpdateData("contacts", payload);
    var data := ctx.GetData();
    reply := Congratulated;
    match CommittedRow(data, from)
    case Success(row) =>
      users.Insert(row);
      raised := None;
    case Failure(e) =>
      raised := Some(e);
  }

  /**
   * The dispatcher of the bot whose username is `botUsername`: runs the first
   * handler, in registration order, whose filter accepts the update, if any.
   * The new session, table, reply and raised error are those `Deliver` gives.
   */
  method Dispatch(ev: Event, botUsername: string, ctx: FsmContext, users: UsersTable)
    returns (reply: Reply, raised: Option<CommitError>)
    modifies ctx, users
    ensures Delivery(World(ctx.Snapshot(), users.rows, botUsername), reply, raised)
         == Deliver(World(old(ctx.Snapshot()), old(users.rows), botUsername), ev)
  {
    raised := None;
    match Route(ctx.state, ev, botUsername)
    case None =>
      reply := Silent;
    case Some(CommandStart) =>
      reply := CommandStart(ev.from, ctx, users);
    case Some(ProcessName) =>
      reply := ProcessName(ev.text, ctx);
    case Some(ProcessCity) =>
      reply := ProcessCity(ev.payload, ctx);
    case Some(ProcessActivity) =>
      reply := ProcessActivity(ev.payload, ctx);
    case Some(ProcessMeet) =>
      reply := ProcessMeet(ev.payload, ctx);
    case Some(FinishRegistration) =>
      reply, raised := FinishRegistration(ev.payload, ev.from, ctx, users);
  }
}
