/**
 * `window.AppStore`: the process-wide local mirror of the signed-in user's
 * cars, bookings, transactions and settings (supabase.js).
 *
 * Each operation performs at most the backend round-trips the source does;
 * the backend's replies are parameters, and each operation returns the
 * requests it issued. A thrown error that the source rethrows becomes a
 * `Fail` result.
 */
module Store {
  import opened Remote
  import opened Mirror

  /** Why a store operation threw. */
  datatype StoreError =
    | NotSignedIn                            // 'Пользователь не авторизован', thrown by the saves
    | NullUserAccess                         // the TypeError of reading `this.user.id` with no user
    | Backend(code: string, message: string) // an error the backend returned

  datatype Result<+T> = Ok(value: T) | Fail(error: StoreError)

  datatype Settings = Settings(startingBalance: int, categories: seq<string>, subcategories: seq<string>)

  /** The settings a fresh store starts with. */
  const DefaultSettings: Settings := Settings(
    0,
    ["Аренда", "ТО", "Ремонт", "Страховка", "Зарплата", "Мойка", "Кредит", "Прочее", "Возврат залога"],
    ["Запчасти", "Работа", "Штрафы", "Оплата", "Доплата"])

  /** A `user_settings` row as loaded; `None` is a null or missing column. */
  datatype SettingsRow = SettingsRow(
    startingBalance: Option<int>,
    categories: Option<seq<string>>,
    subcategories: Option<seq<string>>)

  /** The four replies `loadUserData` awaits, in the order it awaits them. */
  datatype LoadReplies = LoadReplies(
    cars: Remote<Option<seq<Row>>>,
    bookings: Remote<Option<seq<Row>>>,
    transactions: Remote<Option<seq<Row>>>,
    settings: Remote<Option<SettingsRow>>)

  /** The observable contents of the store. */
  datatype Snapshot = Snapshot(
    user: Option<User>,
    cars: seq<Row>,
    bookings: seq<Row>,
    transactions: seq<Row>,
    settings: Settings)

  datatype LoadOutcome = LoadOutcome(state: Snapshot, ok: bool, calls: seq<Request>)

  /** JavaScript's `x || fallback` on a value that is either null or truthy. */
  function Or<T>(x: Option<T>, fallback: T): (r: T)
    ensures x.Some? ==> r == x.value
    ensures x.None? ==> r == fallback
  {
    match x
    case Some(v) => v
    case None => fallback
  }

  /** `list || []`: a null list reads as empty. */
  function OrEmpty(rows: Option<seq<Row>>): (r: seq<Row>)
    ensures rows.None? ==> r == []
    ensures rows.Some? ==> r == rows.value
  {
    Or(rows, [])
  }

  /** The four queries of a load, in order: three lists newest first, then the settings row. */
  function LoadQueries(ownerId: string): (q: seq<Request>)
    ensures |q| == 4
    ensures forall i :: 0 <= i < |q| ==> (q[i].SelectOrdered? || q[i].SelectSingle?) && q[i].ownerId == ownerId
    ensures forall i :: 0 <= i < 3 ==> q[i].SelectOrdered? && !q[i].ascending
    ensures q[3] == SelectSingle(UserSettings, ownerId)
  {
    [ SelectOrdered(Cars, ownerId, "created_at", false),
      SelectOrdered(Bookings, ownerId, "start_date", false),
      SelectOrdered(Transactions, ownerId, "date", false),
      SelectSingle(UserSettings, ownerId) ]
  }

  /** A settings reply the load accepts: any success, or the "no row" error. */
  predicate SettingsTolerated(reply: Remote<Option<SettingsRow>>)
  {
    reply.Error? ==> reply.code == NotFoundCode
  }

  /**
   * The settings after an accepted settings reply: a loaded row overwrites
   * field by field, where a null balance reads as 0 and a null list keeps the
   * previous list; no row (or the "no row" error) leaves the settings alone.
   */
  function MergeSettings(s: Settings, reply: Remote<Option<SettingsRow>>): (t: Settings)
    ensures reply.Error? || reply.value.None? ==> t == s
    ensures reply.Reply? && reply.value.Some? ==>
      var row := reply.value.value;
      && (row.startingBalance.None? ==> t.startingBalance == 0)
      && (row.startingBalance.Some? ==> t.startingBalance == row.startingBalance.value)
      && (row.categories.None? ==> t.categories == s.categories)
      && (row.categories.Some? ==> t.categories == row.categories.value)
      && (row.subcategories.None? ==> t.subcategories == s.subcategories)
      && (row.subcategories.Some? ==> t.subcategories == row.subcategories.value)
  {
    if reply.Reply? && reply.value.Some? then
      var row := reply.value.value;
      s.(startingBalance := Or(row.startingBalance, 0),
         categories := Or(row.categories, s.categories),
         subcategories := Or(row.subcategories, s.subcategories))
    else s
  }

  /**
   * What `loadUserData` does to the store: the lists are reassigned one after
   * another and the first failing query stops the load without undoing the
   * reassignments made before it; only the settings "no row" error is tolerated.
   */
  function Load(s: Snapshot, ownerId: string, replies: LoadReplies): (r: LoadOutcome)
    ensures r.state.user == s.user
    ensures r.ok <==>
      replies.cars.Reply? && replies.bookings.Reply? && replies.transactions.Reply? &&
      SettingsTolerated(replies.settings)
    ensures 1 <= |r.calls| <= 4 && r.calls == LoadQueries(ownerId)[..|r.calls|]
    ensures |r.calls| ==
      if replies.cars.Error? then 1
      else if replies.bookings.Error? then 2
      else if replies.transactions.Error? then 3
      else 4
    ensures replies.cars.Error? ==> r.state == s
    ensures r.state.cars == if replies.cars.Reply? then OrEmpty(replies.cars.value) else s.cars
    ensures r.state.bookings ==
      if replies.cars.Reply? && replies.bookings.Reply? then OrEmpty(replies.bookings.value) else s.bookings
    ensures r.state.transactions ==
      if replies.cars.Reply? && replies.bookings.Reply? && replies.transactions.Reply?
      then OrEmpty(replies.transactions.value) else s.transactions
    ensures r.state.settings == if r.ok then MergeSettings(s.settings, replies.settings) else s.settings
  {
    var q := LoadQueries(ownerId);
    if replies.cars.Error? then LoadOutcome(s, false, q[..1])
    else
      var s1 := s.(cars := OrEmpty(replies.cars.value));
      if replies.bookings.Error? then LoadOutcome(s1, false, q[..2])
      else
        var s2 := s1.(bookings := OrEmpty(replies.bookings.value));
        if replies.transactions.Error? then LoadOutcome(s2, false, q[..3])
        else
          var s3 := s2.(transactions := OrEmpty(replies.transactions.value));
          if SettingsTolerated(replies.settings)
          then LoadOutcome(s3.(settings := MergeSettings(s3.settings, replies.settings)), true, q)
          else LoadOutcome(s3, false, q)
  }

  /**
   * The row sent by an upsert: the caller's fields, then the store's own
   * columns over them, with any `id` dropped so the backend assigns it.
   */
  function Payload(data: Fields, stamped: Fields): (p: Fields)
    requires "id" !in stamped
    ensures "id" !in p
    ensures p.Keys == data.Keys - {"id"} + stamped.Keys
    ensures forall k :: k in stamped ==> p[k] == stamped[k]
    ensures forall k :: k in data && k != "id" && k !in stamped ==> p[k] == data[k]
  {
    (data + stamped) - {"id"}
  }

  /** A field read from the caller's data; an absent key reads as `undefined`. */
  function Get(data: Fields, key: string): (v: Value)
    ensures key in data ==> v == data[key]
    ensures key !in data ==> v == Undefined
  {
    if key in data then data[key] else Undefined
  }

  /** `saveCar`'s payload: owner and `updated_at` stamped, no `id`. */
  function CarPayload(car: Fields, ownerId: string, now: string): (p: Fields)
    ensures "id" !in p
    ensures "user_id" in p && p["user_id"] == Text(ownerId)
    ensures "updated_at" in p && p["updated_at"] == Text(now)
    ensures forall k :: k in car && k !in {"id", "user_id", "updated_at"} ==> k in p && p[k] == car[k]
    ensures p.Keys == car.Keys - {"id"} + {"user_id", "updated_at"}
  {
    Payload(car, map["user_id" := Text(ownerId), "updated_at" := Text(now)])
  }

  /** `saveBooking`'s payload: owner, both dates and `created_at` stamped, no `id`. */
  function BookingPayload(booking: Fields, ownerId: string, now: string): (p: Fields)
    ensures "id" !in p
    ensures "user_id" in p && p["user_id"] == Text(ownerId)
    ensures "start_date" in p && p["start_date"] == Get(booking, "start_date")
    ensures "end_date" in p && p["end_date"] == Get(booking, "end_date")
    ensures "created_at" in p && p["created_at"] == Text(now)
    ensures forall k :: k in booking && k !in {"id", "user_id", "start_date", "end_date", "created_at"} ==>
      k in p && p[k] == booking[k]
    ensures p.Keys == booking.Keys - {"id"} + {"user_id", "start_date", "end_date", "created_at"}
  {
    Payload(booking, map[
      "user_id" := Text(ownerId),
      "start_date" := Get(booking, "start_date"),
      "end_date" := Get(booking, "end_date"),
      "created_at" := Text(now)])
  }

  /** `saveTransaction`'s payload: owner and `created_at` stamped, no `id`. */
  function TransactionPayload(transaction: Fields, ownerId: string, now: string): (p: Fields)
    ensures "id" !in p
    ensures "user_id" in p && p["user_id"] == Text(ownerId)
    ensures "created_at" in p && p["created_at"] == Text(now)
    ensures forall k :: k in transaction && k !in {"id", "user_id", "created_at"} ==> k in p && p[k] == transaction[k]
    ensures p.Keys == transaction.Keys - {"id"} + {"user_id", "created_at"}
  {
    Payload(transaction, map["user_id" := Text(ownerId), "created_at" := Text(now)])
  }

  class AppStore {
    var user: Option<User>
    var cars: seq<Row>
    var bookings: seq<Row>
    var transactions: seq<Row>
    var settings: Settings

    constructor ()
      ensures Snap() == Snapshot(None, [], [], [], DefaultSettings)
    {
      user := None;
      cars, bookings, transactions := [], [], [];
      settings := DefaultSettings;
    }

    function Snap(): Snapshot
      reads this
    {
      Snapshot(user, cars, bookings, transactions, settings)
    }

    /** `loadUserData(userId)`: four queries, reassigning each list as its reply arrives. */
    method LoadUserData(userId: string, replies: LoadReplies) returns (ok: bool, calls: seq<Request>)
      modifies this`cars, this`bookings, this`transactions, this`settings
      ensures Snap() == Load(old(Snap()), userId, replies).state
      ensures ok == Load(old(Snap()), userId, replies).ok
      ensures calls == Load(old(Snap()), userId, replies).calls
    {
      var queries := LoadQueries(userId);
      calls := [queries[0]];
      if replies.cars.Error? { return false, calls; }
      cars := OrEmpty(replies.cars.value);

      calls := calls + [queries[1]];
      if replies.bookings.Error? { return false, calls; }
      bookings := OrEmpty(replies.bookings.value);

      calls := calls + [queries[2]];
      if replies.transactions.Error? { return false, calls; }
      transactions := OrEmpty(replies.transactions.value);

      calls := calls + [queries[3]];
      match replies.settings {
        case Reply(Some(row)) =>
          settings := settings.(startingBalance := Or(row.startingBalance, 0));
          settings := settings.(categories := Or(row.categories, settings.categories));
          settings := settings.(subcategories := Or(row.subcategories, settings.subcategories));
        case Reply(None) =>
        case Error(code, _) =>
          if code != NotFoundCode { return false, calls; }
      }
      ok := true;
    }

    /** `saveCar(carData)`: upsert, then replace the first car with the returned id or prepend it. */
    method SaveCar(car: Fields, now: string, reply: Remote<Row>) returns (result: Result<Row>, calls: seq<Request>)
      modifies this`cars
      ensures user.None? ==> result == Fail(NotSignedIn) && calls == [] && cars == old(cars)
      ensures user.Some? ==> calls == [Upsert(Cars, CarPayload(car, user.value.id, now))]
      ensures user.Some? && reply.Error? ==>
        result == Fail(Backend(reply.code, reply.message)) && cars == old(cars)
      ensures user.Some? && reply.Reply? ==>
        result == Ok(reply.value) && cars == Reconcile(old(cars), reply.value)
    {
      if user.None? { return Fail(NotSignedIn), []; }
      calls := [Upsert(Cars, CarPayload(car, user.value.id, now))];
      if reply.Error? { return Fail(Backend(reply.code, reply.message)), calls; }
      var data := reply.value;
      var index := IndexOfId(cars, data.id);
      if index >= 0 {
        cars := cars[index := data];
      } else {
        cars := [data] + cars;
      }
      result := Ok(data);
    }

    /** `deleteCar(carId)`: delete by id and owner, then filter the id out of the list. */
    method DeleteCar(carId: string, reply: Remote<()>) returns (result: Result<bool>, calls: seq<Request>)
      modifies this`cars
      ensures user.None? ==> result == Fail(NullUserAccess) && calls == [] && cars == old(cars)
      ensures user.Some? ==> calls == [Delete(Cars, carId, user.value.id)]
      ensures user.Some? && reply.Error? ==>
        result == Fail(Backend(reply.code, reply.message)) && cars == old(cars)
      ensures user.Some? && reply.Reply? ==> result == Ok(true) && cars == RemoveId(old(cars), carId)
    {
      if user.None? { return Fail(NullUserAccess), []; }
      calls := [Delete(Cars, carId, user.value.id)];
      if reply.Error? { return Fail(Backend(reply.code, reply.message)), calls; }
      cars := RemoveId(cars, carId);
      result := Ok(true);
    }

    /** `saveBooking(bookingData)`: upsert, then replace the first booking with the returned id or prepend it. */
    method SaveBooking(booking: Fields, now: string, reply: Remote<Row>) returns (result: Result<Row>, calls: seq<Request>)
      modifies this`bookings
      ensures user.None? ==> result == Fail(NotSignedIn) && calls == [] && bookings == old(bookings)
      ensures user.Some? ==> calls == [Upsert(Bookings, BookingPayload(booking, user.value.id, now))]
      ensures user.Some? && reply.Error? ==>
        result == Fail(Backend(reply.code, reply.message)) && bookings == old(bookings)
      ensures user.Some? && reply.Reply? ==>
        result == Ok(reply.value) && bookings == Reconcile(old(bookings), reply.value)
    {
      if user.None? { return Fail(NotSignedIn), []; }
      calls := [Upsert(Bookings, BookingPayload(booking, user.value.id, now))];
      if reply.Error? { return Fail(Backend(reply.code, reply.message)), calls; }
      var data := reply.value;
      var index := IndexOfId(bookings, data.id);
      if index >= 0 {
        bookings := bookings[index := data];
      } else {
        bookings := [data] + bookings;
      }
      result := Ok(data);
    }

    /** `deleteBooking(bookingId)`: delete by id and owner, then filter the id out of the list. */
    method DeleteBooking(bookingId: string, reply: Remote<()>) returns (result: Result<bool>, calls: seq<Request>)
      modifies this`bookings
      ensures user.None? ==> result == Fail(NullUserAccess) && calls == [] && bookings == old(bookings)
      ensures user.Some? ==> calls == [Delete(Bookings, bookingId, user.value.id)]
      ensures user.Some? && reply.Error? ==>
        result == Fail(Backend(reply.code, reply.message)) && bookings == old(bookings)
      ensures user.Some? && reply.Reply? ==> result == Ok(true) && bookings == RemoveId(old(bookings), bookingId)
    {
      if user.None? { return Fail(NullUserAccess), []; }
      calls := [Delete(Bookings, bookingId, user.value.id)];
      if reply.Error? { return Fail(Backend(reply.code, reply.message)), calls; }
      bookings := RemoveId(bookings, bookingId);
      result := Ok(true);
    }

    /** `saveTransaction(transactionData)`: upsert, then replace the first transaction with the returned id or prepend it. */
    method SaveTransaction(transaction: Fields, now: string, reply: Remote<Row>) returns (result: Result<Row>, calls: seq<Request>)
      modifies this`transactions
      ensures user.None? ==> result == Fail(NotSignedIn) && calls == [] && transactions == old(transactions)
      ensures user.Some? ==> calls == [Upsert(Transactions, TransactionPayload(transaction, user.value.id, now))]
      ensures user.Some? && reply.Error? ==>
        result == Fail(Backend(reply.code, reply.message)) && transactions == old(transactions)
      ensures user.Some? && reply.Reply? ==>
        result == Ok(reply.value) && transactions == Reconcile(old(transactions), reply.value)
    {
      if user.None? { return Fail(NotSignedIn), []; }
      calls := [Upsert(Transactions, TransactionPayload(transaction, user.value.id, now))];
      if reply.Error? { return Fail(Backend(reply.code, reply.message)), calls; }
      var data := reply.value;
      var index := IndexOfId(transactions, data.id);
      if index >= 0 {
        transactions := transactions[index := data];
      } else {
        transactions := [data] + transactions;
      }
      result := Ok(data);
    }

    /** `saveSettings()`: upsert the whole settings row keyed by owner; the store itself is not changed. */
    method SaveSettings(now: string, reply: Remote<()>) returns (result: Result<bool>, calls: seq<Request>)
      ensures user.None? ==> result == Fail(NotSignedIn) && calls == []
      ensures user.Some? ==> |calls| == 1 && calls[0].UpsertSettings? && calls[0].onConflict == "user_id"
      ensures user.Some? ==>
        var sent := calls[0].settings;
        && sent.ownerId == user.value.id
        && sent.startingBalance == settings.startingBalance
        && sent.categories == settings.categories
        && sent.subcategories == settings.subcategories
        && sent.updatedAt == now
      ensures user.Some? && reply.Error? ==> result == Fail(Backend(reply.code, reply.message))
      ensures user.Some? && reply.Reply? ==> result == Ok(true)
    {
      if user.None? { return Fail(NotSignedIn), []; }
      var payload := SettingsPayload(user.value.id, settings.startingBalance, settings.categories,
                                     settings.subcategories, now);
      calls := [UpsertSettings(payload, "user_id")];
      if reply.Error? { return Fail(Backend(reply.code, reply.message)), calls; }
      result := Ok(true);
    }
  }
}
