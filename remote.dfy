/**
 * The shapes exchanged with the hosted backend (Supabase).
 *
 * The backend is never called in this model: every reply the application
 * would await is passed in as a `Remote<T>` value, and every operation
 * returns the log of requests it issued, in order, as a `seq<Request>`.
 * An operation that "never reaches the network" is one whose log is empty.
 */
module Remote {

  datatype Option<+T> = None | Some(value: T)

  /** A backend reply: the `data` of a `{ data, error }` pair, or its `error`. */
  datatype Remote<+T> = Reply(value: T) | Error(code: string, message: string)

  /** The PostgREST error code `.single()` reports when no row matched. */
  const NotFoundCode: string := "PGRST116"

  /** A JSON field value of a row or payload; `Undefined` is a key present with no value. */
  datatype Value = Undefined | Null | Text(s: string) | Number(n: int) | Flag(b: bool)

  type Fields = map<string, Value>

  /** A row as the backend returns it: its server-assigned `id` and its other columns. */
  datatype Row = Row(id: string, fields: Fields)

  /** An authenticated identity; `identities` is the signup response's provider list. */
  datatype User = User(id: string, email: string, identities: Option<seq<string>>)

  /** A session as `auth.getSession()` reports it. */
  datatype Session = Session(user: Option<User>)

  datatype Table = Cars | Bookings | Transactions | UserSettings

  /** The settings row sent by `saveSettings`. */
  datatype SettingsPayload = SettingsPayload(
    ownerId: string,
    startingBalance: int,
    categories: seq<string>,
    subcategories: seq<string>,
    updatedAt: string)

  /** One call into the backend client. */
  datatype Request =
    | GetSession
    | SignIn(email: string, password: string)
    | SignUp(email: string, password: string, emailRedirectTo: string)
    | SignOut
    | SelectOrdered(table: Table, ownerId: string, orderColumn: string, ascending: bool)
    | SelectSingle(table: Table, ownerId: string)
    | Upsert(table: Table, payload: Fields)
    | UpsertSettings(settings: SettingsPayload, onConflict: string)
    | Delete(table: Table, id: string, ownerId: string)
}
