// The bot's three SQLite tables (users, user_preferences, recommendation_history),
// kept in memory. Preferences and history only ever grow by INSERT; a user row is
// written once and then left alone (INSERT OR IGNORE on the primary key).
module Store {
  import opened Wrappers

  /** A Telegram user id; Python's `if user_id:` treats 0 as "no user". */
  type UserId = int

  predicate Given(user: UserId) {
    user != 0
  }

  datatype User = User(
    id: UserId,
    username: Option<string>,
    firstName: Option<string>,
    lastName: Option<string>,
    registeredAt: string)

  datatype Preference = Preference(
    user: UserId, category: string, genre: string, itemId: string, rating: int)

  /** One `recommendation_history` row; the timestamp column is left out. */
  datatype HistoryEntry = HistoryEntry(user: UserId, category: string, itemId: string)

  /** The rows `save_recommendation_history` appends for one recommendation:
      one row when a user is given, none otherwise. */
  function RecordShown(user: UserId, category: string, itemId: string): (rows: seq<HistoryEntry>)
    ensures |rows| == (if Given(user) then 1 else 0)
    ensures forall e :: e in rows ==> e == HistoryEntry(user, category, itemId)
  {
    if Given(user) then [HistoryEntry(user, category, itemId)] else []
  }

  /** `SELECT item_id FROM recommendation_history WHERE user_id = ? AND category = ?` */
  function ShownIds(history: seq<HistoryEntry>, user: UserId, category: string): (ids: set<string>)
    ensures forall id :: id in ids <==> HistoryEntry(user, category, id) in history
  {
    set e | e in history && e.user == user && e.category == category :: e.itemId
  }

  /** What a user has been shown after appending rows is what they had been shown before,
      together with the ids the appended rows record for them. */
  lemma ShownIdsAppend(history: seq<HistoryEntry>, rows: seq<HistoryEntry>, user: UserId, category: string)
    ensures ShownIds(history + rows, user, category)
         == ShownIds(history, user, category) + ShownIds(rows, user, category)
  {
    forall id
      ensures id in ShownIds(history + rows, user, category)
          <==> id in ShownIds(history, user, category) + ShownIds(rows, user, category)
    {
      assert HistoryEntry(user, category, id) in history + rows
         <==> HistoryEntry(user, category, id) in history || HistoryEntry(user, category, id) in rows;
    }
  }

  class Store {
    var users: map<UserId, User>
    var preferences: seq<Preference>
    var history: seq<HistoryEntry>

    constructor ()
      ensures users == map[] && preferences == [] && history == []
    {
      users, preferences, history := map[], [], [];
    }

    /** `register_user`: INSERT OR IGNORE keyed by user id. */
    method RegisterUser(user: User)
      modifies this
      ensures users == Registered(old(users), user)
      ensures preferences == old(preferences) && history == old(history)
    {
      if user.id !in users {
        users := users[user.id := user];
      }
    }

    /** `save_preference`: one more row, nothing else changes. */
    method SavePreference(p: Preference)
      modifies this
      ensures preferences == old(preferences) + [p]
      ensures users == old(users) && history == old(history)
    {
      preferences := preferences + [p];
    }

    /** `save_recommendation_history`: one more row, nothing else changes. */
    method SaveRecommendationHistory(user: UserId, category: string, itemId: string)
      modifies this
      ensures history == old(history) + [HistoryEntry(user, category, itemId)]
      ensures users == old(users) && preferences == old(preferences)
    {
      history := history + [HistoryEntry(user, category, itemId)];
    }

    /** The `if user_id: save_recommendation_history(...)` guard every adapter uses. */
    method RecordIfGiven(user: UserId, category: string, itemId: string)
      modifies this
      ensures history == old(history) + RecordShown(user, category, itemId)
      ensures users == old(users) && preferences == old(preferences)
    {
      if Given(user) {
        SaveRecommendationHistory(user, category, itemId);
      }
    }
  }

  /** The users table after `INSERT OR IGNORE` of `user`: the row is added under its id
      unless that id already has one, which is kept unchanged. */
  function Registered(users: map<UserId, User>, user: User): (r: map<UserId, User>)
    ensures r.Keys == users.Keys + {user.id}
    ensures r[user.id] == if user.id in users then users[user.id] else user
    ensures forall u :: u in users ==> r[u] == users[u]
  {
    if user.id in users then users else users[user.id := user]
  }

  /** Registering the same user id twice leaves exactly the table that registering once does,
      whatever the second call's other fields are. */
  lemma RegisterIdempotent(users: map<UserId, User>, user: User, again: User)
    requires again.id == user.id
    ensures Registered(Registered(users, user), again) == Registered(users, user)
  {
  }
}
