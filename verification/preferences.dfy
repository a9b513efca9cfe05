/** The `users` table of db.py as a map from user id to row, and its three
    statements as pure transitions and queries. Each statement is modelled
    by the SQL it runs (`INSERT ... ON CONFLICT DO UPDATE`, `UPDATE ...
    WHERE`, `SELECT ... WHERE`); the contracts state what that means for the
    rows. Statements are atomic and applied one after another. */
module Preferences {
  import opened Wrappers

  const MinBigint: int := -0x8000_0000_0000_0000
  const MaxBigint: int := 0x7FFF_FFFF_FFFF_FFFF

  /** The primary key column, `user_id BIGINT`. */
  type UserId = x: int | MinBigint <= x <= MaxBigint

  /** The columns `username TEXT` (nullable) and `language TEXT`. */
  datatype Row = Row(username: Option<string>, language: string)

  datatype Column = Username | Language

  type Table = map<UserId, Row>

  /** The column default of `language`. */
  const DefaultLanguage: string := "uk"

  /** `SET <cols> = <values>`: the named columns take the new values, the
      others keep theirs. */
  function Assign(row: Row, values: Row, cols: set<Column>): Row
  {
    Row(if Username in cols then values.username else row.username,
        if Language in cols then values.language else row.language)
  }

  /** `INSERT ... VALUES <proposed> ON CONFLICT (user_id) DO UPDATE SET
      <cols> = EXCLUDED.<cols>`. */
  function InsertOnConflict(t: Table, id: UserId, proposed: Row, cols: set<Column>): Table
  {
    if id in t then t[id := Assign(t[id], proposed, cols)] else t[id := proposed]
  }

  /** `UPDATE users SET <cols> = <values> WHERE user_id = id`. */
  function UpdateWhere(t: Table, id: UserId, values: Row, cols: set<Column>): Table
  {
    if id in t then t[id := Assign(t[id], values, cols)] else t
  }

  /** `SELECT * FROM users WHERE user_id = id`, first row. */
  function SelectWhere(t: Table, id: UserId): Option<Row>
  {
    if id in t then Some(t[id]) else None
  }

  /** Python truthiness of an optional string: neither `None` nor empty. */
  predicate Truthy(s: Option<string>)
  {
    s.Some? && |s.value| > 0
  }

  /** `upsert_user`: with a language, both columns are written; without one
      only the username is, and a new row gets the column default. */
  function UpsertUser(t: Table, id: UserId, username: Option<string>, language: Option<string>): (r: Table)
    ensures r.Keys == t.Keys + {id}
    ensures r[id].username == username
    ensures Truthy(language) ==> r[id].language == language.value
    ensures !Truthy(language) && id in t ==> r[id].language == t[id].language
    ensures !Truthy(language) && id !in t ==> r[id].language == DefaultLanguage
    ensures forall other :: other in t && other != id ==> r[other] == t[other]
  {
    if Truthy(language) then
      InsertOnConflict(t, id, Row(username, language.value), {Username, Language})
    else
      InsertOnConflict(t, id, Row(username, DefaultLanguage), {Username})
  }

  /** `get_user_language`: the stored language, or "uk" when the user has no
      row. */
  function GetUserLanguage(t: Table, id: UserId): (r: string)
    ensures id in t ==> r == t[id].language
    ensures id !in t ==> r == DefaultLanguage
  {
    match SelectWhere(t, id)
    case Some(row) => row.language
    case None => "uk"
  }

  /** `set_user_language`: overwrites the language of an existing row and
      never inserts one. */
  function SetUserLanguage(t: Table, id: UserId, language: string): (r: Table)
    ensures r.Keys == t.Keys
    ensures id in t ==> r[id] == Row(t[id].username, language)
    ensures forall other :: other in t && other != id ==> r[other] == t[other]
  {
    UpdateWhere(t, id, Row(None, language), {Language})
  }

  /** Repeating an upsert changes nothing. */
  lemma UpsertIdempotent(t: Table, id: UserId, username: Option<string>, language: Option<string>)
    ensures UpsertUser(UpsertUser(t, id, username, language), id, username, language)
         == UpsertUser(t, id, username, language)
  {
    var once := UpsertUser(t, id, username, language);
    var twice := UpsertUser(once, id, username, language);
    assert twice.Keys == once.Keys;
    assert twice[id] == once[id];
  }

  /** An upsert without a language never changes the language a later
      lookup sees: on an existing row the column is kept, and on a new row
      the column default equals the lookup's fallback. */
  lemma UpsertWithoutLanguageKeepsLanguage(t: Table, id: UserId, username: Option<string>, language: Option<string>)
    requires !Truthy(language)
    ensures GetUserLanguage(UpsertUser(t, id, username, language), id) == GetUserLanguage(t, id)
  {
  }

  /** After an upsert with a language, or a language change on an existing
      row, the lookup returns that language. */
  lemma ReadYourLanguage(t: Table, id: UserId, username: Option<string>, language: string)
    ensures |language| > 0 ==> GetUserLanguage(UpsertUser(t, id, username, Some(language)), id) == language
    ensures id in t ==> GetUserLanguage(SetUserLanguage(t, id, language), id) == language
    ensures id !in t ==> GetUserLanguage(SetUserLanguage(t, id, language), id) == DefaultLanguage
  {
  }

  /** Statements on different users commute, since each touches only the
      row of its own key: upsert with upsert, upsert with a language
      change, and language change with language change. */
  lemma DistinctUsersCommute(t: Table, a: UserId, b: UserId,
                             ua: Option<string>, la: Option<string>,
                             ub: Option<string>, lb: Option<string>,
                             sa: string, sb: string)
    requires a != b
    ensures UpsertUser(UpsertUser(t, a, ua, la), b, ub, lb) == UpsertUser(UpsertUser(t, b, ub, lb), a, ua, la)
    ensures SetUserLanguage(UpsertUser(t, a, ua, la), b, sb) == UpsertUser(SetUserLanguage(t, b, sb), a, ua, la)
    ensures SetUserLanguage(SetUserLanguage(t, a, sa), b, sb) == SetUserLanguage(SetUserLanguage(t, b, sb), a, sa)
  {
    UpsertsCommute(t, a, b, ua, la, ub, lb);
    UpsertSetCommute(t, a, b, ua, la, sb);
    SetsCommute(t, a, b, sa, sb);
  }

  lemma UpsertsCommute(t: Table, a: UserId, b: UserId,
                       ua: Option<string>, la: Option<string>, ub: Option<string>, lb: Option<string>)
    requires a != b
    ensures UpsertUser(UpsertUser(t, a, ua, la), b, ub, lb) == UpsertUser(UpsertUser(t, b, ub, lb), a, ua, la)
  {
    var l := UpsertUser(UpsertUser(t, a, ua, la), b, ub, lb);
    var r := UpsertUser(UpsertUser(t, b, ub, lb), a, ua, la);
    assert l.Keys == r.Keys;
  }

  lemma UpsertSetCommute(t: Table, a: UserId, b: UserId, ua: Option<string>, la: Option<string>, sb: string)
    requires a != b
    ensures SetUserLanguage(UpsertUser(t, a, ua, la), b, sb) == UpsertUser(SetUserLanguage(t, b, sb), a, ua, la)
  {
    var l := SetUserLanguage(UpsertUser(t, a, ua, la), b, sb);
    var r := UpsertUser(SetUserLanguage(t, b, sb), a, ua, la);
    assert l.Keys == r.Keys;
  }

  lemma SetsCommute(t: Table, a: UserId, b: UserId, sa: string, sb: string)
    requires a != b
    ensures SetUserLanguage(SetUserLanguage(t, a, sa), b, sb) == SetUserLanguage(SetUserLanguage(t, b, sb), a, sa)
  {
    var l := SetUserLanguage(SetUserLanguage(t, a, sa), b, sb);
    var r := SetUserLanguage(SetUserLanguage(t, b, sb), a, sa);
    assert l.Keys == r.Keys;
  }

  /** Two upserts without a language: the username is the last one given,
      and the language is what it was before both. */
  lemma RenameTwice(t: Table, id: UserId)
    ensures var r := UpsertUser(UpsertUser(t, id, Some("bob"), None), id, Some("carol"), None);
      && r[id].username == Some("carol")
      && GetUserLanguage(r, id) == GetUserLanguage(t, id)
  {
    UpsertWithoutLanguageKeepsLanguage(t, id, Some("bob"), None);
    UpsertWithoutLanguageKeepsLanguage(UpsertUser(t, id, Some("bob"), None), id, Some("carol"), None);
  }
}
