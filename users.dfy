/**
 * The user record operations of pkg/user/user.go.
 *
 * The DynamoDB client is a class holding every table by name; a table maps
 * the partition key `email` to the stored record. Each SDK call is an
 * operation on that map which may fail: which calls fail in one invocation is
 * given by a `Faults` value, and a call against a table that does not exist
 * fails as well. The email validator is a function parameter about which
 * nothing is assumed.
 */
module Users {
  import opened Wrappers

  /** A user record; `email` is the table's partition key. */
  datatype User = User(email: string, firstName: string, lastName: string)

  // The error messages the operations return (user.go lines 16-26).
  const ErrorFailedToFetchRecord := "failed to fetch record"
  const ErrorFailedToUnmarshalRecord := "failed to unmarshal record"
  const ErrorInvalidUserData := "invalid user data"
  const ErrorInvalidEmail := "invalid email"
  const ErrorCouldNotMarshalItem := "could not marshal item"
  const ErrorCouldNotDeleteItem := "could not delete item"
  const ErrorCouldNotDynamoPutItem := "could not dynamo put item"
  const ErrorUserAlreadyExists := "user.User already exists"
  const ErrorUserDoesNotExist := "user.User does not exist"

  type Table = map<string, User>
  type Tables = map<string, Table>

  /** Which SDK calls fail during one invocation. */
  datatype Faults = Faults(
    getItemFails: bool,
    scanFails: bool,
    unmarshalFails: bool,
    marshalFails: bool,
    putItemFails: bool,
    deleteItemFails: bool)

  const NoFaults := Faults(false, false, false, false, false, false)

  /** The outcome of an SDK call: it failed, or it returned a value. */
  datatype Call<+T> = Failed | Returned(value: T)

  /** The result of an operation together with the tables it leaves behind. */
  datatype Step<+T> = Step(result: Result<T, string>, db: Tables)

  /** DynamoDB stores an item under the key attribute it carries. */
  predicate KeyedByEmail(t: Table) {
    forall k :: k in t ==> t[k].email == k
  }

  predicate WellKeyed(db: Tables) {
    forall name :: name in db ==> KeyedByEmail(db[name])
  }

  /** The tables after a successful PutItem of `u`: a full replace at key `u.email`. */
  function Put(db: Tables, tableName: string, u: User): (db': Tables)
    requires tableName in db
    ensures db'.Keys == db.Keys && tableName in db'
    ensures db'[tableName].Keys == db[tableName].Keys + {u.email}
    ensures forall name :: name in db && name != tableName ==> db'[name] == db[name]
    ensures forall k :: k in db[tableName] && k != u.email ==> db'[tableName][k] == db[tableName][k]
    ensures db'[tableName][u.email] == u
    ensures WellKeyed(db) ==> WellKeyed(db')
  {
    db[tableName := db[tableName][u.email := u]]
  }

  /** The tables after a successful DeleteItem of key `email`, present or not. */
  function Remove(db: Tables, tableName: string, email: string): (db': Tables)
    requires tableName in db
    ensures db'.Keys == db.Keys && tableName in db'
    ensures db'[tableName].Keys == db[tableName].Keys - {email}
    ensures forall name :: name in db && name != tableName ==> db'[name] == db[name]
    ensures forall k :: k in db'[tableName] ==> db'[tableName][k] == db[tableName][k]
    ensures WellKeyed(db) ==> WellKeyed(db')
  {
    db[tableName := db[tableName] - {email}]
  }

  /** GetItem by the key `email`: the stored item if there is one, or a failed call. */
  function GetItem(db: Tables, tableName: string, email: string, f: Faults): (c: Call<Option<User>>)
    ensures c.Failed? <==> f.getItemFails || tableName !in db
    ensures c.Returned? ==> (c.value.Some? <==> email in db[tableName])
    ensures c.Returned? && c.value.Some? ==> c.value.value == db[tableName][email]
  {
    if f.getItemFails || tableName !in db then Failed
    else if email !in db[tableName] then Returned(None)
    else Returned(Some(db[tableName][email]))
  }

  /** FetchUser: look up exactly the key `email`, never changing the tables. */
  function FetchUser(db: Tables, email: string, tableName: string, f: Faults): (r: Result<User, string>)
    ensures r == Err(ErrorFailedToFetchRecord) <==> f.getItemFails || tableName !in db
    ensures r == Err(ErrorUserDoesNotExist) <==>
      !f.getItemFails && tableName in db && email !in db[tableName]
    ensures r == Err(ErrorFailedToUnmarshalRecord) <==>
      !f.getItemFails && tableName in db && email in db[tableName] && f.unmarshalFails
    ensures r.Ok? <==>
      !f.getItemFails && !f.unmarshalFails && tableName in db && email in db[tableName]
    ensures r.Ok? ==> r.value == db[tableName][email]
    ensures r.Ok? && WellKeyed(db) ==> r.value.email == email
  {
    match GetItem(db, tableName, email, f)
    case Failed => Err(ErrorFailedToFetchRecord)
    case Returned(None) => Err(ErrorUserDoesNotExist)
    case Returned(Some(item)) =>
      if f.unmarshalFails then Err(ErrorFailedToUnmarshalRecord) else Ok(item)
  }

  /** The existence test CreateUser and UpdateUser apply to a lookup: found, with a non-empty email. */
  predicate Present(current: Result<User, string>) {
    current.Ok? && |current.value.email| != 0
  }

  /** `items` is one complete scan of `t`: every record once, in some order. */
  ghost predicate IsScanOf(items: seq<User>, t: Table) {
    && |items| == |t|
    && (forall i :: 0 <= i < |items| ==> items[i].email in t && t[items[i].email] == items[i])
    && (forall i, j :: 0 <= i < j < |items| ==> items[i].email != items[j].email)
    && (forall k :: k in t ==> t[k] in items)
  }

  /**
   * Scan of one table. The order of the items is chosen by the backend and
   * is not specified: the loop picks the next key nondeterministically.
   */
  method ScanItems(t: Table) returns (items: seq<User>)
    requires KeyedByEmail(t)
    ensures IsScanOf(items, t)
  {
    items := [];
    var rest := t.Keys;
    while rest != {}
      invariant rest <= t.Keys
      invariant |items| + |rest| == |t|
      invariant forall i :: 0 <= i < |items| ==>
        items[i].email in t && items[i].email !in rest && t[items[i].email] == items[i]
      invariant forall i, j :: 0 <= i < j < |items| ==> items[i].email != items[j].email
      invariant forall k :: k in t && k !in rest ==> t[k] in items
      decreases rest
    {
      var k :| k in rest;
      items := items + [t[k]];
      rest := rest - {k};
    }
  }

  /** What FetchUsers may return: the first failure, or one complete scan. */
  ghost predicate FetchedAll(db: Tables, tableName: string, f: Faults, r: Result<seq<User>, string>) {
    if f.scanFails || tableName !in db then r == Err(ErrorFailedToFetchRecord)
    else if f.unmarshalFails then r == Err(ErrorFailedToUnmarshalRecord)
    else r.Ok? && IsScanOf(r.value, db[tableName])
  }

  /** CreateUser as a function of the tables before the call. */
  function CreateEffect(db: Tables, body: Option<User>, tableName: string,
                        isEmailValid: string -> bool, f: Faults): (s: Step<User>)
    ensures s.result == Err(ErrorInvalidUserData) <==> body.None?
    ensures s.result == Err(ErrorInvalidEmail) <==> body.Some? && !isEmailValid(body.value.email)
    ensures s.result == Err(ErrorUserAlreadyExists) <==>
      && body.Some? && isEmailValid(body.value.email)
      && !f.getItemFails && !f.unmarshalFails && tableName in db
      && body.value.email in db[tableName] && |db[tableName][body.value.email].email| != 0
    ensures s.result == Err(ErrorCouldNotMarshalItem) <==>
      && body.Some? && isEmailValid(body.value.email)
      && !Present(FetchUser(db, body.value.email, tableName, f)) && f.marshalFails
    ensures s.result == Err(ErrorCouldNotDynamoPutItem) <==>
      && body.Some? && isEmailValid(body.value.email)
      && !Present(FetchUser(db, body.value.email, tableName, f)) && !f.marshalFails
      && (f.putItemFails || tableName !in db)
    // the write proceeds whenever the lookup does not find a record, a failed lookup included
    ensures s.result.Ok? <==>
      && body.Some? && isEmailValid(body.value.email)
      && !Present(FetchUser(db, body.value.email, tableName, f))
      && !f.marshalFails && !f.putItemFails && tableName in db
    ensures s.result.Err? ==> s.db == db
    ensures s.result.Ok? ==>
      && body.Some? && s.result.value == body.value && tableName in db
      && s.db == Put(db, tableName, body.value)
    // a failed existence lookup counts as "absent"
    ensures s.result.Ok? ==>
      f.getItemFails || f.unmarshalFails || body.value.email !in db[tableName]
      || db[tableName][body.value.email].email == ""
    ensures WellKeyed(db) ==> WellKeyed(s.db)
  {
    if body.None? then Step(Err(ErrorInvalidUserData), db)
    else
      var u := body.value;
      if !isEmailValid(u.email) then Step(Err(ErrorInvalidEmail), db)
      else if Present(FetchUser(db, u.email, tableName, f)) then Step(Err(ErrorUserAlreadyExists), db)
      else if f.marshalFails then Step(Err(ErrorCouldNotMarshalItem), db)
      else if f.putItemFails || tableName !in db then Step(Err(ErrorCouldNotDynamoPutItem), db)
      else Step(Ok(u), Put(db, tableName, u))
  }

  /** UpdateUser as a function of the tables before the call. */
  function UpdateEffect(db: Tables, body: Option<User>, tableName: string, f: Faults): (s: Step<User>)
    ensures s.result == Err(ErrorInvalidUserData) <==> body.None?
    ensures s.result == Err(ErrorUserDoesNotExist) <==>
      body.Some? && !Present(FetchUser(db, body.value.email, tableName, f))
    ensures s.result == Err(ErrorCouldNotMarshalItem) <==>
      body.Some? && Present(FetchUser(db, body.value.email, tableName, f)) && f.marshalFails
    ensures s.result == Err(ErrorCouldNotDynamoPutItem) <==>
      && body.Some? && Present(FetchUser(db, body.value.email, tableName, f))
      && !f.marshalFails && f.putItemFails
    // the write proceeds whenever the lookup finds a record
    ensures s.result.Ok? <==>
      && body.Some? && Present(FetchUser(db, body.value.email, tableName, f))
      && !f.marshalFails && !f.putItemFails
    ensures s.result.Err? ==> s.db == db
    // an update never creates a record
    ensures s.result.Ok? ==>
      && body.Some? && s.result.value == body.value && tableName in db
      && body.value.email in db[tableName] && db[tableName][body.value.email].email != ""
      && s.db == Put(db, tableName, body.value)
    ensures WellKeyed(db) ==> WellKeyed(s.db)
  {
    if body.None? then Step(Err(ErrorInvalidUserData), db)
    else
      var u := body.value;
      if !Present(FetchUser(db, u.email, tableName, f)) then Step(Err(ErrorUserDoesNotExist), db)
      else if f.marshalFails then Step(Err(ErrorCouldNotMarshalItem), db)
      else if f.putItemFails then Step(Err(ErrorCouldNotDynamoPutItem), db)
      else Step(Ok(u), Put(db, tableName, u))
  }

  /** DeleteUser as a function of the tables before the call. */
  function DeleteEffect(db: Tables, email: string, tableName: string, f: Faults): (s: Step<()>)
    ensures s.result.Err? <==> f.deleteItemFails || tableName !in db
    ensures s.result.Err? ==> s.result.error == ErrorCouldNotDeleteItem && s.db == db
    // no existence check: an absent key is deleted successfully
    ensures s.result.Ok? ==> tableName in db && s.db == Remove(db, tableName, email)
    ensures WellKeyed(db) ==> WellKeyed(s.db)
  {
    if f.deleteItemFails || tableName !in db then Step(Err(ErrorCouldNotDeleteItem), db)
    else Step(Ok(()), Remove(db, tableName, email))
  }

  /** The DynamoDB client: the tables it reaches, changed in place by PutItem and DeleteItem. */
  class Client {
    var tables: Tables

    predicate Valid()
      reads this
    {
      WellKeyed(tables)
    }

    constructor (tables: Tables)
      requires WellKeyed(tables)
      ensures Valid() && this.tables == tables
    {
      this.tables := tables;
    }

    /** PutItem: store `u` under its own key, replacing any item there. */
    method PutItem(tableName: string, u: User, f: Faults) returns (ok: bool)
      requires Valid()
      modifies this
      ensures Valid()
      ensures ok <==> !f.putItemFails && tableName in old(tables)
      ensures tables == if ok then Put(old(tables), tableName, u) else old(tables)
    {
      if f.putItemFails || tableName !in tables {
        return false;
      }
      tables := tables[tableName := tables[tableName][u.email := u]];
      return true;
    }

    /** DeleteItem: remove key `email` whether or not it is there. */
    method DeleteItem(tableName: string, email: string, f: Faults) returns (ok: bool)
      requires Valid()
      modifies this
      ensures Valid()
      ensures ok <==> !f.deleteItemFails && tableName in old(tables)
      ensures tables == if ok then Remove(old(tables), tableName, email) else old(tables)
    {
      if f.deleteItemFails || tableName !in tables {
        return false;
      }
      tables := tables[tableName := tables[tableName] - {email}];
      return true;
    }

    /** FetchUsers: one unfiltered scan of the table, decoded; nothing is written. */
    method FetchUsers(tableName: string, f: Faults) returns (r: Result<seq<User>, string>)
      requires Valid()
      ensures FetchedAll(tables, tableName, f, r)
    {
      if f.scanFails || tableName !in tables {
        return Err(ErrorFailedToFetchRecord);
      }
      var items := ScanItems(tables[tableName]);
      if f.unmarshalFails {
        return Err(ErrorFailedToUnmarshalRecord);
      }
      return Ok(items);
    }

    /** CreateUser: parse, validate, check for an existing record, then put. */
    method CreateUser(body: Option<User>, tableName: string, isEmailValid: string -> bool, f: Faults)
      returns (r: Result<User, string>)
      requires Valid()
      modifies this
      ensures Valid()
      ensures Step(r, tables) == CreateEffect(old(tables), body, tableName, isEmailValid, f)
    {
      if body.None? {
        return Err(ErrorInvalidUserData);
      }
      var u := body.value;
      if !isEmailValid(u.email) {
        return Err(ErrorInvalidEmail);
      }
      // the lookup's error is discarded: only a found record blocks the write
      var current := FetchUser(tables, u.email, tableName, f);
      if current.Ok? && |current.value.email| != 0 {
        return Err(ErrorUserAlreadyExists);
      }
      if f.marshalFails {
        return Err(ErrorCouldNotMarshalItem);
      }
      var ok := PutItem(tableName, u, f);
      if !ok {
        return Err(ErrorCouldNotDynamoPutItem);
      }
      return Ok(u);
    }

    /** UpdateUser: parse, require an existing record, then put (a full replace). */
    method UpdateUser(body: Option<User>, tableName: string, f: Faults) returns (r: Result<User, string>)
      requires Valid()
      modifies this
      ensures Valid()
      ensures Step(r, tables) == UpdateEffect(old(tables), body, tableName, f)
    {
      if body.None? {
        return Err(ErrorInvalidUserData);
      }
      var u := body.value;
      var current := FetchUser(tables, u.email, tableName, f);
      if current.Err? || |current.value.email| == 0 {
        return Err(ErrorUserDoesNotExist);
      }
      if f.marshalFails {
        return Err(ErrorCouldNotMarshalItem);
      }
      var ok := PutItem(tableName, u, f);
      if !ok {
        return Err(ErrorCouldNotDynamoPutItem);
      }
      return Ok(u);
    }

    /** DeleteUser: an unconditional DeleteItem by key. */
    method DeleteUser(email: string, tableName: string, f: Faults) returns (r: Result<(), string>)
      requires Valid()
      modifies this
      ensures Valid()
      ensures Step(r, tables) == DeleteEffect(old(tables), email, tableName, f)
    {
      var ok := DeleteItem(tableName, email, f);
      if !ok {
        return Err(ErrorCouldNotDeleteItem);
      }
      return Ok(());
    }
  }

  /** Creating a record and then fetching its email returns that record. */
  lemma CreateThenFetch(db: Tables, u: User, tableName: string, isEmailValid: string -> bool,
                        f: Faults, g: Faults)
    requires CreateEffect(db, Some(u), tableName, isEmailValid, f).result.Ok?
    requires !g.getItemFails && !g.unmarshalFails
    ensures FetchUser(CreateEffect(db, Some(u), tableName, isEmailValid, f).db, u.email, tableName, g) == Ok(u)
  {
  }

  /** Deleting a key and then fetching it reports that the user does not exist. */
  lemma DeleteThenFetch(db: Tables, email: string, tableName: string, f: Faults, g: Faults)
    requires DeleteEffect(db, email, tableName, f).result.Ok?
    requires !g.getItemFails
    ensures FetchUser(DeleteEffect(db, email, tableName, f).db, email, tableName, g) == Err(ErrorUserDoesNotExist)
  {
  }
}
