/** The realtime store as the message feed uses it: the requests the client
    issues (an append-only log) and, as a reference for what those requests
    mean, the effect of the write requests on the `messages` collection. */
module Store {
  import opened Values

  /** A key of the `messages` collection (a push id). */
  type Key = string

  /** One call into the store client. `Listen`, `Off` and `Push` act on the
      `messages` reference; `SetMessage` and `RemoveMessage` on `messages/<uid>`. */
  datatype Request =
    | Listen(orderByChild: string, limitToLast: nat)  // .orderByChild(..).limitToLast(..).on('value', ..)
    | Off                                             // messages().off()
    | Push(record: Record)                            // messages().push(record)
    | SetMessage(uid: Key, record: Record)            // message(uid).set(record)
    | RemoveMessage(uid: Key)                         // message(uid).remove()

  /** What a 'value' listener receives: `null`, or an object whose own keys
      are listed in the order `Object.keys` gives them. */
  datatype SnapshotValue = Null | Object(entries: seq<(Key, Record)>)

  /** The collection as the server holds it. */
  type Db = map<Key, Record>

  predicate HasPlaceholder(r: Record)
  {
    exists f :: f in r && r[f] == ServerTimestamp
  }

  /** The server's substitution of its clock `now` for every timestamp placeholder. */
  function Resolve(r: Record, now: int): (r': Record)
    ensures r'.Keys == r.Keys
    ensures !HasPlaceholder(r')
    ensures forall f :: f in r && r[f] != ServerTimestamp ==> r'[f] == r[f]
    ensures forall f :: f in r && r[f] == ServerTimestamp ==> r'[f] == Num(now)
  {
    map f | f in r :: if r[f] == ServerTimestamp then Num(now) else r[f]
  }

  /** The effect of one request on the collection. `pushKey` is the id the
      client generates for a push and `now` the server's clock; reads leave the
      collection as it is. */
  function ApplyWrite(db: Db, req: Request, pushKey: Key, now: int): (r: Db)
  {
    match req
    case Push(rec) => db[pushKey := Resolve(rec, now)]
    case SetMessage(uid, rec) => db[uid := Resolve(rec, now)]
    case RemoveMessage(uid) => db - {uid}
    case _ => db
  }

  /** A push adds exactly one record under its fresh key and leaves every other one. */
  lemma PushAddsOne(db: Db, rec: Record, pushKey: Key, now: int)
    requires pushKey !in db
    ensures var db' := ApplyWrite(db, Push(rec), pushKey, now);
      && db'.Keys == db.Keys + {pushKey}
      && |db'| == |db| + 1
      && db'[pushKey] == Resolve(rec, now)
      && forall k :: k in db ==> db'[k] == db[k]
  {
    var db' := ApplyWrite(db, Push(rec), pushKey, now);
    assert db'.Keys == db.Keys + {pushKey};
    assert |db.Keys + {pushKey}| == |db.Keys| + 1;
  }

  /** A removal deletes only the record under its key. */
  lemma RemoveDeletesOnly(db: Db, uid: Key, pushKey: Key, now: int)
    ensures var db' := ApplyWrite(db, RemoveMessage(uid), pushKey, now);
      && db'.Keys == db.Keys - {uid}
      && forall k :: k in db' ==> db'[k] == db[k]
  {
  }

  /** A set replaces the record under its key in total and touches no other key. */
  lemma SetReplacesOnly(db: Db, uid: Key, rec: Record, pushKey: Key, now: int)
    ensures var db' := ApplyWrite(db, SetMessage(uid, rec), pushKey, now);
      && db'.Keys == db.Keys + {uid}
      && db'[uid] == Resolve(rec, now)
      && forall k :: k in db && k != uid ==> db'[k] == db[k]
  {
  }
}
