/** The pure half of the message feed: turning a snapshot into the list the
    feed shows, the records that create and edit write, and what the feed and
    each item render as visible. */
module Feed {
  import opened Values
  import opened Store

  /** How many more messages "More" asks for. */
  const PAGE_SIZE: nat := 5
  /** The child the subscription orders by. */
  const ORDER_KEY: string := "createdAt"

  /** The feed's `messages` state: `null` (shown as "There are no messages")
      or an array of messages, each a stored record carrying its key as `uid`. */
  datatype MessageList = NoMessages | Messages(items: seq<Record>)

  /** The signed-in user as the feed sees it. */
  datatype AuthUser = AuthUser(uid: Key, username: Value)

  // ---------------------------------------------------------------------
  // Snapshot to list

  /** A stored record with its key attached as `uid`; the key is written after
      the record's own fields, so it overrides a stored `uid`. */
  function WithUid(key: Key, rec: Record): (m: Record)
    ensures Get(m, "uid") == Str(key)
    ensures forall f :: f != "uid" ==> Get(m, f) == Get(rec, f)
    ensures m.Keys == rec.Keys + {"uid"}
  {
    rec["uid" := Str(key)]
  }

  /** The snapshot's entries, in key order, each made into a message by
      attaching its key as `uid`. */
  function Attach(entries: seq<(Key, Record)>): (r: seq<Record>)
    ensures |r| == |entries|
    ensures forall i :: 0 <= i < |r| ==> Get(r[i], "uid") == Str(entries[i].0)
    ensures forall i, f :: 0 <= i < |r| && f != "uid" ==> Get(r[i], f) == Get(entries[i].1, f)
  {
    seq(|entries|, i requires 0 <= i < |entries| => WithUid(entries[i].0, entries[i].1))
  }

  /** `Array.prototype.reverse`. */
  function Reverse<T>(s: seq<T>): (r: seq<T>)
    ensures |r| == |s|
  {
    if s == [] then [] else Reverse(s[1..]) + [s[0]]
  }

  lemma {:induction false} ReverseAt<T>(s: seq<T>, k: nat)
    requires k < |s|
    ensures Reverse(s)[k] == s[|s| - 1 - k]
  {
    if k < |s| - 1 {
      ReverseAt(s[1..], k);
    }
  }

  /** The snapshot callback's computation of the new `messages`: a falsy
      value gives `null`; an object gives its entries with their keys attached,
      in reverse order. */
  function Materialize(v: SnapshotValue): (r: MessageList)
    ensures r.NoMessages? <==> v.Null?
    ensures v.Object? ==> |r.items| == |v.entries|
  {
    match v
    case Null => NoMessages
    case Object(entries) => Messages(Reverse(Attach(entries)))
  }

  /** An object snapshot with entries e[0..n) gives exactly n messages, the
      i-th being entry n-1-i with its key as `uid`. */
  lemma MaterializeObject(e: seq<(Key, Record)>)
    ensures Materialize(Object(e)).Messages?
    ensures |Materialize(Object(e)).items| == |e|
    ensures forall i :: 0 <= i < |e| ==>
      Materialize(Object(e)).items[i] == WithUid(e[|e| - 1 - i].0, e[|e| - 1 - i].1)
  {
    var a := Attach(e);
    forall i | 0 <= i < |e|
      ensures Materialize(Object(e)).items[i] == WithUid(e[|e| - 1 - i].0, e[|e| - 1 - i].1)
    {
      ReverseAt(a, i);
    }
  }

  /** Every field of the i-th message other than `uid` is that of the stored
      record it came from, and its `uid` is that record's key. */
  lemma MaterializedFields(e: seq<(Key, Record)>, i: nat, f: string)
    requires i < |e|
    ensures var m := Materialize(Object(e)).items[i];
      && Get(m, "uid") == Str(e[|e| - 1 - i].0)
      && (f != "uid" ==> Get(m, f) == Get(e[|e| - 1 - i].1, f))
  {
    MaterializeObject(e);
  }

  predicate DistinctKeys(e: seq<(Key, Record)>)
  {
    forall i, j :: 0 <= i < j < |e| ==> e[i].0 != e[j].0
  }

  /** The keys of an object are distinct, so the list never holds two messages
      with the same `uid`. */
  lemma MaterializedUidsDistinct(e: seq<(Key, Record)>)
    requires DistinctKeys(e)
    ensures var items := Materialize(Object(e)).items;
      forall i, j :: 0 <= i < j < |items| ==> Get(items[i], "uid") != Get(items[j], "uid")
  {
    MaterializeObject(e);
    var items := Materialize(Object(e)).items;
    forall i, j | 0 <= i < j < |items|
      ensures Get(items[i], "uid") != Get(items[j], "uid")
    {
      assert Get(items[i], "uid") == Str(e[|e| - 1 - i].0);
      assert Get(items[j], "uid") == Str(e[|e| - 1 - j].0);
      assert 0 <= |e| - 1 - j < |e| - 1 - i < |e|;
    }
  }

  /** The store delivers at most `limit` entries for a `limitToLast(limit)` query. */
  predicate WithinWindow(v: SnapshotValue, limit: nat)
  {
    v.Object? ==> |v.entries| <= limit
  }

  /** A snapshot that honours a window of `n` entries gives at most `n` messages. */
  lemma MaterializeWithinWindow(v: SnapshotValue, n: nat)
    requires WithinWindow(v, n)
    ensures Materialize(v).Messages? ==> |Materialize(v).items| <= n
  {
    if v.Object? {
      MaterializeObject(v.entries);
    }
  }

  // ---------------------------------------------------------------------
  // Write records

  /** The record `onCreateMessage` pushes: the typed text, the author's uid and
      the server's creation time, and nothing else. */
  function CreateRecord(text: string, authUid: Key): (r: Record)
    ensures r.Keys == {"text", "userId", "createdAt"}
    ensures r["text"] == Str(text) && r["userId"] == Str(authUid)
    ensures r["createdAt"] == ServerTimestamp
  {
    map["text" := Str(text), "userId" := Str(authUid), "createdAt" := ServerTimestamp]
  }

  /** The record `onEditMessage` sets: every field of the message but `uid`,
      with `text` replaced and `editedAt` set to the server's time. */
  function EditRecord(message: Record, text: Value): (r: Record)
    ensures "uid" !in r
    ensures r.Keys == (message.Keys - {"uid"}) + {"text", "editedAt"}
    ensures r["text"] == text && r["editedAt"] == ServerTimestamp
    ensures forall f :: f in message && f !in {"uid", "text", "editedAt"} ==> r[f] == message[f]
  {
    (message - {"uid"})["text" := text]["editedAt" := ServerTimestamp]
  }

  /** A created message, once the server has applied the push and the next
      snapshot brings it back, carries the typed text, its author, the server's
      time as `createdAt` and its push id as `uid`; its author sees the Edit and
      Delete buttons, and it is not marked "(Edited)". */
  lemma CreateRoundTrip(db: Db, text: string, user: AuthUser, pushKey: Key, now: int)
    requires pushKey !in db
    ensures var db' := ApplyWrite(db, Push(CreateRecord(text, user.uid)), pushKey, now);
      && pushKey in db'
      && var m := WithUid(pushKey, db'[pushKey]);
      && m == map["text" := Str(text), "userId" := Str(user.uid), "createdAt" := Num(now), "uid" := Str(pushKey)]
      && RenderItem(user, m, false).editButton
      && RenderItem(user, m, false).deleteButton
      && !RenderItem(user, m, false).editedTag
  {
    var r := CreateRecord(text, user.uid);
    var db' := ApplyWrite(db, Push(r), pushKey, now);
    var m := WithUid(pushKey, db'[pushKey]);
    var expected := map["text" := Str(text), "userId" := Str(user.uid), "createdAt" := Num(now), "uid" := Str(pushKey)];
    assert m.Keys == expected.Keys;
    assert m == expected;
  }

  /** An edit committed with text t, once applied and delivered back under the
      same key, changes exactly `text` and `editedAt` of the message it was made
      from (a message read from a snapshot holds no placeholder). With a
      non-zero server time the message is then marked "(Edited)". */
  lemma EditRoundTrip(db: Db, message: Record, uid: Key, text: Value, user: AuthUser, pushKey: Key, now: int)
    requires Get(message, "uid") == Str(uid)
    requires !HasPlaceholder(message) && text != ServerTimestamp
    ensures var db' := ApplyWrite(db, SetMessage(uid, EditRecord(message, text)), pushKey, now);
      && uid in db'
      && WithUid(uid, db'[uid]) == message["text" := text]["editedAt" := Num(now)]
      && (now != 0 ==> RenderItem(user, WithUid(uid, db'[uid]), false).editedTag)
  {
    var r := EditRecord(message, text);
    var db' := ApplyWrite(db, SetMessage(uid, r), pushKey, now);
    var m := WithUid(uid, db'[uid]);
    var expected := message["text" := text]["editedAt" := Num(now)];
    assert m.Keys == expected.Keys;
    forall f | f in m
      ensures m[f] == expected[f]
    {
      if f == "uid" {
        assert expected[f] == message["uid"];
      } else if f != "text" && f != "editedAt" {
        assert m[f] == Resolve(r, now)[f] == r[f] == message[f];
      }
    }
    assert m == expected;
  }

  // ---------------------------------------------------------------------
  // What is rendered

  /** The conditional parts of the feed. */
  datatype FeedView = FeedView(moreButton: bool, loadingNotice: bool, list: bool, emptyNotice: bool)

  /** "More" is offered only once a snapshot with messages is in, and never
      together with "Loading"; the list and the empty notice exclude each other. */
  function RenderFeed(loading: bool, messages: MessageList): (view: FeedView)
    ensures view.moreButton <==> !loading && messages != NoMessages
    ensures view.loadingNotice <==> loading
    ensures !(view.moreButton && view.loadingNotice)
    ensures view.list <==> !view.emptyNotice
    ensures view.list <==> messages.Messages?
  {
    FeedView(
      moreButton := !loading && messages.Messages?,
      loadingNotice := loading,
      list := messages.Messages?,
      emptyNotice := messages.NoMessages?)
  }

  /** The conditional parts of one message item. */
  datatype ItemView = ItemView(
    editInput: bool, nameLabel: Option<Value>, editedTag: bool,
    saveAndReset: bool, editButton: bool, deleteButton: bool)

  /** Whether the signed-in user wrote the message; a message with no
      `userId` field is nobody's. */
  function IsAuthor(user: AuthUser, message: Record): (r: bool)
    ensures r <==> "userId" in message && message["userId"] == Str(user.uid)
  {
    Get(message, "userId") == Str(user.uid)
  }

  /** Controls on an item are the author's alone; Delete is hidden while
      editing, Save and Reset shown only then; "(Edited)" follows `editedAt`. */
  function RenderItem(user: AuthUser, message: Record, editMode: bool): (view: ItemView)
    ensures view.editInput <==> editMode
    ensures view.editButton <==> IsAuthor(user, message) && !editMode
    ensures view.deleteButton <==> IsAuthor(user, message) && !editMode
    ensures view.saveAndReset <==> IsAuthor(user, message) && editMode
    ensures !(view.deleteButton && view.saveAndReset)
    ensures view.editedTag <==> !editMode && Truthy(Get(message, "editedAt"))
    ensures view.nameLabel.None? <==> editMode
    ensures !editMode && Truthy(user.username) ==> view.nameLabel == Some(user.username)
    ensures !editMode && !Truthy(user.username) ==> view.nameLabel == Some(Get(message, "userId"))
  {
    ItemView(
      editInput := editMode,
      nameLabel :=
        if editMode then None
        else if Truthy(user.username) then Some(user.username)
        else Some(Get(message, "userId")),
      editedTag := !editMode && Truthy(Get(message, "editedAt")),
      saveAndReset := IsAuthor(user, message) && editMode,
      editButton := IsAuthor(user, message) && !editMode,
      deleteButton := IsAuthor(user, message) && !editMode)
  }

  /** After a snapshot nothing is loading, and "More" is offered exactly when
      the snapshot was an object. */
  lemma SnapshotVisibility(v: SnapshotValue)
    ensures var view := RenderFeed(false, Materialize(v));
      && !view.loadingNotice
      && (view.moreButton <==> v.Object?)
      && (view.emptyNotice <==> v.Null?)
  {
  }

  /** Outside edit mode, the label in front of a message is the signed-in
      user's username whenever that is set, whoever wrote the message. */
  lemma LabelIsViewer(user: AuthUser, m1: Record, m2: Record)
    requires Truthy(user.username)
    ensures RenderItem(user, m1, false).nameLabel == RenderItem(user, m2, false).nameLabel == Some(user.username)
  {
  }
}
