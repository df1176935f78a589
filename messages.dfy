/** The stateful half of the message feed: the feed component, whose handlers
    update `text`, `loading`, `messages` and `limit` and issue requests to the
    store, and the per-message item with its two-state edit machine. */
module Messages {
  import opened Values
  import opened Store
  import opened Feed

  /** Every subscription issued so far asked for at most `limit` messages. */
  predicate ListensWithin(requests: seq<Request>, limit: nat)
  {
    forall i :: 0 <= i < |requests| && requests[i].Listen? ==> requests[i].limitToLast <= limit
  }

  /** Earlier subscriptions are never turned off, so a snapshot may come from
      any of them; since pagination only widens the window, a snapshot that
      honours the window of any subscription issued so far yields at most
      `limit` messages. */
  lemma StaleSnapshotWithinLimit(requests: seq<Request>, limit: nat, i: nat, v: SnapshotValue)
    requires ListensWithin(requests, limit)
    requires i < |requests| && requests[i].Listen?
    requires WithinWindow(v, requests[i].limitToLast)
    ensures Materialize(v).Messages? ==> |Materialize(v).items| <= limit
  {
    MaterializeWithinWindow(v, requests[i].limitToLast);
  }

  class MessagesBase {
    var text: string
    var loading: bool
    var messages: MessageList
    var limit: nat
    /** Every call made into the store client, oldest first. */
    var requests: seq<Request>

    ghost predicate Valid()
      reads this
    {
      && limit >= PAGE_SIZE
      && ListensWithin(requests, limit)
    }

    /** The initial state: no text, not loading, an empty array (not `null`), 5 messages. */
    constructor ()
      ensures Valid()
      ensures text == "" && !loading && messages == Messages([]) && limit == PAGE_SIZE
      ensures requests == []
    {
      text := "";
      loading := false;
      messages := Messages([]);
      limit := PAGE_SIZE;
      requests := [];
    }

    /** `componentDidMount`: start listening. */
    method Mount()
      requires Valid()
      modifies this
      ensures Valid()
      ensures loading && requests == old(requests) + [Listen(ORDER_KEY, limit)]
      ensures text == old(text) && messages == old(messages) && limit == old(limit)
      /** The new subscription asks for at least one message. */
      ensures requests[|requests| - 1].limitToLast >= 1
    {
      ListenForMessages();
    }

    /** `onListenForMessages`: mark the feed loading, then subscribe to the
        last `limit` messages ordered by creation time. */
    method ListenForMessages()
      requires Valid()
      modifies this
      ensures Valid()
      ensures loading && requests == old(requests) + [Listen(ORDER_KEY, limit)]
      ensures text == old(text) && messages == old(messages) && limit == old(limit)
      /** The new subscription asks for at least one message. */
      ensures requests[|requests| - 1].limitToLast >= 1
    {
      loading := true;
      requests := requests + [Listen(ORDER_KEY, limit)];
    }

    /** The 'value' callback: replace the whole list by the snapshot's, and stop loading. */
    method ReceiveSnapshot(v: SnapshotValue)
      requires Valid()
      modifies this
      ensures Valid()
      ensures messages == Materialize(v) && !loading
      ensures text == old(text) && limit == old(limit) && requests == old(requests)
      /** A snapshot that honours the window of any subscription issued so far
          (the current one or a stale one) leaves at most `limit` messages. */
      ensures (exists i :: 0 <= i < |requests| && requests[i].Listen? && WithinWindow(v, requests[i].limitToLast))
        ==> messages.Messages? ==> |messages.items| <= limit
    {
      var messageObject := v;
      if messageObject.Object? {
        var messageList := Attach(messageObject.entries);
        messages := Messages(Reverse(messageList));
        loading := false;
      } else {
        messages := NoMessages;
        loading := false;
      }
      forall i | 0 <= i < |requests| && requests[i].Listen? && WithinWindow(v, requests[i].limitToLast)
        ensures messages.Messages? ==> |messages.items| <= limit
      {
        StaleSnapshotWithinLimit(requests, limit, i, v);
      }
    }

    /** `onChangeText`. */
    method ChangeText(value: string)
      requires Valid()
      modifies this
      ensures Valid()
      ensures text == value
      ensures loading == old(loading) && messages == old(messages) && limit == old(limit)
      ensures requests == old(requests)
    {
      text := value;
    }

    /** `onNextPage`: five more messages, then subscribe again; the earlier
        subscription is not turned off. */
    method NextPage()
      requires Valid()
      modifies this
      ensures Valid()
      ensures limit == old(limit) + PAGE_SIZE && loading
      ensures requests == old(requests) + [Listen(ORDER_KEY, old(limit) + PAGE_SIZE)]
      ensures text == old(text) && messages == old(messages)
    {
      limit := limit + PAGE_SIZE;
      ListenForMessages();
    }

    /** `onCreateMessage`: push the typed text, whatever it is, and clear the
        input; the list changes only when a snapshot brings the message back. */
    method CreateMessage(authUser: AuthUser)
      requires Valid()
      modifies this
      ensures Valid()
      ensures requests == old(requests) + [Push(CreateRecord(old(text), authUser.uid))]
      ensures text == ""
      ensures loading == old(loading) && messages == old(messages) && limit == old(limit)
    {
      requests := requests + [Push(CreateRecord(text, authUser.uid))];
      text := "";
    }

    /** `onRemoveMessage`. */
    method RemoveMessage(uid: Key)
      requires Valid()
      modifies this
      ensures Valid()
      ensures requests == old(requests) + [Request.RemoveMessage(uid)]
      ensures text == old(text) && loading == old(loading) && messages == old(messages) && limit == old(limit)
    {
      requests := requests + [Request.RemoveMessage(uid)];
    }

    /** `onEditMessage`: a total replace of `messages/<uid>` by the message
        without its `uid`, with the new text and the edit time. The message is
        one the list handed out, so its `uid` is a key. */
    method EditMessage(message: Record, newText: Value)
      requires Valid()
      requires Get(message, "uid").Str?
      modifies this
      ensures Valid()
      ensures requests == old(requests) + [SetMessage(Get(message, "uid").s, EditRecord(message, newText))]
      ensures text == old(text) && loading == old(loading) && messages == old(messages) && limit == old(limit)
    {
      requests := requests + [SetMessage(Get(message, "uid").s, EditRecord(message, newText))];
    }

    /** `componentWillUnmount`. */
    method Unmount()
      requires Valid()
      modifies this
      ensures Valid()
      ensures requests == old(requests) + [Off]
      ensures text == old(text) && loading == old(loading) && messages == old(messages) && limit == old(limit)
    {
      requests := requests + [Off];
    }

    /** What the feed shows now. */
    function View(): (v: FeedView)
      reads this
    {
      RenderFeed(loading, messages)
    }
  }

  /** One message of the list with its local edit state. `message` is the
      item's current props: a new snapshot may hand it a newer copy while the
      edit state, kept per `uid`, stays. */
  class MessageItem {
    var message: Record
    var editMode: bool
    var editText: Value

    /** Viewing, with the draft initialised from the committed text. */
    constructor (message: Record)
      ensures this.message == message && !editMode && editText == Get(message, "text")
    {
      this.message := message;
      editMode := false;
      editText := Get(message, "text");
    }

    /** A re-render with a newer copy of the same message keeps the edit state.
        Items are keyed by `uid`, so a record with another `uid` gets a fresh
        item instead (the constructor). */
    method ReceiveMessage(m: Record)
      requires Get(m, "uid") == Get(message, "uid")
      modifies this
      ensures message == m && editMode == old(editMode) && editText == old(editText)
    {
      message := m;
    }

    /** Edit / Reset: flip the mode; the draft always starts over from the committed text. */
    method ToggleEditMode()
      modifies this
      ensures editMode == !old(editMode) && editText == Get(message, "text")
      ensures message == old(message)
    {
      editMode := !editMode;
      editText := Get(message, "text");
    }

    /** Typing in the edit input changes the draft only. */
    method ChangeEditText(value: string)
      modifies this
      ensures editText == Str(value)
      ensures editMode == old(editMode) && message == old(message)
    {
      editText := Str(value);
    }

    /** Save: hand the message and the draft to the feed's edit handler, then
        leave edit mode without waiting for the write. */
    method SaveEditText(feed: MessagesBase)
      requires feed.Valid()
      requires Get(message, "uid").Str?
      modifies this, feed
      ensures feed.Valid()
      ensures feed.requests == old(feed.requests) + [SetMessage(Get(old(message), "uid").s, EditRecord(old(message), old(editText)))]
      ensures feed.text == old(feed.text) && feed.loading == old(feed.loading)
      ensures feed.messages == old(feed.messages) && feed.limit == old(feed.limit)
      ensures !editMode && message == old(message) && editText == old(editText)
    {
      feed.EditMessage(message, editText);
      editMode := false;
    }

    /** What the item shows to `user` now. */
    function View(user: AuthUser): (v: ItemView)
      reads this
    {
      RenderItem(user, message, editMode)
    }
  }

  /** Mount on an empty collection, then a first snapshot: the feed moves from
      the initial empty array through "Loading" to the `null` notice. */
  method EmptyFeedScenario(user: AuthUser)
  {
    var feed := new MessagesBase();
    assert feed.View().list && feed.View().moreButton && !feed.View().loadingNotice;
    feed.Mount();
    assert feed.View().loadingNotice && !feed.View().moreButton;
    assert feed.requests == [Listen("createdAt", 5)];
    feed.ReceiveSnapshot(Null);
    assert feed.messages == NoMessages && !feed.loading;
    assert feed.View().emptyNotice && !feed.View().moreButton;
    feed.ChangeText("hello");
    feed.CreateMessage(user);
    assert feed.text == "" && feed.messages == NoMessages;
    assert feed.requests[1] == Push(map["text" := Str("hello"), "userId" := Str(user.uid), "createdAt" := ServerTimestamp]);
  }

  /** Two pages: the second subscription asks for ten, the first stays. */
  method PagingScenario()
  {
    var feed := new MessagesBase();
    feed.Mount();
    feed.NextPage();
    assert feed.limit == 10 && feed.loading;
    assert feed.requests == [Listen("createdAt", 5), Listen("createdAt", 10)];
  }

  /** Edit, type, Reset: no write, and the draft is the committed text again;
      while editing the input replaces the label, and afterwards the label is back. */
  method DiscardedEditScenario(feed: MessagesBase, user: AuthUser, m: Record)
    requires feed.Valid()
  {
    var before := feed.requests;
    var item := new MessageItem(m);
    item.ToggleEditMode();
    assert item.editMode;
    assert item.View(user).editInput && item.View(user).nameLabel == None;
    item.ChangeEditText("draft");
    item.ToggleEditMode();
    assert !item.editMode && item.editText == Get(m, "text");
    assert !item.View(user).editInput && item.View(user).nameLabel.Some?;
    assert feed.requests == before;
  }
}
