/**
  The messaging store: users, messages, message-history rows and
  notifications, tied together by foreign keys that all cascade on delete.
  A `post_save` handler on messages adds a notification for the receiver,
  but only when the save inserted the message.

  Rows are kept in maps from primary key to record; the auto-increment keys
  come from counters. Times (`auto_now_add`) are the parameter `now`.
 */
module Messaging {
  import opened Tables

  datatype Message = Message(sender: nat, receiver: nat, content: string, timestamp: int, edited: bool)

  datatype MessageHistory = MessageHistory(message: nat, oldContent: string, editedAt: int)

  datatype Notification = Notification(user: nat, message: nat, createdAt: int, isRead: bool)

  /** The four tables at one moment. */
  datatype Db = Db(
    users: set<nat>,
    messages: map<nat, Message>,
    histories: map<nat, MessageHistory>,
    notifications: map<nat, Notification>)

  /** Referential integrity: every foreign key names an existing row. */
  ghost predicate Consistent(db: Db)
  {
    && (forall m :: m in db.messages ==> db.messages[m].sender in db.users && db.messages[m].receiver in db.users)
    && (forall h :: h in db.histories ==> db.histories[h].message in db.messages)
    && (forall n :: n in db.notifications ==> db.notifications[n].user in db.users && db.notifications[n].message in db.messages)
  }

  /** Every key of `db` is below its table's counter. */
  ghost predicate Bounded(db: Db, nextUser: nat, nextMessage: nat, nextHistory: nat, nextNotification: nat)
  {
    && (forall u :: u in db.users ==> u < nextUser)
    && (forall m :: m in db.messages ==> m < nextMessage)
    && (forall h :: h in db.histories ==> h < nextHistory)
    && (forall n :: n in db.notifications ==> n < nextNotification)
  }

  /** `r` keeps only rows that `db` has. */
  ghost predicate Within(r: Db, db: Db)
  {
    && r.users <= db.users
    && r.messages.Keys <= db.messages.Keys
    && r.histories.Keys <= db.histories.Keys
    && r.notifications.Keys <= db.notifications.Keys
  }

  lemma WithinBounded(r: Db, db: Db, nextUser: nat, nextMessage: nat, nextHistory: nat, nextNotification: nat)
    requires Bounded(db, nextUser, nextMessage, nextHistory, nextNotification) && Within(r, db)
    ensures Bounded(r, nextUser, nextMessage, nextHistory, nextNotification)
  {
  }

  /** Adding a message between two users under the next message key keeps the keys linked and bounded. */
  lemma AddMessageLinked(db: Db, nu: nat, nm: nat, nh: nat, nn: nat, msg: Message)
    requires Consistent(db) && Bounded(db, nu, nm, nh, nn)
    requires msg.sender in db.users && msg.receiver in db.users
    ensures var r := db.(messages := db.messages[nm := msg]);
      Consistent(r) && Bounded(r, nu, nm + 1, nh, nn)
  {
  }

  /** Adding a notification about an existing message for an existing user, likewise. */
  lemma AddNotificationLinked(db: Db, nu: nat, nm: nat, nh: nat, nn: nat, note: Notification)
    requires Consistent(db) && Bounded(db, nu, nm, nh, nn)
    requires note.user in db.users && note.message in db.messages
    ensures var r := db.(notifications := db.notifications[nn := note]);
      Consistent(r) && Bounded(r, nu, nm, nh, nn + 1)
  {
  }

  /** Recording a history row for message `id` and rewriting that message in place, likewise. */
  lemma EditLinked(db: Db, nu: nat, nm: nat, nh: nat, nn: nat, id: nat, msg: Message, history: MessageHistory)
    requires Consistent(db) && Bounded(db, nu, nm, nh, nn)
    requires id in db.messages && msg.sender == db.messages[id].sender && msg.receiver == db.messages[id].receiver
    requires history.message == id
    ensures var r := db.(messages := db.messages[id := msg], histories := db.histories[nh := history]);
      Consistent(r) && Bounded(r, nu, nm, nh + 1, nn)
  {
    var r := db.(messages := db.messages[id := msg], histories := db.histories[nh := history]);
    assert r.messages.Keys == db.messages.Keys;
  }

  /**
    Deleting message `id`: its history rows and its notifications go with it
    (both CASCADE); every other row stays as it was.
   */
  function DeleteMessageCascade(db: Db, id: nat): (r: Db)
    ensures r.users == db.users
    ensures id !in r.messages
    ensures forall h :: h in r.histories ==> r.histories[h].message != id
    ensures forall n :: n in r.notifications ==> r.notifications[n].message != id
    ensures forall m :: m in db.messages && m != id ==> m in r.messages && r.messages[m] == db.messages[m]
    ensures forall h :: h in db.histories && db.histories[h].message != id ==> h in r.histories && r.histories[h] == db.histories[h]
    ensures forall n :: n in db.notifications && db.notifications[n].message != id ==>
      n in r.notifications && r.notifications[n] == db.notifications[n]
    ensures Within(r, db)
    ensures Consistent(db) ==> Consistent(r)
  {
    Db(db.users,
       map m | m in db.messages && m != id :: db.messages[m],
       map h | h in db.histories && db.histories[h].message != id :: db.histories[h],
       map n | n in db.notifications && db.notifications[n].message != id :: db.notifications[n])
  }

  /** The messages a user sent or received: those deleting the user deletes. */
  predicate Involves(msg: Message, u: nat)
  {
    msg.sender == u || msg.receiver == u
  }

  /**
    Deleting user `u`: the messages they sent or received, the history rows
    and notifications of those messages, and the notifications addressed to
    `u` all go; every other row stays as it was.
   */
  function DeleteUserCascade(db: Db, u: nat): (r: Db)
    ensures r.users == db.users - {u}
    ensures forall m :: m in r.messages ==> !Involves(r.messages[m], u)
    ensures forall n :: n in r.notifications ==> r.notifications[n].user != u
    ensures forall m :: m in db.messages && !Involves(db.messages[m], u) ==> m in r.messages && r.messages[m] == db.messages[m]
    ensures forall h :: h in db.histories && db.histories[h].message in r.messages ==>
      h in r.histories && r.histories[h] == db.histories[h]
    ensures forall n :: n in db.notifications && db.notifications[n].user != u && db.notifications[n].message in r.messages ==>
      n in r.notifications && r.notifications[n] == db.notifications[n]
    ensures Within(r, db)
    ensures Consistent(db) ==> Consistent(r)
  {
    var kept := map m | m in db.messages && !Involves(db.messages[m], u) :: db.messages[m];
    Db(db.users - {u},
       kept,
       map h | h in db.histories && db.histories[h].message in kept :: db.histories[h],
       map n | n in db.notifications && db.notifications[n].user != u && db.notifications[n].message in kept
         :: db.notifications[n])
  }

  /** The cascade reaches the history rows and notifications of every message the user took part in. */
  lemma DeleteUserRemovesDependents(db: Db, u: nat, m: nat)
    requires m in db.messages && Involves(db.messages[m], u)
    ensures m !in DeleteUserCascade(db, u).messages
    ensures forall h :: h in DeleteUserCascade(db, u).histories ==> DeleteUserCascade(db, u).histories[h].message != m
    ensures forall n :: n in DeleteUserCascade(db, u).notifications ==> DeleteUserCascade(db, u).notifications[n].message != m
  {
  }

  /** Deleting a message cannot remove a user, and deleting one user removes no other user. */
  lemma DeletesKeepOtherUsers(db: Db, u: nat, v: nat, id: nat)
    requires v in db.users && v != u
    ensures v in DeleteUserCascade(db, u).users
    ensures v in DeleteMessageCascade(db, id).users
  {
  }

  /** The store as a class whose tables the operations update in place. */
  class MessageStore {
    var users: set<nat>
    var messages: map<nat, Message>
    var histories: map<nat, MessageHistory>
    var notifications: map<nat, Notification>
    var nextUser: nat
    var nextMessage: nat
    var nextHistory: nat
    var nextNotification: nat
    /** How many messages have been inserted so far. */
    ghost var insertions: nat
    /** Whether any delete has happened. */
    ghost var deleted: bool

    function Snapshot(): Db
      reads this
    {
      Db(users, messages, histories, notifications)
    }

    /** Every foreign key resolves and every key is below its counter. */
    ghost predicate Linked()
      reads this
    {
      && Consistent(Snapshot())
      && Bounded(Snapshot(), nextUser, nextMessage, nextHistory, nextNotification)
    }

    /** Besides `Linked`, one notification per inserted message as long as nothing was deleted. */
    ghost predicate Valid()
      reads this
    {
      Linked() && (!deleted ==> |notifications| == insertions)
    }

    constructor ()
      ensures Valid()
      ensures Snapshot() == Db({}, map[], map[], map[])
      ensures insertions == 0 && !deleted
    {
      users, messages, histories, notifications := {}, map[], map[], map[];
      nextUser, nextMessage, nextHistory, nextNotification := 0, 0, 0, 0;
      insertions, deleted := 0, false;
    }

    method AddUser() returns (u: nat)
      requires Valid()
      modifies this`users, this`nextUser
      ensures Valid()
      ensures u !in old(users) && users == old(users) + {u}
    {
      u := nextUser;
      users := users + {u};
      nextUser := nextUser + 1;
    }

    /**
      The `post_save` handler: after an insert (`created`), one unread
      notification for the message's receiver about this message; after an
      update, nothing.
     */
    method CreateNotification(id: nat, created: bool, now: int)
      requires Linked() && id in messages
      modifies this`notifications, this`nextNotification
      ensures Linked()
      ensures created ==> exists n: nat ::
        && n !in old(notifications)
        && notifications == old(notifications)[n := Notification(messages[id].receiver, id, now, false)]
      ensures created ==> |notifications| == |old(notifications)| + 1
      ensures !created ==> notifications == old(notifications)
    {
      if created {
        var n := nextNotification;
        var note := Notification(messages[id].receiver, id, now, false);
        assert n !in notifications;
        assert notifications[n := note].Keys == notifications.Keys + {n};
        AddNotificationLinked(Snapshot(), nextUser, nextMessage, nextHistory, n, note);
        notifications := notifications[n := note];
        nextNotification := nextNotification + 1;
      }
    }

    /**
      `Message.objects.create`: a new message under a key no message holds,
      not edited, followed by the `post_save` handler with `created` true.
      None (and no change) when the sender or the receiver is not a user,
      which the foreign keys refuse.
     */
    method CreateMessage(sender: nat, receiver: nat, content: string, now: int) returns (id: Option<nat>)
      requires Valid()
      modifies this
      ensures Valid()
      ensures id.None? <==> sender !in users || receiver !in users
      ensures id.None? ==> Snapshot() == old(Snapshot()) && insertions == old(insertions)
      ensures id.Some? ==>
        && id.value !in old(messages)
        && users == old(users) && histories == old(histories)
        && messages == old(messages)[id.value := Message(sender, receiver, content, now, false)]
        && insertions == old(insertions) + 1
        && (exists n: nat ::
              && n !in old(notifications)
              && notifications == old(notifications)[n := Notification(receiver, id.value, now, false)])
      ensures deleted == old(deleted)
    {
      if sender !in users || receiver !in users {
        return None;
      }
      var m := nextMessage;
      AddMessageLinked(Snapshot(), nextUser, m, nextHistory, nextNotification, Message(sender, receiver, content, now, false));
      messages := messages[m := Message(sender, receiver, content, now, false)];
      nextMessage := nextMessage + 1;
      insertions := insertions + 1;
      CreateNotification(m, true, now);
      id := Some(m);
    }

    /**
      Changing a message's content and saving it: a history row keeps the
      previous content, the message gets the new content and `edited`, and
      the `post_save` handler runs with `created` false, so no notification.
     */
    method EditContent(id: nat, newContent: string, now: int) returns (h: nat)
      requires Valid() && id in messages && newContent != messages[id].content
      modifies this
      ensures Valid()
      ensures h !in old(histories)
      ensures histories == old(histories)[h := MessageHistory(id, old(messages[id].content), now)]
      ensures messages == old(messages)[id := old(messages[id]).(content := newContent, edited := true)]
      ensures users == old(users) && notifications == old(notifications)
      ensures insertions == old(insertions) && deleted == old(deleted)
    {
      h := nextHistory;
      var history := MessageHistory(id, messages[id].content, now);
      var edited := messages[id].(content := newContent, edited := true);
      EditLinked(Snapshot(), nextUser, nextMessage, h, nextNotification, id, edited, history);
      histories := histories[h := history];
      nextHistory := nextHistory + 1;
      messages := messages[id := edited];
      CreateNotification(id, false, now);
    }

    /** `user.delete()`: the tables become the cascade's result. */
    method DeleteUser(u: nat)
      requires Valid()
      modifies this
      ensures Valid()
      ensures Snapshot() == DeleteUserCascade(old(Snapshot()), u)
      ensures deleted
    {
      var next := DeleteUserCascade(Snapshot(), u);
      WithinBounded(next, Snapshot(), nextUser, nextMessage, nextHistory, nextNotification);
      users, messages, histories, notifications := next.users, next.messages, next.histories, next.notifications;
      deleted := true;
      assert Snapshot() == next;
    }

    /** `message.delete()`: the tables become the cascade's result. */
    method DeleteMessage(id: nat)
      requires Valid()
      modifies this
      ensures Valid()
      ensures Snapshot() == DeleteMessageCascade(old(Snapshot()), id)
      ensures deleted
    {
      var next := DeleteMessageCascade(Snapshot(), id);
      WithinBounded(next, Snapshot(), nextUser, nextMessage, nextHistory, nextNotification);
      users, messages, histories, notifications := next.users, next.messages, next.histories, next.notifications;
      deleted := true;
      assert Snapshot() == next;
    }
  }

  /**
    The two test scenarios: a created message has one notification, for its
    receiver and about it; editing the message then leaves a history row
    with the original content and marks the message edited.
   */
  method SignalScenario() returns (receiver: nat, messageId: nat, note: Notification, history: MessageHistory, edited: bool)
    ensures note == Notification(receiver, messageId, 0, false)
    ensures history == MessageHistory(messageId, "Original content", 1)
    ensures edited
  {
    var store := new MessageStore();
    var sender := store.AddUser();
    receiver := store.AddUser();
    var before := store.notifications;
    var id := store.CreateMessage(sender, receiver, "Original content", 0);
    messageId := id.value;
    var n: nat :| n !in before && store.notifications == before[n := Notification(receiver, messageId, 0, false)];
    note := store.notifications[n];
    var h := store.EditContent(messageId, "Updated content", 1);
    history := store.histories[h];
    edited := store.messages[messageId].edited;
  }
}
