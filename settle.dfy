/** What the payment callbacks share: the pair of stored rows a payment
    object is working on, the note line a callback appends, the two
    handlers that close the transaction (accepted or rejected) and move
    the subscription in the queue, and the final save of both rows. */
module Settle {
  import opened Common
  import opened Models
  import opened Notify
  import opened Queue
  import opened Base

  /** The payment object is bound to a saved transaction and to the
      subscription that owns it, and the subscription's event exists. */
  predicate Bound(db: Db, p: PaymentBase)
    reads p
  {
    p.transaction.Some? && p.subscription.Some? &&
    p.transaction.value.id.Some? && p.transaction.value.id.value in db.trans &&
    p.transaction.value.sub.Some? && p.transaction.value.sub == p.subscription.value.id &&
    p.transaction.value.sub.value in db.subs &&
    p.subscription.value.event == db.subs[p.transaction.value.sub.value].event &&
    p.subscription.value.event in db.events
  }

  /** What a well-formed database says about one stored transaction and its owner. */
  lemma StoredTransaction(db: Db, k: int)
    requires db.Valid() && k in db.trans
    ensures db.trans[k].id == Some(k) && db.trans[k].sub.Some? && db.trans[k].sub.value in db.subs
    ensures db.subs[db.trans[k].sub.value].id == db.trans[k].sub && db.subs[db.trans[k].sub.value].event in db.events
  {
    var sid := db.trans[k].sub.value;
    assert sid in db.subs;
  }

  /** Bound, and the subscription is exactly its stored row (nothing about
      it changed since it was read). */
  predicate Loaded(db: Db, p: PaymentBase)
    reads p
  {
    Bound(db, p) && db.subs[p.transaction.value.sub.value] == p.subscription.value
  }

  /** The database once `sid` is added to the queue of event `eid`. */
  function Enqueued(db: Db, eid: int, sid: int): (r: Db)
    ensures r == db.(queues := r.queues) && eid in r.queues
    ensures r.queues[eid] == Appended(QueueOf(db, eid), sid)
    ensures forall k :: k in db.queues && k != eid ==> k in r.queues && r.queues[k] == db.queues[k]
  {
    db.(queues := db.queues[eid := Appended(QueueOf(db, eid), sid)])
  }

  /** The database once `sid` is taken out of the queue of event `eid`. */
  function Dequeued(db: Db, eid: int, sid: int): (r: Db)
    ensures r == db.(queues := r.queues) && eid in r.queues
    ensures r.queues[eid] == RemoveFirst(QueueOf(db, eid), sid)
    ensures forall k :: k in db.queues && k != eid ==> k in r.queues && r.queues[k] == db.queues[k]
  {
    db.(queues := db.queues[eid := RemoveFirst(QueueOf(db, eid), sid)])
  }

  /** Moving one subscription in or out of a queue keeps the database well formed. */
  lemma QueueMovesKeepValid(db: Db, eid: int, sid: int)
    requires db.Valid() && eid in db.events
    ensures Enqueued(db, eid, sid).Valid() && Dequeued(db, eid, sid).Valid()
  {
    assert NoDup(QueueOf(db, eid));
    ListOpsKeepNoDup(QueueOf(db, eid), sid);
    AgentKeepsValid(db, eid, Appended(QueueOf(db, eid), sid));
    AgentKeepsValid(db, eid, RemoveFirst(QueueOf(db, eid), sid));
  }

  /** The line a callback appends to the transaction notes:
      a newline, the bracketed date, the identifier and the status. */
  function NoteLine(date: string, id: string, status: string): (r: string)
    ensures StartsWith(r, "\n[" + date + "] ") && r[|date| + 4..] == id + " " + status
  {
    var head := "\n[" + date + "] ";
    assert (head + id + " " + status)[..|head|] == head;
    head + id + " " + status
  }

  /** The database the accepting handler leaves: the one `end` leaves,
      with the subscription added to its event's queue when its state
      changed. */
  function AcceptDb(db: Db, t: Transaction, now: int): Db
    requires t.id.Some? && t.sub.Some? && t.sub.value in db.subs && db.subs[t.sub.value].event in db.events
  {
    var r := End(db, t, true, now);
    if r.changed then Enqueued(r.db, r.sub.event, t.sub.value) else r.db
  }

  /** The subscription the accepting handler hands back: the one `end`
      leaves, with its index in the queue as position when it was added. */
  function AcceptSub(db: Db, t: Transaction, now: int): Subscription
    requires t.id.Some? && t.sub.Some? && t.sub.value in db.subs && db.subs[t.sub.value].event in db.events
  {
    var r := End(db, t, true, now);
    if r.changed then r.sub.(position := Some(GhostAdd(QueueOf(r.db, r.sub.event), t.sub.value))) else r.sub
  }

  /** The mail the accepting handler sends: the confirmed notice, only
      when `end` reports a change. */
  function AcceptMails(db: Db, t: Transaction, now: int): seq<Message>
    requires t.id.Some? && t.sub.Some? && t.sub.value in db.subs && db.subs[t.sub.value].event in db.events
  {
    var r := End(db, t, true, now);
    if r.changed then [Notified(Notice.Confirmed, AcceptSub(db, t, now), r.db.events[r.sub.event])] else []
  }

  /** The database the rejecting handler leaves: the one `end` leaves,
      with the subscription taken out of its event's queue when it was
      released. */
  function RejectDb(db: Db, t: Transaction, now: int): Db
    requires t.id.Some? && t.sub.Some? && t.sub.value in db.subs && db.subs[t.sub.value].event in db.events
  {
    var r := End(db, t, false, now);
    if r.changed then Dequeued(r.db, r.sub.event, t.sub.value) else r.db
  }

  /** The mail the rejecting handler sends: the payment-denied notice,
      only when `end` reports a change. */
  function RejectMails(db: Db, t: Transaction, now: int): seq<Message>
    requires t.id.Some? && t.sub.Some? && t.sub.value in db.subs && db.subs[t.sub.value].event in db.events
  {
    var r := End(db, t, false, now);
    if r.changed then [Notified(Notice.PayDenied, r.sub, r.db.events[r.sub.event])] else []
  }

  /** Accepting sends its notice exactly when the subscription's state
      rose, and a subscription whose state rose is then in its event's
      queue. */
  lemma AcceptNotifiesOnRise(db: Db, t: Transaction, now: int)
    requires t.id.Some? && t.sub.Some? && t.sub.value in db.subs && db.subs[t.sub.value].event in db.events
    ensures var s0 := db.subs[t.sub.value];
      var s1 := AcceptSub(db, t, now);
      var after := AcceptDb(db, t, now);
      s1.event == s0.event && (AcceptMails(db, t, now) != [] <==> s1.state > s0.state) &&
      (s1.state > s0.state ==> s0.event in after.queues && t.sub.value in after.queues[s0.event])
  {
    var s0 := db.subs[t.sub.value];
    var r := End(db, t, true, now);
    if s0.state < CONFIRMED {
      EndAcceptRaises(db, t, now);
    } else {
      EndLeavesConfirmed(db, t, true, now);
    }
  }

  /** Rejecting sends its notice exactly when `end` released the
      subscription, and a released subscription is in no position of its
      event's queue afterwards. */
  lemma RejectNotifiesOnRelease(db: Db, t: Transaction, now: int)
    requires db.Valid() && t.id.Some? && t.sub.Some? && t.sub.value in db.subs && db.subs[t.sub.value].event in db.events
    ensures var s0 := db.subs[t.sub.value];
      var release := s0.state < PARTIALLY_PAID && !OpenOfMethod(AfterClose(db, t, false, now), t.sub.value, t.payMethod);
      var after := RejectDb(db, t, now);
      (RejectMails(db, t, now) != [] <==> release) &&
      (release ==> s0.event in after.queues && t.sub.value !in after.queues[s0.event])
  {
    var s0 := db.subs[t.sub.value];
    EndRejectReleases(db, t, now);
    var r := End(db, t, false, now);
    if r.changed {
      assert NoDup(QueueOf(r.db, s0.event));
      RemoveFirstIsDrop(QueueOf(r.db, s0.event), t.sub.value);
    }
  }

  /** The `pago`/`approved` handler: close the transaction as accepted;
      only if that changed the subscription's state, add it to the queue
      (its position becomes its index there) and send the confirmed
      notice. */
  method Accept(store: Store, p: PaymentBase, outbox: Outbox, now: int)
    requires store.db.Valid() && Loaded(store.db, p)
    modifies store, p, outbox
    ensures var t := old(p.transaction.value);
      p.transaction == Some(Closed(t, true, now)) &&
      p.subscription == Some(AcceptSub(old(store.db), t, now)) &&
      store.db == AcceptDb(old(store.db), t, now) &&
      outbox.sent == old(outbox.sent) + AcceptMails(old(store.db), t, now)
    ensures store.db.Valid() && Bound(store.db, p)
  {
    var t := p.transaction.value;
    var sid := t.sub.value;
    EndKeepsValid(store.db, t, true, now);
    var closed, s, changed := store.EndTransaction(t, true, now);
    p.transaction := Some(closed);
    p.subscription := Some(s);
    if changed {
      var e := store.db.events[s.event];
      var queue := new QueueAgent(s, e);
      ghost var before := store.db;
      QueueMovesKeepValid(before, s.event, sid);
      var pos := queue.Add(store);
      assert store.db == Enqueued(before, s.event, sid);
      s := s.(position := Some(pos));
      p.subscription := Some(s);
      outbox.Send(Notified(Notice.Confirmed, s, e));
    }
  }

  /** The `devolvido`/`canceled` handler: close the transaction as
      rejected; only if that released the subscription, take it out of
      the queue and send the payment-cancelled notice. */
  method Reject(store: Store, p: PaymentBase, outbox: Outbox, now: int)
    requires store.db.Valid() && Loaded(store.db, p)
    modifies store, p, outbox
    ensures var t := old(p.transaction.value);
      p.transaction == Some(Closed(t, false, now)) &&
      p.subscription == Some(End(old(store.db), t, false, now).sub) &&
      store.db == RejectDb(old(store.db), t, now) &&
      outbox.sent == old(outbox.sent) + RejectMails(old(store.db), t, now)
    ensures store.db.Valid() && Bound(store.db, p)
  {
    var t := p.transaction.value;
    var sid := t.sub.value;
    EndKeepsValid(store.db, t, false, now);
    var closed, s, changed := store.EndTransaction(t, false, now);
    p.transaction := Some(closed);
    p.subscription := Some(s);
    if changed {
      var e := store.db.events[s.event];
      var queue := new QueueAgent(s, e);
      ghost var before := store.db;
      QueueMovesKeepValid(before, s.event, sid);
      queue.Remove(store);
      assert store.db == Dequeued(before, s.event, sid);
      outbox.Send(Notified(Notice.PayDenied, s, e));
    }
  }

  /** The database once both rows of a payment are written back. */
  function BothSaved(db: Db, t: Transaction, s: Subscription): Db
    requires t.id.Some? && t.sub.Some?
  {
    db.(trans := db.trans[t.id.value := t], subs := db.subs[t.sub.value := s])
  }

  /** The `finally` block of the callbacks: both rows are written back,
      whatever the handler did. */
  method SaveBoth(store: Store, p: PaymentBase)
    requires store.db.Valid() && Bound(store.db, p)
    modifies store
    ensures store.db == BothSaved(old(store.db), p.transaction.value, p.subscription.value)
    ensures store.db.Valid() && Loaded(store.db, p)
  {
    var t := store.SaveTransaction(p.transaction.value);
    var s := store.SaveSubscription(p.subscription.value);
  }
}
