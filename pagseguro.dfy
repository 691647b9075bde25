/** The PagSeguro method: a notification carries a transaction status, and
    a table of handlers, filled by registering each handler under its
    statuses, decides what happens to the transaction, the subscription
    and the queue. */
module PagSeguro {
  import opened Common
  import opened Models
  import opened Notify
  import opened Queue
  import opened Base
  import opened Settle
  import opened Utils

  /** The method code of PagSeguro transactions. */
  const Code := 2

  /** The four handlers of the status table. */
  datatype Handler =
    | AwaitPay  // aguardando, em_analise
    | Paid      // pago, disponivel
    | Disputed  // em_disputa
    | Refunded  // devolvido, cancelado

  /** The status table as the registrations leave it. */
  const StatusTable: map<string, Handler> := map[
    "aguardando" := AwaitPay, "em_analise" := AwaitPay,
    "pago" := Paid, "disponivel" := Paid,
    "em_disputa" := Disputed,
    "devolvido" := Refunded, "cancelado" := Refunded]

  /** `status_callback`: an empty callback dictionary, then one
      registration per handler; a status registered nowhere has no entry. */
  method BuildStatusCallback() returns (d: FunctionDictionary<string, Handler>)
    ensures fresh(d) && d.entries == StatusTable && d.fallback.None?
  {
    d := new FunctionDictionary(None, map[]);
    var same := d.Register(["aguardando", "em_analise"], AwaitPay);
    same := same.Register(["pago", "disponivel"], Paid);
    same := same.Register(["em_disputa"], Disputed);
    same := same.Register(["devolvido", "cancelado"], Refunded);
  }

  /** What a notification gives the callback. */
  datatype Notification = Notification(code: string, lastEventDate: string, status: string)

  /** The handler of `aguardando`/`em_analise`: the subscription is raised
      to EXPECTING_PAY (never lowered), added to the queue with its index
      as position, and its deadline restarted from now. */
  method AwaitPayHandler(store: Store, p: PaymentBase, now: int)
    requires store.db.Valid() && Loaded(store.db, p)
    modifies store, p
    ensures var s := old(p.subscription.value);
      var sid := s.id.value;
      var hours := old(store.db).events[s.event].paymentWaitHours;
      store.db == Enqueued(old(store.db), s.event, sid) && p.transaction == old(p.transaction) &&
      p.subscription == Some(s.(state := Max(s.state, EXPECTING_PAY),
                                position := Some(GhostAdd(QueueOf(old(store.db), s.event), sid)),
                                waitUntil := Some(now + hours * 3600)))
    ensures store.db.Valid() && Bound(store.db, p)
  {
    var s := p.subscription.value;
    var e := store.db.events[s.event];
    var queue := new QueueAgent(s, e);
    var raised := RaiseState(s, EXPECTING_PAY);
    s := raised.0;
    QueueMovesKeepValid(store.db, s.event, queue.sid);
    ghost var before := store.db;
    var pos := queue.Add(store);
    assert store.db == Enqueued(before, s.event, queue.sid);
    s := s.(position := Some(pos));
    s := SetWaiting(s, false, e.paymentWaitHours, now);
    s := SetWaiting(s, true, e.paymentWaitHours, now);
    p.subscription := Some(s);
  }

  /** The handler of `em_disputa`: the transaction is marked not accepted
      (it stays ended), the state is forced to EXPECTING_PAY (so a
      confirmed subscription goes down) and the deadline is set as the
      `waiting` setter does; the queue is untouched. */
  method DisputedHandler(store: Store, p: PaymentBase, now: int)
    requires Bound(store.db, p)
    modifies p
    ensures Bound(store.db, p)
    ensures var t := old(p.transaction.value);
      p.transaction == Some(t.(accepted := false)) && p.transaction.value.endedAt == t.endedAt
    ensures var s := old(p.subscription.value);
      var r := p.subscription.value;
      var hours := store.db.events[s.event].paymentWaitHours;
      r == s.(state := EXPECTING_PAY, waitUntil := r.waitUntil) &&
      (Waiting(s, now) ==> r.waitUntil == s.waitUntil) &&
      (!Waiting(s, now) ==> r.waitUntil == Some(now + hours * 3600))
  {
    var t := p.transaction.value;
    p.transaction := Some(t.(accepted := false));
    var s := p.subscription.value;
    var e := store.db.events[s.event];
    s := s.(state := EXPECTING_PAY);
    s := SetWaiting(s, true, e.paymentWaitHours, now);
    p.subscription := Some(s);
  }

  /** The call through the status table: the handler runs on the payment
      as it stands. */
  method RunHandler(store: Store, p: PaymentBase, outbox: Outbox, h: Handler, now: int)
    requires store.db.Valid() && Loaded(store.db, p)
    modifies store, p, outbox
    ensures store.db.Valid() && Bound(store.db, p)
    ensures h == AwaitPay ==>
      var s := old(p.subscription.value);
      var sid := s.id.value;
      var hours := old(store.db).events[s.event].paymentWaitHours;
      p.transaction == old(p.transaction) &&
      p.subscription == Some(s.(state := Max(s.state, EXPECTING_PAY),
                                position := Some(GhostAdd(QueueOf(old(store.db), s.event), sid)),
                                waitUntil := Some(now + hours * 3600))) &&
      store.db == Enqueued(old(store.db), s.event, sid) && outbox.sent == old(outbox.sent)
    ensures h == Paid ==>
      var t := old(p.transaction.value);
      p.transaction == Some(Closed(t, true, now)) && p.subscription == Some(AcceptSub(old(store.db), t, now)) &&
      store.db == AcceptDb(old(store.db), t, now) && outbox.sent == old(outbox.sent) + AcceptMails(old(store.db), t, now)
    ensures h == Disputed ==>
      var s := old(p.subscription.value);
      var hours := old(store.db).events[s.event].paymentWaitHours;
      p.transaction == Some(old(p.transaction.value).(accepted := false)) &&
      p.subscription == Some(SetWaiting(s.(state := EXPECTING_PAY), true, hours, now)) &&
      store.db == old(store.db) && outbox.sent == old(outbox.sent)
    ensures h == Refunded ==>
      var t := old(p.transaction.value);
      p.transaction == Some(Closed(t, false, now)) && p.subscription == Some(End(old(store.db), t, false, now).sub) &&
      store.db == RejectDb(old(store.db), t, now) && outbox.sent == old(outbox.sent) + RejectMails(old(store.db), t, now)
  {
    match h {
      case AwaitPay => AwaitPayHandler(store, p, now);
      case Paid => Accept(store, p, outbox, now);
      case Disputed => DisputedHandler(store, p, now);
      case Refunded => Reject(store, p, outbox, now);
    }
  }

  /** Whether the callback finds a handler: the status must be known to
      the library's status names, and its name must be in the table. */
  predicate Dispatches(data: Notification, statusNames: map<string, string>)
  {
    data.status in statusNames && statusNames[data.status] in StatusTable
  }

  /** The transaction once the callback has noted the notification: the
      code as remote identifier, and a note line. */
  function Noted(t: Transaction, data: Notification): (r: Transaction)
    ensures r == t.(remoteId := r.remoteId, notes := r.notes) && r.remoteId == data.code
    ensures r.notes == t.notes + NoteLine(data.lastEventDate, data.code, data.status)
  {
    t.(remoteId := data.code, notes := t.notes + NoteLine(data.lastEventDate, data.code, data.status))
  }

  /** `callback_view`: the transaction takes the notification's code as
      its remote identifier and a note line; the status is translated by
      the library's `statusNames` and dispatched; whatever happens, both
      rows are saved at the end. */
  method CallbackView(store: Store, p: PaymentBase, outbox: Outbox, data: Notification,
                      statusNames: map<string, string>, now: int) returns (r: Outcome)
    requires store.db.Valid() && Loaded(store.db, p)
    modifies store, p, outbox
    ensures r.Pass? <==> Dispatches(data, statusNames)
    ensures r.Fail? ==> r.error == KeyError
    ensures p.transaction.Some? && p.transaction.value.remoteId == data.code
    ensures p.transaction.value.notes == old(p.transaction.value.notes) + NoteLine(data.lastEventDate, data.code, data.status)
    ensures store.db.Valid() && Loaded(store.db, p)
    ensures store.db.trans[p.transaction.value.id.value] == p.transaction.value
    ensures r.Fail? ==>
      var t := old(p.transaction.value);
      store.db == old(store.db).(trans := old(store.db.trans)[t.id.value := p.transaction.value]) &&
      p.transaction.value == t.(remoteId := data.code, notes := p.transaction.value.notes) &&
      p.subscription == old(p.subscription) && outbox.sent == old(outbox.sent)
    ensures r.Pass? && StatusTable[statusNames[data.status]] == AwaitPay ==>
      var s := old(p.subscription.value);
      var sid := s.id.value;
      var hours := old(store.db).events[s.event].paymentWaitHours;
      p.transaction == Some(Noted(old(p.transaction.value), data)) &&
      p.subscription == Some(s.(state := Max(s.state, EXPECTING_PAY),
                                position := Some(GhostAdd(QueueOf(old(store.db), s.event), sid)),
                                waitUntil := Some(now + hours * 3600))) &&
      store.db == BothSaved(Enqueued(old(store.db), s.event, sid), p.transaction.value, p.subscription.value) &&
      outbox.sent == old(outbox.sent)
    ensures r.Pass? && StatusTable[statusNames[data.status]] == Paid ==>
      var t := Noted(old(p.transaction.value), data);
      p.transaction == Some(Closed(t, true, now)) &&
      p.subscription == Some(AcceptSub(old(store.db), t, now)) &&
      store.db == BothSaved(AcceptDb(old(store.db), t, now), p.transaction.value, p.subscription.value) &&
      outbox.sent == old(outbox.sent) + AcceptMails(old(store.db), t, now)
    ensures r.Pass? && StatusTable[statusNames[data.status]] == Disputed ==>
      var s := old(p.subscription.value);
      var hours := old(store.db).events[s.event].paymentWaitHours;
      p.transaction == Some(Noted(old(p.transaction.value), data).(accepted := false)) &&
      p.subscription == Some(SetWaiting(s.(state := EXPECTING_PAY), true, hours, now)) &&
      store.db == BothSaved(old(store.db), p.transaction.value, p.subscription.value) &&
      outbox.sent == old(outbox.sent)
    ensures r.Pass? && StatusTable[statusNames[data.status]] == Refunded ==>
      var t := Noted(old(p.transaction.value), data);
      p.transaction == Some(Closed(t, false, now)) &&
      p.subscription == Some(End(old(store.db), t, false, now).sub) &&
      store.db == BothSaved(RejectDb(old(store.db), t, now), p.transaction.value, p.subscription.value) &&
      outbox.sent == old(outbox.sent) + RejectMails(old(store.db), t, now)
  {
    p.transaction := Some(Noted(p.transaction.value, data));
    if !Dispatches(data, statusNames) {
      r := Fail(KeyError);
    } else {
      r := Pass;
      RunHandler(store, p, outbox, StatusTable[statusNames[data.status]], now);
    }
    SaveBoth(store, p);
  }
}
