/** The bank-deposit method: the subscriber is shown a deposit
    transaction to pay into (an unfilled one is reused), then uploads a
    receipt, which fills the transaction and puts the subscription up for
    verification by the staff. */
module Deposit {
  import opened Common
  import opened Models
  import opened Notify
  import opened Base
  import opened Settle
  import opened Utils

  /** The method code of deposit transactions. */
  const Code := 1

  /** The mimetype stored when an upload declares none. */
  const DefaultMimetype := "application/octet-stream"

  /** The text of the staff notice sent after an upload. */
  const UploadedText := "Uploaded a new deposit file."

  /** An uploaded receipt: its declared content type and its bytes. */
  datatype Upload = Upload(contentType: string, content: seq<bv8>)

  /** The deposit transactions of a subscription that are not filled yet. */
  function Unfilled(db: Db, sid: int): (r: set<int>)
    ensures forall k :: k in r <==> (k in db.trans && db.trans[k].sub == Some(sid) &&
      db.trans[k].payMethod == Code && db.trans[k].filledAt.None?)
  {
    set k | k in db.trans && db.trans[k].sub == Some(sid) && db.trans[k].payMethod == Code && db.trans[k].filledAt.None?
  }

  /** `start_payment`: the first (lowest id) unfilled deposit transaction of
      the subscription is bound and reused; only when there is none is a
      new one made. It takes the amount and is saved. */
  method StartPayment(store: Store, p: PaymentBase, amount: int) returns (t: Transaction)
    requires store.db.Valid() && p.code == Code
    requires p.subscription.Some? && p.subscription.value.id.Some? && p.subscription.value.id.value in store.db.subs
    modifies store, p
    ensures t.id.Some? && p.transaction == Some(t) && t.amount == amount
    ensures var sid := old(p.subscription.value.id.value);
      var open := Unfilled(old(store.db), sid);
      (open != {} ==> t == old(store.db).trans[MinOf(open)].(amount := amount)) &&
      (open == {} ==> t == NewTransaction(Some(sid), Code).(amount := amount, id := t.id) && t.id.value !in old(store.db.trans))
    ensures store.db == old(store.db).(trans := old(store.db.trans)[t.id.value := t])
    ensures store.db.Valid()
  {
    var sid := p.subscription.value.id.value;
    var open := Unfilled(store.db, sid);
    var bound: Outcome;
    if open != {} {
      var k := MinOf(open);
      assert store.db.trans[k].id == Some(k) && store.db.trans[k].sub == Some(sid);
      bound := p.SetTransaction(TxnRow(store.db.trans[k]), store.db);
      assert store.db.subs[sid].id == Some(sid);
    } else {
      bound := p.SetTransaction(NoTxn, store.db);
    }
    t := p.GetTransaction();
    t := t.(amount := amount);
    ghost var before := store.db;
    t := store.SaveTransaction(t);
    TransUpdateKeepsValid(before, t);
    p.transaction := Some(t);
  }

  /** The transaction once an upload filled it: the upload's mimetype (the
      default when none is declared), its bytes, `now` as filled instant and
      the amount; every other field as it was. */
  function Filled(t: Transaction, upload: Upload, amount: int, now: int): (r: Transaction)
    ensures r == t.(mimetype := r.mimetype, document := Some(upload.content), filledAt := Some(now), amount := amount)
    ensures r.mimetype == if upload.contentType != "" then upload.contentType else DefaultMimetype
  {
    t.(mimetype := if upload.contentType != "" then upload.contentType else DefaultMimetype,
       document := Some(upload.content), filledAt := Some(now), amount := amount)
  }

  /** `put_file`: the transaction takes the upload's mimetype (the default
      when none is declared), its bytes, `now` as filled instant and the
      amount, and is saved; the subscription is then raised to
      VERIFYING_PAY, never lowered, and saved. */
  method PutFile(store: Store, p: PaymentBase, upload: Upload, amount: int, now: int)
    requires store.db.Valid() && Loaded(store.db, p)
    modifies store, p
    ensures store.db.Valid() && Loaded(store.db, p)
    ensures var t := old(p.transaction.value);
      var s := old(p.subscription.value);
      var t' := p.transaction.value;
      var s' := p.subscription.value;
      t' == Filled(t, upload, amount, now) &&
      s' == s.(state := Max(s.state, VERIFYING_PAY)) &&
      store.db == old(store.db).(trans := old(store.db.trans)[t.id.value := t'], subs := old(store.db.subs)[s.id.value := s'])
  {
    var t := p.transaction.value;
    t := t.(mimetype := if upload.contentType != "" then upload.contentType else DefaultMimetype);
    t := t.(document := Some(upload.content));
    t := t.(filledAt := Some(now));
    t := t.(amount := amount);
    ghost var before := store.db;
    t := store.SaveTransaction(t);
    TransUpdateKeepsValid(before, t);
    p.transaction := Some(t);
    var raised := RaiseState(p.subscription.value, VERIFYING_PAY);
    var s := store.SaveSubscription(raised.0);
    p.subscription := Some(s);
  }

  /** What `class_view` does, in order of its checks: no user or no `tid`
      is refused; the transaction must exist and belong to the user; with
      an upload, a subscription still queued for payment is refused, an
      amount that is no decimal number fails, and otherwise the file is
      put and the staff told; without one, the deposit page is shown
      again for the stored amount. `amount` is `None` when the posted
      amount does not parse. `user` is `None` only when the request
      carries no user object at all: Django's anonymous user is truthy,
      so an anonymous visitor passes the first check and is refused at
      the ownership check; here it is a `Some` that no subscription
      holds. */
  method ClassView(store: Store, outbox: Outbox, user: Option<int>, tid: Option<int>, upload: Option<Upload>,
                   amount: Option<int>, viewUrl: string, now: int) returns (r: Result<Response>)
    requires store.db.Valid()
    modifies store, outbox
    ensures user.None? || tid.None? ==> r == Err(PermissionDenied)
    ensures user.Some? && tid.Some? && tid.value !in old(store.db.trans) ==> r == Err(DoesNotExist)
    ensures r.Err? ==> store.db == old(store.db) && outbox.sent == old(outbox.sent)
    ensures r.Ok? ==> user.Some? && tid.Some? && tid.value in old(store.db.trans)
    ensures old(store.db.trans).Keys <= store.db.trans.Keys && old(store.db.subs).Keys <= store.db.subs.Keys
    ensures (user.Some? && tid.Some? && tid.value in old(store.db.trans) &&
      old(store.db.trans[tid.value]).sub.Some? && old(store.db.trans[tid.value]).sub.value in old(store.db.subs)) ==>
      var t := old(store.db.trans[tid.value]);
      var s := old(store.db.subs[t.sub.value]);
      (s.user != user ==> r == Err(SuspiciousOperation)) &&
      (s.user == user && upload.Some? && s.state == QUEUED_FOR_PAY ==> r == Err(PermissionDenied)) &&
      (s.user == user && upload.Some? && s.state != QUEUED_FOR_PAY && amount.None? ==> r == Err(InvalidOperation)) &&
      (s.user == user && upload.Some? && s.state != QUEUED_FOR_PAY && amount.Some? ==>
        r == Ok(PrgRedirect(viewUrl, viewUrl)) &&
        store.db == old(store.db).(trans := old(store.db.trans)[tid.value := Filled(t, upload.value, amount.value, now)],
                                   subs := old(store.db.subs)[t.sub.value := s.(state := Max(s.state, VERIFYING_PAY))]) &&
        outbox.sent == old(outbox.sent) + [StaffNotice(t.sub.value, UploadedText)]) &&
      (s.user == user && upload.None? ==>
        r == Ok(Rendered("esupa/deposit.html")) && outbox.sent == old(outbox.sent) &&
        store.db == old(store.db).(trans := store.db.trans))
    ensures store.db.Valid()
  {
    if user.None? || tid.None? {
      return Err(PermissionDenied);
    }
    if tid.value !in store.db.trans {
      return Err(DoesNotExist);
    }
    StoredTransaction(store.db, tid.value);
    var t := store.db.trans[tid.value];
    var sid := t.sub.value;
    var s := store.db.subs[sid];
    if s.user != user {
      return Err(SuspiciousOperation);
    }
    if upload.Some? {
      if s.state == QUEUED_FOR_PAY {
        return Err(PermissionDenied);
      }
      if amount.None? {
        return Err(InvalidOperation);
      }
      var p := new PaymentBase(Code);
      var bound := p.Init(ATransaction(t), store.db);
      PutFile(store, p, upload.value, amount.value, now);
      outbox.Send(StaffNotice(sid, UploadedText));
      return Ok(PrgRedirect(viewUrl, viewUrl));
    } else {
      var p := new PaymentBase(Code);
      var bound := p.Init(ATransaction(t), store.db);
      var started := StartPayment(store, p, t.amount);
      return Ok(Rendered("esupa/deposit.html"));
    }
  }
}
