/** The PayPal method: the payment is created with the processor, the
    payer comes back with a payment id, and the executed payment's state
    is dispatched through a function dictionary whose fallback only logs.
    The processor's answers are parameters. */
module PayPal {
  import opened Common
  import opened Models
  import opened Notify
  import opened Queue
  import opened Base
  import opened Settle
  import opened Utils

  /** The method code of PayPal transactions. */
  const Code := 3

  /** A link of a created payment. */
  datatype Link = Link(rel: string, href: string)

  /** `_find_href`: the href of the first link with the relation; a
      `KeyError` when no link has it. */
  method FindHref(links: seq<Link>, rel: string) returns (r: Result<string>)
    ensures r.Ok? <==> exists i :: 0 <= i < |links| && links[i].rel == rel
    ensures r.Ok? ==> exists i :: (0 <= i < |links| && links[i].rel == rel && r.value == links[i].href &&
      forall j :: 0 <= j < i ==> links[j].rel != rel)
    ensures r.Err? ==> r.error == KeyError
  {
    var i := 0;
    while i < |links|
      invariant 0 <= i <= |links|
      invariant forall j :: 0 <= j < i ==> links[j].rel != rel
    {
      if links[i].rel == rel {
        return Ok(links[i].href);
      }
      i := i + 1;
    }
    return Err(KeyError);
  }

  /** The handlers of the state dictionary. */
  datatype Handler =
    | Approved  // approved
    | Denied    // canceled, expired, failed
    | Logged    // the fallback: any other state

  /** `state_callback`: a function dictionary built with the logging
      handler as its fallback, then the two registrations. */
  method BuildStateCallback() returns (d: FunctionDictionary<string, Handler>)
    ensures fresh(d) && d.fallback == Some(Logged)
    ensures d.entries == map["approved" := Approved, "canceled" := Denied, "expired" := Denied, "failed" := Denied]
  {
    d := new FunctionDictionary(Some(Logged), map[]);
    var same := d.Register(["approved"], Approved);
    same := same.Register(["canceled", "expired", "failed"], Denied);
  }

  /** The handler a state reaches: every state reaches one. */
  function StateHandler(state: string): (h: Handler)
    ensures h == Approved <==> state == "approved"
    ensures h == Denied <==> state in ["canceled", "expired", "failed"]
  {
    if state == "approved" then Approved
    else if state in ["canceled", "expired", "failed"] then Denied
    else Logged
  }

  /** What the executed payment gives the callback. */
  datatype Executed = Executed(id: string, updateTime: string, state: string)

  /** The transaction once the callback has noted the executed payment. */
  function Noted(t: Transaction, data: Executed): (r: Transaction)
    ensures r == t.(notes := r.notes) && r.notes == t.notes + NoteLine(data.updateTime, data.id, data.state)
  {
    t.(notes := t.notes + NoteLine(data.updateTime, data.id, data.state))
  }

  /** `callback_view`: a note line on the transaction, the state's handler,
      and both rows saved at the end. A state with no handler of its own
      reaches the logging fallback, which changes nothing else. */
  method CallbackView(store: Store, p: PaymentBase, outbox: Outbox, data: Executed, now: int)
    requires store.db.Valid() && Loaded(store.db, p)
    modifies store, p, outbox
    ensures store.db.Valid() && Loaded(store.db, p)
    ensures store.db.trans[p.transaction.value.id.value] == p.transaction.value
    ensures p.transaction.value.notes == old(p.transaction.value.notes) + NoteLine(data.updateTime, data.id, data.state)
    ensures p.transaction.value.remoteId == old(p.transaction.value.remoteId)
    ensures StateHandler(data.state) == Approved ==>
      var t := Noted(old(p.transaction.value), data);
      p.transaction == Some(Closed(t, true, now)) &&
      p.subscription == Some(AcceptSub(old(store.db), t, now)) &&
      store.db == BothSaved(AcceptDb(old(store.db), t, now), p.transaction.value, p.subscription.value) &&
      outbox.sent == old(outbox.sent) + AcceptMails(old(store.db), t, now)
    ensures StateHandler(data.state) == Denied ==>
      var t := Noted(old(p.transaction.value), data);
      p.transaction == Some(Closed(t, false, now)) &&
      p.subscription == Some(End(old(store.db), t, false, now).sub) &&
      store.db == BothSaved(RejectDb(old(store.db), t, now), p.transaction.value, p.subscription.value) &&
      outbox.sent == old(outbox.sent) + RejectMails(old(store.db), t, now)
    ensures StateHandler(data.state) == Logged ==>
      var t := old(p.transaction.value);
      p.transaction == Some(t.(notes := p.transaction.value.notes)) && p.subscription == old(p.subscription) &&
      store.db == old(store.db).(trans := old(store.db.trans)[t.id.value := p.transaction.value]) &&
      outbox.sent == old(outbox.sent)
  {
    p.transaction := Some(Noted(p.transaction.value, data));
    match StateHandler(data.state) {
      case Approved => Accept(store, p, outbox, now);
      case Denied => Reject(store, p, outbox, now);
      case Logged =>
    }
    SaveBoth(store, p);
  }

  /** `class_view`, where the payer comes back: a missing payment id is
      suspicious; the transaction is found by its remote identifier; a
      payment the processor did not execute (`executed` is its answer)
      fails before any handler runs; otherwise the callback runs and the
      payer is sent to `viewUrl`. */
  method ClassView(store: Store, outbox: Outbox, paymentId: string, executed: bool, data: Executed,
                   viewUrl: string, now: int) returns (r: Result<Response>)
    requires store.db.Valid()
    modifies store, outbox
    ensures paymentId == "" ==> r == Err(SuspiciousOperation)
    ensures paymentId != "" && RemoteMatches(old(store.db), Code, paymentId) == {} ==> r == Err(DoesNotExist)
    ensures paymentId != "" && |RemoteMatches(old(store.db), Code, paymentId)| > 1 ==> r == Err(MultipleObjectsReturned)
    ensures paymentId != "" && |RemoteMatches(old(store.db), Code, paymentId)| == 1 && !executed ==> r == Err(ValueError)
    ensures r.Err? ==> store.db == old(store.db) && outbox.sent == old(outbox.sent)
    ensures r.Ok? ==> paymentId != "" && executed && |RemoteMatches(old(store.db), Code, paymentId)| == 1
    ensures r.Ok? ==> r.value == PrgRedirect(viewUrl, viewUrl) && store.db.Valid()
  {
    if paymentId == "" {
      return Err(SuspiciousOperation);
    }
    var p := new PaymentBase(Code);
    var bound := p.Init(Text(paymentId), store.db);
    if bound.Fail? {
      return Err(bound.error);
    }
    if !executed {
      return Err(ValueError);
    }
    var k := LookupOne(RemoteMatches(store.db, Code, paymentId)).id;
    var sid := store.db.trans[k].sub.value;
    assert store.db.trans[k].id == Some(k);
    assert store.db.subs[sid].id == Some(sid) && store.db.subs[sid].event in store.db.events;
    CallbackView(store, p, outbox, data, now);
    return Ok(PrgRedirect(viewUrl, viewUrl));
  }

  /** `start_payment`: the bound transaction (a new one when none is
      bound) takes the amount; when the processor created the payment
      (`created` holds its id) the transaction stores that id, is saved,
      and the payer is redirected to the approval link, else the call
      fails with a `ValueError` and nothing is saved. */
  method StartPayment(store: Store, p: PaymentBase, amount: int, created: Option<string>, links: seq<Link>)
    returns (r: Result<Response>)
    requires store.db.Valid() && p.Coherent() && p.code == Code
    requires p.subscription.Some? && p.subscription.value.id.Some? && p.subscription.value.id.value in store.db.subs
    modifies store, p
    ensures p.transaction.Some? && p.transaction.value.amount == amount && p.subscription == old(p.subscription)
    ensures created.None? ==> r == Err(ValueError) && store.db == old(store.db)
    ensures created.Some? ==>
      var t := p.transaction.value;
      t.remoteId == created.value && t.id.Some? &&
      store.db == old(store.db).(trans := old(store.db.trans)[t.id.value := t]) &&
      (old(p.transaction).Some? ==> t == old(p.transaction.value).(amount := amount, remoteId := created.value, id := t.id)) &&
      (old(p.transaction).None? ==> t == NewTransaction(old(p.subscription.value.id), Code).(amount := amount, remoteId := created.value, id := t.id))
    ensures created.Some? ==> (r.Ok? <==> exists i :: 0 <= i < |links| && links[i].rel == "approval_url")
    ensures created.Some? && r.Ok? ==>
      exists i :: 0 <= i < |links| && links[i].rel == "approval_url" &&
        (forall j :: 0 <= j < i ==> links[j].rel != "approval_url") && r.value == PrgRedirect(links[i].href, links[i].href)
    ensures created.Some? && r.Err? ==> r.error == KeyError
    ensures store.db.Valid()
  {
    var t := p.GetTransaction();
    t := t.(amount := amount);
    p.transaction := Some(t);
    if created.None? {
      return Err(ValueError);
    }
    t := t.(remoteId := created.value);
    ghost var before := store.db;
    t := store.SaveTransaction(t);
    TransUpdateKeepsValid(before, t);
    p.transaction := Some(t);
    var href := FindHref(links, "approval_url");
    if href.Err? {
      return Err(href.error);
    }
    return Ok(PrgRedirect(href.value, href.value));
  }
}
