# esupa, modelled in Dafny

esupa is a Django application that runs the subscriptions of paid events. A
user fills in a subscription for an event; the data is checked against the
event's blacklist; the subscriber then asks to pay and joins the event's
admission queue. Only the first `capacity` entries of that queue may pay,
and each gets a payment deadline. A payment is a transaction handled by one
of three payment methods:

- bank deposit, where the staff verify an uploaded receipt;
- PagSeguro, driven by notifications;
- PayPal, driven by the payer coming back.

Closing a transaction (`Transaction.end`) moves the subscription through the
ranks NEW < ACCEPTABLE < QUEUED_FOR_PAY < EXPECTING_PAY < VERIFYING_PAY <
PARTIALLY_PAID < UNPAID_STAFF < CONFIRMED. Two ranks are negative:
VERIFYING_DATA and DENIED. A periodic `cron` sweeps each queue:

- it drops entries that left and expires overdue payers;
- it promotes waiting entries into free slots;
- it re-appends staff-level subscriptions;
- it rewrites every stored position;
- it sends the collected notices once the sweep is done.

The model has one Dafny module per source file, plus `Common` and `Settle`:

- `Common`: Option, Result, the source's exceptions, and the Python string helpers used.
- `Models` (`esupa/models.py`): the rows, the state ranks, `raise_state`, `waiting`, money, `Event.cron`, `max_born`, `Transaction.end`, and the database as a `Store` object updated in place.
- `Queue` (`esupa/queue.py`): the list operations, `QueueAgent`, the sweep and `cron`.
- `Notify` (`esupa/notify.py`): the mails and the batch notifier; sending is an append to an `Outbox`.
- `Base` (`esupa/payment/base.py`): the payment object's bindings, `static_init` and the method registry.
- `Settle`: what the PagSeguro and PayPal callbacks share (the accept and reject handlers, and the final save).
- `PagSeguro`, `PayPal`, `Deposit` (`esupa/payment/*.py`): one module per payment method.
- `Utils` (`esupa/utils.py`), `Forms` (`esupa/forms.py`), `Views` (`esupa/views.py`).

Money is whole cents and instants are whole seconds. The clock (`now`), the
request, URL reversing, the payment processors' answers and the staff's
e-mail addresses are parameters.

Behaviour kept as the code has it:

- `waiting` reads true only once the deadline has passed (`esupa/models.py:200`). The sweep therefore expires an EXPECTING_PAY subscription whose deadline is still running, and keeps one that is overdue.
- Setting `waiting` to true restarts the deadline whenever the getter reads false, that is, while a deadline is running.
- In `end`, an overpayment still counts as owing (`esupa/models.py:270`), so the subscription goes to PARTIALLY_PAID, not CONFIRMED.
- A second rejection of the same transaction reports a change again, so its callers notify twice.
- The PagSeguro `em_disputa` handler forces EXPECTING_PAY, even on a confirmed subscription.
- In the sweep, a position of 0 is falsy (`esupa/queue.py:153`).
- The sweep calls `event.check_toggles()` (`esupa/queue.py:119`), which no class defines. The model runs the event's toggles, `Event.cron` (`esupa/models.py:144-150`), at the sweep's instant. It counts them as having fired exactly when they changed the event.
- The sweep then calls `notify.toggled(event)` (`esupa/queue.py:121`), but `BatchNotifier` has no such method. The model records the toggled event in the batch, so a rolled-back sweep sends nothing. `send_notifications` sends it before the expiry and can-pay notices.
- Lowercasing (`str.lower` in `esupa/views.py:116` and `esupa/forms.py:122`) is modelled on the capitals of ASCII and Latin-1.
- In `TransactionList.post` the verifier is assigned after `end` has saved the transaction, so it is never stored.
- In `_add_agreement_link` a `]` inside the agreement URL is replaced too.
- The PagSeguro module fails to import: `from . import PaymentBase` (`esupa/payment/pagseguro.py:24`) names nothing the payment package defines, and `load_submodules` catches the `ImportError`. Past that line, `CallbackDictionary` is used before its definition (line 79), a `NameError` that `load_submodules` does not catch; and the class is named `Payment`, not `PaymentMethod`.
- The bank-deposit module imports the notifier by the absolute name `esupa.esupa.notify` (`esupa/payment/deposit.py:24`). That name resolves only when the app is installed as the package `esupa.esupa`. Otherwise the import fails, `load_submodules` catches the `ImportError`, and bank deposit is not registered. The model takes the layout as a parameter.
- `_mail` sends the body pieces joined with no separator (`esupa/notify.py:33`), so the subscriber's lines run together in the sent mail; the model keeps the pieces as a sequence.
- `CallbackDictionary` is used before its definition (`esupa/payment/pagseguro.py:79`). The model takes the evident table: a function dictionary without a fallback.
- The PagSeguro and PayPal views write the transaction's `ended` attribute, which is no column, so it has no effect.

## Model

| member | source | states |
|---|---|---|
| Common.MinOf | esupa/payment/deposit.py:37 | the row `.first()` picks is a member of the set and the least of its ids |
| Common.LookupOne | esupa/views.py:59-67 | `objects.get` finds nothing exactly when no id matches, the one id when it is alone, and fails exactly when more than one matches |
| Common.NatToStringRoundTrip | esupa/views.py:184-185 | the decimal text of a non-negative number reads back as that number |
| Common.ReplaceByNothingFilters | esupa/forms.py:116 | replacing a character by nothing keeps every other character, in order |
| Models.EnumGet | esupa/models.py:44-50 | a rank maps to the label of its row and a label to the rank of its row; nothing is found exactly when no row matches |
| Models.EnumGetRoundTrip | esupa/models.py:44-50 | on a table without repeats, rank to label to rank and label to rank to label give back the start |
| Models.StateChoicesUnique | esupa/models.py:74-97 | no rank and no label of the subscription states occurs twice |
| Models.EnumInit | esupa/models.py:52-58 | the constructor takes the first row holding the value (the first row when none is given); ValueError exactly when no row holds it |
| Models.EnumInitAgreesWithGet | esupa/models.py:44-58 | constructing from a rank and `get` of that rank agree on the label |
| Models.NewTransaction | esupa/models.py:238-250 | a new transaction is unsaved, not accepted, not ended, not filled, for the given subscription and method |
| Models.RaiseState | esupa/models.py:191-196 | the state becomes the target exactly when that is higher, and the answer says whether it moved; nothing else changes |
| Models.RaiseStateMonotone | esupa/models.py:191-196 | raising never lowers the state, reaches at least the target, and a second raise to the same target reports no change |
| Models.SetWaiting | esupa/models.py:202-207 | false clears the deadline; true starts one `payment_wait_hours` from now unless the getter reads true; nothing else changes |
| Models.FreshDeadlineNotWaiting | esupa/models.py:198-207 | a just-started deadline reads as not waiting until it passes, so setting true again restarts it |
| Models.PriceAddOptional | esupa/models.py:209-211 | choosing one more optional raises the price by exactly its price |
| Models.PaidGrowsByAmount | esupa/models.py:213-216 | a transaction that becomes accepted and ended adds exactly its amount to what is paid |
| Models.EventCron | esupa/models.py:144-150 | each open flag flips and its toggle is cleared exactly when the toggle is set and before the present; nothing else changes |
| Models.EventCronIdempotent | esupa/models.py:144-150 | a second run at the same or an earlier instant changes nothing |
| Models.OpeningsPartition | esupa/models.py:125-135 | the openings are the capacity less the confirmed and the pending subscriptions, which never overlap |
| Models.NegativeStatesUncounted | esupa/models.py:125-135 | a subscription with a negative rank counts as neither confirmed nor pending and takes no opening |
| Models.MaxBorn | esupa/models.py:137-142 | with a minimum age, the event date moved back that many years, or ValueError when that date does not exist; otherwise today |
| Models.MaxBornFailsOnlyOnLeapDay | esupa/models.py:137-142 | within the year range, `max_born` fails exactly on 29 February moved to a common year |
| Models.AgeAtEvent | esupa/models.py:226-235 | there is an age exactly when there is a birth date |
| Models.AgeIsBirthdaysReached | esupa/models.py:226-235 | the age is the number of birthdays reached by the event date |
| Models.MaxBornMeansOldEnough | esupa/models.py:137-142 | anyone born on or before `max_born` is at least the minimum age at the event |
| Models.SlugBlacklistValidator | esupa/models.py:28-33 | exactly the slugs `pay`, `doc`, `cron`, `check` are refused, with a message naming all four |
| Models.Closed | esupa/models.py:258-262 | `end` sets the outcome and keeps an existing end instant (else now); it keeps an existing filled instant (else the end instant) |
| Models.End | esupa/models.py:252-286 | `end` stores the closed transaction and changes only the subscription's state, position and deadline |
| Models.EndLeavesConfirmed | esupa/models.py:265-267 | a confirmed subscription is never touched and no change is reported |
| Models.EndAcceptRaises | esupa/models.py:268-273 | acceptance raises the state to PARTIALLY_PAID while anything is owed, else CONFIRMED; it never lowers it and reports a change exactly when it rose |
| Models.EndRejectReleases | esupa/models.py:274-286 | rejection releases the subscription (ACCEPTABLE, no position, no deadline) exactly when it is below PARTIALLY_PAID and no other open transaction of the same method exists; otherwise it is untouched |
| Models.EndLowersOnlyByRelease | esupa/models.py:252-286 | the state goes down only through a released rejection |
| Models.OverpaymentIsPartial | esupa/models.py:270 | accepting a payment that leaves a negative amount owed gives PARTIALLY_PAID |
| Models.EndAcceptPays | esupa/models.py:263-273 | accepting a transaction not counted before lowers what is owed by its amount |
| Models.AcceptRedeliveryIsNoop | esupa/models.py:252-273 | accepting the same transaction again reports no change and leaves the database as it was |
| Models.RejectRedeliveryRepeats | esupa/models.py:274-286 | rejecting again a transaction whose first rejection released the subscription reports a change again |
| Models.EndKeepsValid | esupa/models.py:252-286 | closing a transaction keeps keys, foreign keys, slugs and queues well formed |
| Models.SubUpdateKeepsValid | esupa/models.py:167-186 | writing a subscription under its own id, for an existing event, keeps the database well formed |
| Models.FreshKey | esupa/models.py:238 | a newly saved row gets an id above every id in use |
| Models.Store.SaveSubscription | esupa/models.py:167-186 | `save()` inserts an unsaved subscription under a new id or overwrites its row; nothing else changes |
| Models.Store.SaveTransaction | esupa/models.py:238-250 | `save()` of a transaction, likewise |
| Models.Store.EndTransaction | esupa/models.py:252-286 | the step-by-step `end` leaves exactly the database, transaction, subscription and answer that `End` describes |
| Notify.Outbox.Send | esupa/notify.py:28-39 | sending appends the message, in order |
| Notify.SubscriberMail | esupa/notify.py:75-79 | a subscriber mail goes to the subscriber's address and holds the lines framed by five more |
| Notify.SubscriberMailFraming | esupa/notify.py:75-79 | the framing comes off again: the lines come back unchanged, the greeting names the badge, and the rule is as wide as the event name |
| Notify.NoticeMail | esupa/notify.py:81-105 | each notice (can pay, expired, data denied, confirmed, pay denied) is a one-line mail to the subscriber |
| Notify.StaffMail | esupa/notify.py:48-51 | a staff mail goes to every staff address, with the subject prefixed by the bracketed event name |
| Notify.MustCheckSubscription | esupa/notify.py:53-63 | the check request is a five-line staff mail carrying the subscription's and the event's staff links; it requires the subscription to belong to the event |
| Notify.SalesClosed | esupa/notify.py:65-66 | the sales-closed notice is a one-line staff mail |
| Notify.Batch | esupa/notify.py:115-119 | a batch holds one notice per subscription |
| Notify.BatchAt | esupa/notify.py:115-119 | the i-th message of a batch is the notice for the i-th subscription |
| Notify.BatchAppend | esupa/notify.py:115-119 | one more subscription adds its notice at the end of the batch |
| Notify.BatchNotifier.Expired | esupa/notify.py:108-113 | `expired` appends to the expired list only |
| Notify.BatchNotifier.CanPay | esupa/notify.py:108-113 | `can_pay` appends to the can-pay list only |
| Notify.BatchNotifier.Toggled | esupa/queue.py:121 | recording a toggled event appends to the toggled list only |
| Notify.BatchNotifier.SendNotifications | esupa/notify.py:115-119 | every toggled notice is sent, then every expired notice, then every can-pay notice, each list in the order it was filled |
| Notify.SendBatch | esupa/notify.py:116-119 | the loop sends exactly the batch of one notice, in order |
| Queue.GhostAdd | esupa/queue.py:95-99 | the first index holding the id, or the length when it is absent |
| Queue.RemoveFirstIsDrop | esupa/queue.py:110-114 | on a queue without repeats, removing the first occurrence removes the id altogether and keeps the rest in order |
| Queue.ListOpsKeepNoDup | esupa/queue.py:102-114 | adding and removing never introduce a repeat |
| Queue.AddIsIdempotent | esupa/queue.py:102-107 | adding twice is adding once, and both report the same index |
| Queue.EntryAt | esupa/queue.py:95-114 | an entry after `k` other entries is found at index `k`, and removing it joins what was before it to what was after it |
| Queue.IdList.Add | esupa/queue.py:102-107 | `_add` gives the `_ghost_add` index, appends the id only when absent, and the id then sits at that index |
| Queue.IdList.Remove | esupa/queue.py:110-114 | `_remove` takes out the first occurrence, and does nothing when the id is absent |
| Queue.WithContainer | esupa/queue.py:81-82 | `get_or_create` adds an empty queue only for an event without one; every other queue is kept |
| Queue.QueueAgent.WithinCapacity | esupa/queue.py:62-67 | a cached position is reused; otherwise it is read with `_ghost_add`; the answer is whether it is below the capacity |
| Queue.QueueAgent.Add | esupa/queue.py:69-72 | the queue gets the id appended when absent, and the position is cached and returned |
| Queue.QueueAgent.Remove | esupa/queue.py:74-77 | the cache is cleared and the id's first occurrence taken out of the queue |
| Queue.AgentKeepsValid | esupa/queue.py:85-92 | writing back a queue without repeats keeps the database well formed |
| Queue.KeptRow | esupa/queue.py:142-162 | a surviving entry gets its index as position; a QUEUED_FOR_PAY one within the capacity becomes EXPECTING_PAY with a deadline, a fresh one unless `waiting` reads true; every other keeps its state and deadline; nothing else changes |
| Queue.DroppedRow | esupa/queue.py:135-157 | an EXPECTING_PAY entry whose `waiting` reads false becomes ACCEPTABLE with no deadline and no position; any other keeps its state, and loses position and deadline only when either is truthy; an entry that does not stay ends below QUEUED_FOR_PAY and not waiting |
| Queue.Survivors | esupa/queue.py:129-162 | an entry survives exactly when its row exists, is QUEUED_FOR_PAY or above and is not expired; survivors keep the queue's order |
| Queue.SurvivorsByState | esupa/queue.py:135-162 | queued entries (within the capacity or not), paid, partially paid, staff and confirmed entries, and EXPECTING_PAY entries whose `waiting` reads true, survive; expired entries and entries below QUEUED_FOR_PAY do not |
| Queue.ExpiredRows | esupa/queue.py:135-140 | the expiry notices of a walk, one per expired entry in queue order, each ACCEPTABLE with no deadline and no position |
| Queue.PromotedRows | esupa/queue.py:142-147 | the can-pay notices of a walk, one per promoted entry in queue order, each EXPECTING_PAY at a position below the capacity |
| Queue.NoticeRowsKnown | esupa/queue.py:140-147 | every notice of a walk is about a subscription of a known event |
| Queue.VisitAt | esupa/queue.py:129-162 | the body of the walk's loop keeps the walk's trace: survivors so far, their kept rows, the dropped rows and the notices so far; it fails only when the queue blocks the walk |
| Queue.WalkLoop | esupa/queue.py:129-162 | the whole loop leaves the trace of the entire queue, or fails when it blocks the walk |
| Queue.Visit | esupa/queue.py:129-162 | one entry of the walk, branch by branch: a vanished row is dropped and changes nothing; the walk fails exactly on a PARTIALLY_PAID row while partial payment is closed, changing nothing; otherwise the entry stays exactly when `Stays` holds (QUEUED_FOR_PAY or above, and not an EXPECTING_PAY row whose `waiting` reads false), and its row becomes `KeptRow` or `DroppedRow`; exactly one expiry notice for an expired row and one can-pay notice for a promoted one |
| Queue.WalkStep | esupa/queue.py:128-162 | each visit keeps the walk's invariant: the live list is the kept entries then the unvisited ones, without repeats, and every kept entry is placed |
| Queue.Walk | esupa/queue.py:126-162 | the walk fails exactly when some entry of the old queue blocks it; otherwise the kept entries are exactly `Survivors` of the old queue, in order, each with its `KeptRow` at its index; every other old entry has its `DroppedRow`; rows outside the queue are untouched; the notices are exactly `ExpiredRows` and `PromotedRows` |
| Queue.Gather | esupa/queue.py:163-169 | a subscription of the event outside the queue is appended when staff-level, and otherwise loses its position |
| Queue.GatherStep | esupa/queue.py:163-169 | each subscription met keeps the second loop's invariant |
| Queue.AppendStaff | esupa/queue.py:163-169 | the second loop extends the kept entries with staff-level subscriptions only; afterwards every subscription of the event outside the queue is below staff level and has no position |
| Queue.SweepKeepsValid | esupa/queue.py:117-172 | a sweep changes only states, deadlines, positions, toggles and one queue, so the database stays well formed |
| Queue.Resettle | esupa/queue.py:122-172 | fails exactly when the old queue blocks the walk, leaving every queue as it was; otherwise the queue ends settled (no repeats, every entry placed at its index, staff and old entries only) and swept as the code does it: the survivors first, in order, with their kept rows, the dropped entries out of the queue with their dropped rows; the notices are exactly those of the walk |
| Queue.UpdateAllSubscriptions | esupa/queue.py:117-172 | the toggles are `Event.cron` at the sweep's instant, with a toggled notice recorded when they changed the event; an event without a queue is otherwise untouched; the only failure is NotImplementedError, exactly when the old queue blocks the walk; on success the queue is settled and swept as the code does it, the notices are exactly those of the walk, and the database stays well formed |
| Queue.SweepEvent | esupa/queue.py:178-182 | one event's sweep in its own transaction: it fails exactly when the queue blocks the walk, and then the database is rolled back and nothing is sent; a success applies the toggles, settles and sweeps the queue and sends exactly `SweepMails`: the toggled notice, the expiry notices, then the can-pay notices |
| Queue.Cron | esupa/queue.py:175-182 | only events not started yet are swept: every other event is left as it was; the database stays well formed |
| Queue.CronStep | esupa/queue.py:176-182 | an event that has not started is swept; any other is left as it was |
| Base.Owner | esupa/models.py:239 | a transaction's subscription is the row its key points at, when that row exists |
| Base.RemoteMatches | esupa/payment/base.py:55-56 | the transactions with this method and remote identifier |
| Base.PaymentBase.GetTransaction | esupa/payment/base.py:63-67 | a new transaction for the bound subscription and this method is bound when none is; the bound one is returned |
| Base.PaymentBase.SetTransaction | esupa/payment/base.py:69-78 | binds a row or the row under a key (DoesNotExist for a missing key or owner), or unbinds; a bound transaction binds its owner |
| Base.PaymentBase.SetSubscription | esupa/payment/base.py:84-98 | a falsy value unbinds both; an unsaved transaction moves to the new subscription; a saved one gives ValueError exactly then, with the transaction kept |
| Base.PaymentBase.Init | esupa/payment/base.py:47-58 | dispatch on what the object is handed; a remote identifier must match exactly one transaction of this method; anything else is a ValueError |
| Base.Missing | esupa/payment/base.py:39-40 | the configuration keys not set, in their declared order |
| Base.MissingAppend | esupa/payment/base.py:39-40 | the missing keys of two key lists are those of the first followed by those of the second |
| Base.StaticInit | esupa/payment/base.py:37-42 | `static_init` passes exactly when every key is configured, and otherwise fails carrying the missing keys |
| Base.RegisteredSound | esupa/payment/base.py:138-142 | every registered method comes from a module that loads, under its own code |
| Base.RegisteredComplete | esupa/payment/base.py:138-142 | every module that loads is registered under its code |
| Base.DiscoveredMethods | esupa/payment/base.py:128-152 | bank deposit is registered exactly when its absolute import of `esupa.esupa.notify` resolves, PayPal exactly when its key is configured, and nothing else (the PagSeguro module fails to import) |
| Base.Registry.Load | esupa/payment/base.py:128-152 | nothing happens once something is registered; otherwise the registry holds exactly the modules that load, and both maps agree |
| Base.Registry.GetPayment | esupa/payment/base.py:118-120 | the registered class with the code, or KeyError exactly when there is none |
| Base.Registry.GetPaymentNames | esupa/payment/base.py:123-125 | the titles of the registered methods, by code |
| Settle.Enqueued | esupa/queue.py:69-72 | the database once the id is added to the event's queue; every other queue is kept |
| Settle.Dequeued | esupa/queue.py:74-77 | the database once the id is removed from the event's queue; every other queue is kept |
| Settle.QueueMovesKeepValid | esupa/queue.py:69-77 | moving one subscription in or out of a queue keeps the database well formed |
| Settle.AcceptNotifiesOnRise | esupa/payment/pagseguro.py:91-97 | accepting sends the confirmed notice exactly when the state rose, and a subscription whose state rose is in its event's queue |
| Settle.RejectNotifiesOnRelease | esupa/payment/pagseguro.py:110-116 | rejecting sends the cancelled notice exactly when `end` released the subscription, and a released subscription is no longer in its event's queue |
| Settle.NoteLine | esupa/payment/pagseguro.py:69 | the note line is a newline, the bracketed date, then the identifier and the status |
| Settle.Accept | esupa/payment/pagseguro.py:91-97 | the transaction is closed as accepted; the database, the subscription and the mails are `AcceptDb`, `AcceptSub` and `AcceptMails`: only when `end` reports a change does the subscription join the queue (its index as position) and get the confirmed notice |
| Settle.Reject | esupa/payment/pagseguro.py:110-116 | the transaction is closed as rejected; the subscription is the one `end` leaves; the database and the mails are `RejectDb` and `RejectMails`: only when `end` reports a change is it taken out of the queue and sent the cancelled notice |
| Settle.SaveBoth | esupa/payment/pagseguro.py:74-77 | both rows are written back whatever the handler did |
| Utils.FunctionDictionary.Register | esupa/utils.py:33-52 | every key now maps to the function; every other entry is kept; the dictionary itself is answered |
| Utils.FunctionDictionary.Get | esupa/utils.py:54-55 | the stored function; for a missing key the explicit default, else the fallback |
| Utils.Named | esupa/utils.py:58-65 | the same function, now carrying the name |
| Utils.PrgRedirect | esupa/utils.py:68-76 | a 303 redirect, to the destination itself when it starts with "http", else to the reversed path |
| PagSeguro.BuildStatusCallback | esupa/payment/pagseguro.py:79-126 | the table maps exactly the seven statuses to their four handlers, with no fallback |
| PagSeguro.AwaitPayHandler | esupa/payment/pagseguro.py:81-89 | the state rises to EXPECTING_PAY (never lowered), the subscription joins the queue at its index, and its deadline restarts from now |
| PagSeguro.DisputedHandler | esupa/payment/pagseguro.py:99-107 | the transaction is marked not accepted, the state forced to EXPECTING_PAY, the deadline set as the `waiting` setter does; the queue is untouched |
| PagSeguro.RunHandler | esupa/payment/pagseguro.py:73 | the handler the status table gives runs on the payment as it stands: each of the four handlers' effects on the transaction, the subscription, the queue and the mails |
| PagSeguro.CallbackView | esupa/payment/pagseguro.py:66-77 | the notification's code becomes the remote identifier and a note line is appended; an unknown status is a KeyError after that; both rows are saved in every case; each handler's branch in full: waiting payment raises, queues and restarts the deadline; paid and refunded are the accept and reject handlers on the noted transaction (database, subscription and mails through `end`); disputed marks the transaction not accepted and forces EXPECTING_PAY with the `waiting` setter's deadline |
| PayPal.FindHref | esupa/payment/paypal.py:29-33 | the href of the first link with the relation, or KeyError exactly when none has it |
| PayPal.BuildStateCallback | esupa/payment/paypal.py:92-107 | `approved` and the three failure states are registered over the logging fallback |
| PayPal.StateHandler | esupa/payment/paypal.py:86 | `approved` reaches the approved handler, and exactly `canceled`, `expired` and `failed` reach the denied one |
| PayPal.CallbackView | esupa/payment/paypal.py:80-90 | a note line is appended; approved and denied are the accept and reject handlers on the noted transaction (database, subscription and mails through `end`); any other state changes nothing else; both rows are saved |
| PayPal.ClassView | esupa/payment/paypal.py:65-78 | a missing payment id is suspicious; the id must match exactly one PayPal transaction; a payment not executed is a ValueError; nothing changes on any failure; otherwise the payer is redirected to the view page |
| PayPal.StartPayment | esupa/payment/paypal.py:46-63 | the transaction takes the amount; when the processor created the payment its id is stored and the transaction saved, else ValueError with nothing saved; the payer is redirected to the href of the first `approval_url` link; with none the call fails with KeyError |
| Deposit.Unfilled | esupa/payment/deposit.py:37 | the subscription's deposit transactions not filled yet |
| Deposit.StartPayment | esupa/payment/deposit.py:36-47 | the lowest-id unfilled deposit transaction is reused, else a new one is made; it takes the amount and is saved |
| Deposit.Filled | esupa/payment/deposit.py:70-73 | a filled transaction differs from the old one only in its mimetype (the upload's, or the default when none is declared), its document (the upload's bytes), its filled instant and its amount |
| Deposit.PutFile | esupa/payment/deposit.py:68-76 | the transaction takes the mimetype (a default when none is declared), the bytes, now as filled instant and the amount; the subscription rises to VERIFYING_PAY, never lowered; both are saved |
| Deposit.ClassView | esupa/payment/deposit.py:49-66 | no user or no `tid` is refused; the transaction must exist and belong to the user; an upload for a queued subscription is refused; an unparsable amount fails; otherwise the store changes only in that transaction (filled with the upload's bytes and mimetype, the instant and the amount) and its subscription (at least VERIFYING_PAY), and the staff are told; without an upload the deposit page is shown and no subscription changes |
| Forms.Apply | esupa/forms.py:87-89 | the form writes the subscriber's fields and can never write event, user, state, deadline or position |
| Forms.ApplyIdempotent | esupa/forms.py:87-89 | saving the same data twice is saving it once |
| Forms.CleanBorn | esupa/forms.py:100-108 | a birth date after `max_born` is refused with `too_young`; any other comes back unchanged |
| Forms.AcceptedBirthIsOldEnough | esupa/forms.py:100-108 | a birth date the form accepts belongs to someone at least the minimum age at the event |
| Forms.AgreementLink | esupa/forms.py:110-117 | without a URL both brackets are deleted; with one no `]` is left, and a `[` remains only from inside the URL |
| Forms.LinkedBetween | esupa/forms.py:110-117 | with a URL free of brackets, a text with one bracketed part links exactly that part |
| Forms.AgreedLabelLinked | esupa/forms.py:85 | the agreement label links exactly the words "terms and conditions" |
| Forms.AgeWarning | esupa/forms.py:119-126 | the age sentence appears exactly when there is a minimum age; the format hint always follows, with every `%` taken out |
| Forms.CentsText | esupa/forms.py:39 | a price shows as its units, a point and exactly two digits |
| Forms.CentsReadBack | esupa/forms.py:39 | the digits before and after the point read back as the price |
| Forms.Label | esupa/forms.py:36-41 | the label starts with the optional's name and an opening parenthesis |
| Forms.LabelShowsPrice | esupa/forms.py:36-41 | a free optional is marked free, and a priced one shows a number that reads back as its price |
| Views.EventsWithSlug | esupa/views.py:60 | the events with this slug |
| Views.SubsOf | esupa/views.py:63-65 | the user's subscriptions to the event |
| Views.FreshSubscription | esupa/views.py:67 | a new subscription is unsaved, NEW, for the event and user, with nothing chosen |
| Views.GetSubscription | esupa/views.py:57-70 | Http404 exactly for an unknown slug; the user's stored subscription or a fresh one; PermissionDenied exactly for a denied one |
| Views.Queued | esupa/views.py:88-92 | the pay step's subscription: its queue index as position, and a deadline and EXPECTING_PAY within capacity, else no deadline and QUEUED_FOR_PAY, never lowered |
| Views.JoinQueue | esupa/views.py:88-92 | the subscription joins the queue and is saved as `Queued` says; the answer is whether its index is within capacity |
| Views.PayStep | esupa/views.py:87-99 | beyond capacity the view page is shown; within it the chosen method starts the payment for the posted amount, or for what is owed when it does not parse; an unknown method is a KeyError after the save |
| Views.View | esupa/views.py:75-102 | an unsaved subscription goes to the edit page; without `pay_with` the page is shown unchanged; with it the subscription is queued and saved |
| Views.Lines | esupa/views.py:116 | the pieces hold no line break |
| Views.LinesOccur | esupa/views.py:116 | every piece occurs in the text |
| Views.LowerNonEmpty | esupa/views.py:116 | only non-empty pieces are kept, each lowercased |
| Views.LowerNonEmptyKeeps | esupa/views.py:116 | every non-empty piece is kept, lowercased |
| Views.BlacklistFromText | esupa/views.py:116 | every blacklisted term is a non-empty, lowercased stretch of the text without a line break |
| Views.FlaggedLine | esupa/views.py:115-118 | a blacklist line that occurs, ignoring case, in a checked column makes the data unacceptable |
| Views.EditedState | esupa/views.py:118-126 | unacceptable data goes to VERIFYING_DATA; the state goes down otherwise only from CONFIRMED to PARTIALLY_PAID while money is owed; nothing owed with something paid confirms; nothing paid gives at least ACCEPTABLE |
| Views.EditedStateSettles | esupa/views.py:118-126 | editing again with the same data and money moves the state no further |
| Views.Edited | esupa/views.py:112-127 | the saved subscription is the form's data over it, with the state `EditedState` gives against the blacklist and what is owed |
| Views.OwingIgnoresState | esupa/models.py:209-220 | what is owed does not depend on the state or the subscriber's fields |
| Views.SaveEdit | esupa/views.py:112-128 | the edit is saved once, with the new state, and the saved notice (with the old state) is sent |
| Views.Edit | esupa/views.py:107-135 | the subscription as `_get_subscription` gives it; a missing `max_born` is a ValueError; a form not posted, invalid or too young is shown again with nothing changed; otherwise the edit is saved and the user redirected |
| Views.Availability | esupa/views.py:181-182 | both figures are at least zero, and the one counting pending subscriptions is at most the other |
| Views.CurrentlyIsOpenings | esupa/views.py:181-182 | the figure counting pending subscriptions is the event's openings, or zero |
| Views.RevealReadsBack | esupa/views.py:183-185 | with a threshold, a figure above it shows as the threshold and "+", any other as its own digits |
| Views.JsonStateOf | esupa/views.py:175-188 | an unknown slug is answered as such; otherwise the event's id, its open flags and both figures revealed against its threshold |
| Views.Decide | esupa/views.py:280-284 | the transaction must be one of the subscription's (else DoesNotExist); it is ended accepted exactly on "yes"; the verifier is not stored |
| Views.ManualRow | esupa/views.py:288-297 | a manual entry is an unsaved deposit with the amount, the attachment (default mimetype), filled at the given instant, recorded by the staff member |
| Views.Manual | esupa/views.py:286-300 | an invalid form shows the list again; an entry for a missing subscription fails with nothing stored; otherwise a new row is stored and ended accepted |

## Left out

- Locks, database transactions and concurrency: each operation is one sequential step. A failed sweep restores the database as it was before that event's sweep.
- The mail thread in `_mail` and the mail transport: sending appends a message to an `Outbox`.
- JSON encoding of the queue container, and the ORM beyond reading and writing rows in maps.
- The PagSeguro and PayPal SDK calls: their answers are parameters. PagSeguro's `start_payment`, `class_view` and `__init__` are not modelled: they call the SDK, and `__init__` calls `PaymentBase.__init__` without `self`.
- Request parsing, template rendering, URL reversing and `build_absolute_uri`: URLs are parameters and pages are template names.
- `redirect_to_view_or_edit`, `transaction_document`, `cron_view`, `paying`, `json_state`'s CORS header, and the list views other than `TransactionList.post`: web plumbing with no decision of their own.
- `current_subscription_stats`, `str_state`, `str_method`, `__str__`, `my_pay_url` and `my_view_url`: display only; the URLs are parameters.
- `PartialPayForm`, `ManualTransactionForm` and `DepositForm`: only their verdicts enter, as `Option` values.
- The form's extra columns (shirt size, blood type, health plan, contact, medication): they are written like the others and decide nothing.
- Module discovery in `load_submodules`: replaced by the list of what importing each module gives.
- Decimal parsing: an amount that does not parse is `None`.
- Date formatting: the formatted event date and the input format are parameters.
- `Notifier.saved`, `notify_staff` and the batch's `toggled`: the source calls them but never defines them, so they are abstract messages.
- `Subscription.paid_any` and `Event.partial_payment_open`: also never defined; they are a parameter and an event field.
- In `edit`, the preset of the e-mail from the user's account is not modelled: it needs the user row.
- In `TransactionList.post`, the `action` value arrives already split into id and decision.
- Manual entries: `created_at` is `auto_now`, so only `filled_at` keeps the entry's instant.
- Views.View: for the pay branch its contract states the saved row, the queue and whether an answer is produced, not the answer's contents; Views.PayStep states those.
- Views.LowerNonEmpty: lowercases only the capitals of ASCII and Latin-1; `str.lower` also lowers capitals of other scripts (Greek, Cyrillic and more), and turns some into two characters. Unicode's case table is not modelled.
- Views.LowerNonEmptyKeeps: the same limit of lowercasing.
- Views.EditedState: the same limit of lowercasing, through the blacklist.
- Views.Edited: the same limit of lowercasing, through the blacklist.
- Forms.AgeWarning: the same limit of lowercasing, on the formatted event date.
- Views.Lines: differs from `str.splitlines` by empty pieces (after a final break, or inside "\r\n"), which the blacklist drops anyway.
- Queue.Cron: states what it leaves unchanged and that the database stays well formed, not each swept event's outcome; Queue.SweepEvent states that.
- Deposit.ClassView: for the page without an upload it does not say which transaction is reused; Deposit.StartPayment does.
- Views.Manual: an entry for a missing subscription is taken to be refused by the store before anything is written; the code saves the row first (esupa/models.py:262-263) and fails only when it reaches for the subscription, so without foreign-key enforcement the row would remain.
- PayPal.ClassView: does not restate the callback's effects; PayPal.CallbackView states them.
