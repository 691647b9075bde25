/** The payment-method base: an object that binds one subscription and one
    transaction, each payment module's configuration check, and the
    registry of payment modules filled once by `load_submodules`. Module
    discovery is replaced by the list of what each module turned out to be. */
module Base {
  import opened Common
  import opened Models

  /** What `PaymentBase.__init__` is handed. `Falsy` is any value that reads
      false (None, 0); `Text` is a string, taken as a remote identifier
      unless it is empty (an empty string reads false too); `Else` is any
      other truthy value. */
  datatype Binding = Falsy | ASubscription(s: Subscription) | ATransaction(t: Transaction) | Text(remote: string) | Else

  /** What the `subscription` setter is handed: a row, a truthy key, or a falsy value. */
  datatype SubValue = SubRow(s: Subscription) | SubKey(key: int) | NoSub

  /** What the `transaction` setter is handed. */
  datatype TxnValue = TxnRow(t: Transaction) | TxnKey(key: int) | NoTxn

  function SubIdOf(s: Option<Subscription>): Option<int>
  {
    if s.Some? then s.value.id else None
  }

  /** `t.subscription`: the row its foreign key points at, when there is one. */
  function Owner(db: Db, t: Transaction): (r: Option<Subscription>)
    ensures r.Some? <==> t.sub.Some? && t.sub.value in db.subs
    ensures r.Some? ==> r.value == db.subs[t.sub.value]
  {
    if t.sub.Some? && t.sub.value in db.subs then Some(db.subs[t.sub.value]) else None
  }

  /** The transactions of one method carrying one remote identifier. */
  function RemoteMatches(db: Db, code: int, remote: string): (r: set<int>)
    ensures forall k :: k in r <==> k in db.trans && db.trans[k].payMethod == code && db.trans[k].remoteId == remote
  {
    set k | k in db.trans && db.trans[k].payMethod == code && db.trans[k].remoteId == remote
  }

  /** A payment-method object: its method code and the subscription and
      transaction it is bound to. */
  class PaymentBase {
    const code: int
    var subscription: Option<Subscription>
    var transaction: Option<Transaction>

    /** The bound transaction belongs to the bound subscription. */
    predicate Coherent()
      reads this
    {
      transaction.Some? ==> transaction.value.sub == SubIdOf(subscription)
    }

    constructor (code: int)
      ensures this.code == code && subscription.None? && transaction.None?
    {
      this.code := code;
      subscription := None;
      transaction := None;
    }

    /** The `transaction` getter: binds a new unsaved transaction of this
        method for the bound subscription when none is bound, and returns
        the bound one. */
    method GetTransaction() returns (t: Transaction)
      modifies this
      ensures old(transaction).Some? ==> t == old(transaction).value
      ensures old(transaction).None? ==> t == NewTransaction(SubIdOf(subscription), code)
      ensures transaction == Some(t) && subscription == old(subscription)
      ensures old(Coherent()) ==> Coherent()
    {
      if transaction.None? {
        transaction := Some(NewTransaction(SubIdOf(subscription), code));
      }
      t := transaction.value;
    }

    /** The `transaction` setter: binds a row or the row under a key, or
        unbinds; a bound transaction also binds its owner as the subscription. */
    method SetTransaction(value: TxnValue, db: Db) returns (r: Outcome)
      modifies this
      ensures value.TxnKey? && value.key !in db.trans ==>
        r == Fail(DoesNotExist) && transaction == old(transaction) && subscription == old(subscription)
      ensures value.NoTxn? ==> r.Pass? && transaction.None? && subscription == old(subscription)
      ensures value.TxnRow? ==> transaction == Some(value.t)
      ensures value.TxnKey? && value.key in db.trans ==> transaction == Some(db.trans[value.key])
      ensures (value.TxnRow? || (value.TxnKey? && value.key in db.trans)) ==>
        (r.Pass? <==> Owner(db, transaction.value).Some?) &&
        (r.Pass? ==> subscription == Owner(db, transaction.value)) &&
        (r.Fail? ==> r.error == DoesNotExist && subscription == old(subscription))
      ensures r.Pass? && db.Valid() ==> Coherent()
    {
      match value {
        case TxnRow(t) =>
          transaction := Some(t);
        case TxnKey(k) =>
          if k !in db.trans {
            return Fail(DoesNotExist);
          }
          transaction := Some(db.trans[k]);
        case NoTxn =>
          transaction := None;
      }
      if transaction.Some? {
        var owner := Owner(db, transaction.value);
        if owner.None? {
          return Fail(DoesNotExist);
        }
        subscription := owner;
        if db.Valid() {
          var k := transaction.value.sub.value;
          assert db.subs[k].id == Some(k);
        }
      }
      return Pass;
    }

    /** The `subscription` setter. A falsy value unbinds both. Otherwise the
        subscription is bound first; then an unsaved bound transaction is
        handed to it, while a saved one makes the setter fail, leaving the
        new subscription bound beside the old transaction. */
    method SetSubscription(value: SubValue, db: Db) returns (r: Outcome)
      modifies this
      ensures value.NoSub? ==> r.Pass? && subscription.None? && transaction.None?
      ensures value.SubKey? && value.key !in db.subs ==>
        r == Fail(DoesNotExist) && subscription == old(subscription) && transaction == old(transaction)
      ensures value.SubRow? ==> subscription == Some(value.s)
      ensures value.SubKey? && value.key in db.subs ==> subscription == Some(db.subs[value.key])
      ensures !value.NoSub? && old(transaction).None? ==> r.Pass? == (value.SubRow? || value.key in db.subs) && transaction.None?
      ensures !value.NoSub? && old(transaction).Some? && old(transaction).value.id.None? && r.Pass? ==>
        transaction == Some(old(transaction).value.(sub := subscription.value.id))
      ensures r == Fail(ValueError) <==>
        !value.NoSub? && (value.SubKey? ==> value.key in db.subs) && old(transaction).Some? && old(transaction).value.id.Some?
      ensures r == Fail(ValueError) ==> transaction == old(transaction)
      ensures r.Pass? ==> Coherent()
    {
      match value {
        case SubRow(s) =>
          subscription := Some(s);
        case SubKey(k) =>
          if k !in db.subs {
            return Fail(DoesNotExist);
          }
          subscription := Some(db.subs[k]);
        case NoSub =>
          subscription := None;
          transaction := None;
      }
      if subscription.Some? && transaction.Some? {
        if transaction.value.id.None? {
          transaction := Some(transaction.value.(sub := subscription.value.id));
        } else {
          return Fail(ValueError);
        }
      }
      return Pass;
    }

    /** `__init__`: dispatch on what the object is handed, on an object that
        has nothing bound yet. A remote identifier is looked up among this
        method's transactions. */
    method Init(arg: Binding, db: Db) returns (r: Outcome)
      requires subscription.None? && transaction.None?
      modifies this
      ensures arg.Falsy? || arg == Text("") ==> r.Pass? && subscription.None? && transaction.None?
      ensures arg.ASubscription? ==> r.Pass? && subscription == Some(arg.s) && transaction.None?
      ensures arg.ATransaction? ==> (transaction == Some(arg.t) &&
        (r.Pass? <==> Owner(db, arg.t).Some?) && (r.Pass? ==> subscription == Owner(db, arg.t)))
      ensures arg.Text? && arg.remote != "" ==>
        (RemoteMatches(db, code, arg.remote) == {} ==> r == Fail(DoesNotExist)) &&
        (r == Fail(MultipleObjectsReturned) <==> |RemoteMatches(db, code, arg.remote)| > 1)
      ensures arg.Text? && arg.remote != "" && LookupOne(RemoteMatches(db, code, arg.remote)).Unique? ==>
        transaction == Some(db.trans[LookupOne(RemoteMatches(db, code, arg.remote)).id]) &&
        (db.Valid() ==> r.Pass? && subscription == Owner(db, transaction.value))
      ensures arg.Else? ==> r == Fail(ValueError) && subscription.None? && transaction.None?
      ensures r.Pass? && db.Valid() ==> Coherent()
    {
      match arg
      case Falsy =>
        r := Pass;
      case ASubscription(s) =>
        r := SetSubscription(SubRow(s), db);
      case ATransaction(t) =>
        r := SetTransaction(TxnRow(t), db);
      case Text(remote) =>
        if remote == "" {
          return Pass;
        }
        match LookupOne(RemoteMatches(db, code, remote)) {
          case Absent =>
            r := Fail(DoesNotExist);
          case Several =>
            r := Fail(MultipleObjectsReturned);
          case Unique(k) =>
            r := SetTransaction(TxnRow(db.trans[k]), db);
        }
      case Else =>
        r := Fail(ValueError);
    }
  }

  // ---------------------------------------------------------------- configuration

  /** The configuration keys that are not set, in their declared order. */
  function Missing(keys: seq<string>, configured: set<string>): (r: seq<string>)
    ensures forall x :: x in r <==> x in keys && x !in configured
    ensures |r| <= |keys|
  {
    if keys == [] then []
    else (if keys[0] in configured then [] else [keys[0]]) + Missing(keys[1..], configured)
  }

  /** Order is kept: the missing keys of two lists of keys, one after the
      other, are those of the first followed by those of the second. */
  lemma {:induction false} MissingAppend(a: seq<string>, b: seq<string>, configured: set<string>)
    ensures Missing(a + b, configured) == Missing(a, configured) + Missing(b, configured)
  {
    if a == [] {
      assert a + b == b;
    } else {
      assert (a + b)[0] == a[0];
      assert (a + b)[1..] == a[1..] + b;
      MissingAppend(a[1..], b, configured);
    }
  }

  /** `static_init`: fails carrying exactly the missing keys, in order. */
  function StaticInit(keys: seq<string>, configured: set<string>): (r: Outcome)
    ensures r.Pass? <==> forall k :: k in keys ==> k in configured
    ensures r.Fail? ==> r.error == NoConfiguration(Missing(keys, configured)) && |r.error.keys| > 0
  {
    var missing := Missing(keys, configured);
    if missing != [] then
      assert missing[0] in missing;
      Fail(NoConfiguration(missing))
    else
      assert forall k :: k in keys ==> k in configured by {
        forall k | k in keys ensures k in configured {
        }
      }
      Pass
  }

  // ---------------------------------------------------------------- the registry

  /** A payment class: its code, title and configuration keys. */
  datatype PaymentClass = PaymentClass(code: int, title: string, keys: seq<string>)

  /** What importing one payment module gave: a `PaymentMethod` class, or
      nothing usable (no such class, or the import failed). */
  datatype Module = Skipped | Defines(cls: PaymentClass)

  /** The bank-deposit method of esupa/payment/deposit.py. */
  const Deposit := PaymentClass(1, "Bank Transfer", [])
  /** The PayPal method of esupa/payment/paypal.py. */
  const PayPal := PaymentClass(3, "PayPal", ["PAYPAL"])

  /** The modules in discovery order: `base`, `deposit`, `pagseguro` and
      `paypal`. `base` defines no `PaymentMethod` class. `pagseguro` fails
      to import: `from . import PaymentBase` names nothing the package
      defines, and the `ImportError` is caught. `deposit` imports the
      notifier by the absolute name `esupa.esupa.notify`, which resolves
      only when the app is installed as the package `esupa.esupa`
      (`nested`); otherwise its `ImportError` is caught and it is skipped. */
  function Discovered(nested: bool): (r: seq<Module>)
    ensures |r| == 4 && r[0] == Skipped && r[2] == Skipped && r[3] == Defines(PayPal)
    ensures r[1] == if nested then Defines(Deposit) else Skipped
  {
    [Skipped, if nested then Defines(Deposit) else Skipped, Skipped, Defines(PayPal)]
  }

  /** Whether a module gets registered: it defines a class whose keys are all configured. */
  predicate Loads(m: Module, configured: set<string>)
  {
    m.Defines? && StaticInit(m.cls.keys, configured).Pass?
  }

  /** The methods registered after the modules, in order, were tried. */
  function Registered(mods: seq<Module>, configured: set<string>): map<int, PaymentClass>
  {
    if mods == [] then map[]
    else
      var before := Registered(mods[..|mods| - 1], configured);
      var m := mods[|mods| - 1];
      if Loads(m, configured) then before[m.cls.code := m.cls] else before
  }

  /** Everything registered comes from a module that loads, under its own code. */
  lemma {:induction false} RegisteredSound(mods: seq<Module>, configured: set<string>, c: int)
    requires c in Registered(mods, configured)
    ensures Registered(mods, configured)[c].code == c
    ensures exists i :: 0 <= i < |mods| && Loads(mods[i], configured) && mods[i].cls == Registered(mods, configured)[c]
  {
    var m := mods[|mods| - 1];
    if Loads(m, configured) && m.cls.code == c {
      assert mods[|mods| - 1] == m;
    } else {
      RegisteredSound(mods[..|mods| - 1], configured, c);
      var i :| 0 <= i < |mods| - 1 && Loads(mods[..|mods| - 1][i], configured) &&
        mods[..|mods| - 1][i].cls == Registered(mods[..|mods| - 1], configured)[c];
      assert mods[i] == mods[..|mods| - 1][i];
    }
  }

  /** Every module that loads is registered under its code. */
  lemma {:induction false} RegisteredComplete(mods: seq<Module>, configured: set<string>, i: int)
    requires 0 <= i < |mods| && Loads(mods[i], configured)
    ensures mods[i].cls.code in Registered(mods, configured)
  {
    if i < |mods| - 1 {
      assert mods[..|mods| - 1][i] == mods[i];
      RegisteredComplete(mods[..|mods| - 1], configured, i);
    }
  }

  /** The discovered modules: bank deposit exactly when its absolute
      import resolves, PayPal exactly when its key is configured, and
      nothing else. */
  lemma DiscoveredMethods(configured: set<string>, nested: bool)
    ensures 1 in Registered(Discovered(nested), configured) <==> nested
    ensures nested ==> Registered(Discovered(nested), configured)[1] == Deposit
    ensures 3 in Registered(Discovered(nested), configured) <==> "PAYPAL" in configured
    ensures forall c :: c in Registered(Discovered(nested), configured) ==> c == 1 || c == 3
  {
    var d := Discovered(nested);
    var dep := d[1];
    var before := if nested then map[1 := Deposit] else map[];
    assert d[..3] == [Skipped, dep, Skipped];
    assert d[..3][..2] == [Skipped, dep];
    assert d[..3][..2][..1] == [Skipped];
    assert d[..3][..2][..1][..0] == [];
    assert Registered([Skipped], configured) == map[];
    assert StaticInit(Deposit.keys, configured).Pass?;
    assert Registered([Skipped, dep], configured) == before;
    assert Registered(d[..3], configured) == before;
    if "PAYPAL" in configured {
      assert StaticInit(PayPal.keys, configured).Pass?;
      assert Registered(d, configured) == before[3 := PayPal];
    } else {
      assert "PAYPAL" in PayPal.keys;
      assert Registered(d, configured) == before;
    }
  }

  /** The module-level registry: the classes by code and their titles by code. */
  class Registry {
    var methods: map<int, PaymentClass>
    var names: map<int, string>

    /** Both maps have the same codes, and each title is its class's. */
    predicate Agrees()
      reads this
    {
      methods.Keys == names.Keys && forall c :: c in methods ==> names[c] == methods[c].title && methods[c].code == c
    }

    constructor ()
      ensures methods == map[] && names == map[] && Agrees()
    {
      methods := map[];
      names := map[];
    }

    /** `load_submodules`: nothing happens once a method is registered;
        otherwise every module is tried in order and each that loads is
        put in both maps under its code. */
    method Load(mods: seq<Module>, configured: set<string>)
      requires Agrees()
      modifies this
      ensures old(methods) != map[] ==> methods == old(methods) && names == old(names)
      ensures old(methods) == map[] ==> methods == Registered(mods, configured)
      ensures Agrees()
    {
      if methods != map[] {
        return;
      }
      var i := 0;
      while i < |mods|
        invariant 0 <= i <= |mods|
        invariant methods == Registered(mods[..i], configured) && Agrees()
      {
        var m := mods[i];
        if m.Defines? {
          var ok := StaticInit(m.cls.keys, configured);
          if ok.Pass? {
            methods := methods[m.cls.code := m.cls];
            names := names[m.cls.code := m.cls.title];
          }
        }
        assert mods[..i + 1][..i] == mods[..i];
        i := i + 1;
      }
      assert mods[..i] == mods;
    }

    /** `get_payment`: loads, then looks the code up. */
    method GetPayment(code: int, mods: seq<Module>, configured: set<string>) returns (r: Result<PaymentClass>)
      requires Agrees()
      modifies this
      ensures Agrees() && (old(methods) != map[] ==> methods == old(methods))
      ensures r.Ok? <==> code in methods
      ensures r.Ok? ==> r.value == methods[code] && r.value.code == code
      ensures r.Err? ==> r.error == KeyError
    {
      Load(mods, configured);
      if code in methods {
        return Ok(methods[code]);
      }
      return Err(KeyError);
    }

    /** `get_payment_names`: loads, then gives the titles by code. */
    method GetPaymentNames(mods: seq<Module>, configured: set<string>) returns (r: map<int, string>)
      requires Agrees()
      modifies this
      ensures Agrees() && r == names && r.Keys == methods.Keys
      ensures forall c :: c in r ==> r[c] == methods[c].title
    {
      Load(mods, configured);
      r := names;
    }
  }
}
