/** Small helpers with no business logic of their own: a dictionary filled
    by decorating functions, a decorator that names a function, and the
    post-redirect-get answer. */
module Utils {
  import opened Common

  /** A dictionary whose values are functions, with a fallback function
      that `get` gives for a key it does not hold. A function value is
      always truthy; a missing fallback is `None`. */
  class FunctionDictionary<K(==), V(==)> {
    var entries: map<K, V>
    const fallback: Option<V>

    /** `FunctionDictionary(default_function, **kwargs)`. */
    constructor (fallback: Option<V>, initial: map<K, V>)
      ensures this.fallback == fallback && entries == initial
    {
      this.fallback := fallback;
      entries := initial;
    }

    /** `register(*keys)(func)`: every key now maps to `func`, overwriting
        what it held; every other entry is kept. Answers the dictionary
        itself. */
    method Register(keys: seq<K>, func: V) returns (self: FunctionDictionary<K, V>)
      modifies this
      ensures self == this
      ensures entries == Updated(old(entries), keys, func)
      ensures forall k :: k in entries <==> k in old(entries) || k in keys
      ensures forall k :: k in keys ==> entries[k] == func
      ensures forall k :: k in old(entries) && k !in keys ==> entries[k] == old(entries)[k]
    {
      var i := 0;
      while i < |keys|
        invariant 0 <= i <= |keys|
        invariant entries == Updated(old(entries), keys[..i], func)
      {
        entries := entries[keys[i] := func];
        assert keys[..i + 1][..i] == keys[..i];
        i := i + 1;
      }
      assert keys[..i] == keys;
      UpdatedHolds(old(entries), keys, func);
      self := this;
    }

    /** `get(key, default)`: the stored function; for a missing key the
        explicit default when one is given, else the fallback. */
    function Get(key: K, default: Option<V>): (r: Option<V>)
      reads this
      ensures key in entries ==> r == Some(entries[key])
      ensures key !in entries && default.Some? ==> r == default
      ensures key !in entries && default.None? ==> r == fallback
    {
      if key in entries then Some(entries[key])
      else if default.Some? then default
      else fallback
    }
  }

  /** A function object that can carry a `name` attribute. */
  class Func {
    var name: Option<string>

    constructor ()
      ensures name.None?
    {
      name := None;
    }
  }

  /** `named(name)(func)`: sets the name and answers the same function. */
  method Named(name: string, func: Func) returns (r: Func)
    modifies func
    ensures r == func && func.name == Some(name)
  {
    func.name := Some(name);
    r := func;
  }

  /** An HTTP answer of the views: a redirect with its status code, a
      rendered page, or the blank page. */
  datatype Response = Redirect(status: int, location: string) | Rendered(template: string) | Blank

  /** The status code of `HttpResponseSeeOther`. */
  const SeeOther := 303

  /** `prg_redirect`: a "see other" redirect to the destination itself when
      it starts with "http", otherwise to the path that reversing it gives;
      `reversed` is that path (URL reversing is not part of this model). */
  function PrgRedirect(destination: string, reversed: string): (r: Response)
    ensures r.Redirect? && r.status == 303
    ensures StartsWith(destination, "http") ==> r.location == destination
    ensures !StartsWith(destination, "http") ==> r.location == reversed
  {
    Redirect(SeeOther, if StartsWith(destination, "http") then destination else reversed)
  }

  /** The map once each key, in order, is set to `v`. */
  function Updated<K, V>(m: map<K, V>, keys: seq<K>, v: V): map<K, V>
  {
    if keys == [] then m else Updated(m, keys[..|keys| - 1], v)[keys[|keys| - 1] := v]
  }

  /** After the updates, the keys are the old ones and the new ones; each
      new key holds `v` and every other key its old value. */
  lemma {:induction false} UpdatedHolds<K, V>(m: map<K, V>, keys: seq<K>, v: V)
    ensures forall k :: k in Updated(m, keys, v) <==> k in m || k in keys
    ensures forall k :: k in keys ==> Updated(m, keys, v)[k] == v
    ensures forall k :: k in m && k !in keys ==> Updated(m, keys, v)[k] == m[k]
  {
    if keys != [] {
      var n := |keys| - 1;
      UpdatedHolds(m, keys[..n], v);
      assert keys == keys[..n] + [keys[n]];
    }
  }
}
