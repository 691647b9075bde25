/** Shared vocabulary of the model: optional values, the exceptions the
    source raises, duplicate-free id lists, and the handful of Python string
    operations the core relies on (`str()` of an integer, `str.replace`,
    `str.lower`, `in` on strings, `str.join`, `str.startswith`). */
module Common {

  datatype Option<+T> = None | Some(value: T)

  /** The exceptions raised by the modelled code, one constructor per kind. */
  datatype Error =
    | PermissionDenied
    | SuspiciousOperation
    | ValueError
    | KeyError
    | DoesNotExist
    | MultipleObjectsReturned
    | Http404
    | NotImplemented
    | InvalidOperation
    | ValidationError(code: string, message: string)
    | NoConfiguration(keys: seq<string>)

  datatype Result<+T> = Ok(value: T) | Err(error: Error)

  datatype Outcome = Pass | Fail(error: Error)

  /** No identifier occurs twice. */
  predicate NoDup(s: seq<int>)
  {
    forall i, j :: 0 <= i < j < |s| ==> s[i] != s[j]
  }

  // ---------------------------------------------------------------- sets of ids

  /** A finite set of ids has a least element. */
  lemma {:induction false} HasMinimum(s: set<int>)
    requires s != {}
    ensures exists m :: m in s && forall x :: x in s ==> m <= x
    decreases |s|
  {
    assert exists x :: x in s by {
      if forall x :: x !in s {
        assert false;
      }
    }
    var y :| y in s;
    if s == {y} {
      assert forall x :: x in s ==> y <= x;
    } else {
      var rest := s - {y};
      HasMinimum(rest);
      var m :| m in rest && forall x :: x in rest ==> m <= x;
      var least := if y < m then y else m;
      forall x | x in s
        ensures least <= x
      {
        if x != y {
          assert x in rest;
        }
      }
      assert least in s;
    }
  }

  /** The smallest id of a non-empty set: what `.first()` picks on an
      unordered query, whose rows come back by primary key. */
  function MinOf(s: set<int>): (m: int)
    requires s != {}
    ensures m in s && forall x :: x in s ==> m <= x
  {
    HasMinimum(s);
    var m :| m in s && forall x :: x in s ==> m <= x;
    m
  }

  /** What `objects.get(...)` finds among the ids matching its filter. */
  datatype Lookup = Absent | Unique(id: int) | Several

  function LookupOne(ids: set<int>): (r: Lookup)
    ensures r == Absent <==> ids == {}
    ensures r.Unique? ==> ids == {r.id}
    ensures r == Several <==> |ids| > 1
  {
    if ids == {} then Absent
    else
      var m := MinOf(ids);
      if ids == {m} then Unique(m)
      else
        assert |ids| == |ids - {m}| + 1;
        Several
  }

  // ---------------------------------------------------------------- decimal text

  function DigitChar(d: nat): char
    requires d < 10
  {
    "0123456789"[d]
  }

  predicate IsDigit(c: char)
  {
    '0' <= c <= '9'
  }

  function DigitValue(c: char): nat
    requires IsDigit(c)
  {
    (c - '0') as nat
  }

  /** Value of a string of decimal digits, most significant first. */
  function DigitsValue(s: string): nat
    requires forall i :: 0 <= i < |s| ==> IsDigit(s[i])
  {
    if s == [] then 0 else DigitsValue(s[..|s| - 1]) * 10 + DigitValue(s[|s| - 1])
  }

  /** `str(n)` for a non-negative integer. */
  function NatToString(n: nat): (r: string)
    ensures |r| >= 1
    ensures forall i :: 0 <= i < |r| ==> IsDigit(r[i])
    ensures n >= 10 ==> r[0] != '0'
  {
    if n < 10 then [DigitChar(n)] else NatToString(n / 10) + [DigitChar(n % 10)]
  }

  /** The decimal rendering reads back as the number it renders. */
  lemma {:induction false} NatToStringRoundTrip(n: nat)
    ensures DigitsValue(NatToString(n)) == n
  {
    var r := NatToString(n);
    if n >= 10 {
      NatToStringRoundTrip(n / 10);
      assert r[..|r| - 1] == NatToString(n / 10);
    }
  }

  /** `str(n)` (or `%d`) for any integer. */
  function IntToString(n: int): (r: string)
    ensures n >= 0 ==> r == NatToString(n)
    ensures n < 0 ==> r == "-" + NatToString(-n)
  {
    if n < 0 then "-" + NatToString(-n) else NatToString(n)
  }

  // ---------------------------------------------------------------- string operations

  /** `s.replace(c, with)` for a one-character pattern. */
  function ReplaceAll(s: string, c: char, with: string): (r: string)
    ensures c !in with ==> c !in r
    ensures forall x :: x in r && x !in with ==> x in s && x != c
  {
    if s == [] then []
    else (if s[0] == c then with else [s[0]]) + ReplaceAll(s[1..], c, with)
  }

  /** `s.replace(c, '')`: every other character kept, in order. */
  lemma {:induction false} ReplaceByNothingFilters(s: string, c: char)
    ensures ReplaceAll(s, c, "") == Without(s, c)
  {
    if s != [] {
      ReplaceByNothingFilters(s[1..], c);
    }
  }

  /** The characters of `s` other than `c`, in order. */
  function Without(s: string, c: char): (r: string)
    ensures |r| <= |s| && c !in r
  {
    if s == [] then [] else (if s[0] == c then [] else [s[0]]) + Without(s[1..], c)
  }

  predicate StartsWith(s: string, prefix: string)
  {
    |prefix| <= |s| && s[..|prefix|] == prefix
  }

  /** Python's `t in d` on strings. */
  predicate IsSubstring(t: string, d: string)
  {
    exists i :: 0 <= i <= |d| - |t| && OccursAt(t, d, i)
  }

  predicate OccursAt(t: string, d: string, i: int)
  {
    0 <= i && i + |t| <= |d| && d[i..i + |t|] == t
  }

  /** `str.lower()` on the capitals of ASCII and Latin-1 (`A` to `Z`, and
      `\U{c0}` to `\U{de}` except the multiplication sign `\U{d7}`): each
      small letter is 32 code points above its capital. Other characters
      are kept. */
  function LowerChar(c: char): char
  {
    if 'A' <= c <= 'Z' || ('\U{c0}' <= c <= '\U{de}' && c != '\U{d7}') then (c as int + 32) as char else c
  }

  function Lower(s: string): (r: string)
    ensures |r| == |s| && forall i :: 0 <= i < |s| ==> r[i] == LowerChar(s[i])
  {
    if s == [] then [] else [LowerChar(s[0])] + Lower(s[1..])
  }

  /** `sep.join(parts)`. */
  function Join(sep: string, parts: seq<string>): string
  {
    if parts == [] then ""
    else if |parts| == 1 then parts[0]
    else parts[0] + sep + Join(sep, parts[1..])
  }

  /** `c * n` for a one-character string. */
  function Repeat(c: char, n: nat): (r: string)
    ensures |r| == n && forall i :: 0 <= i < n ==> r[i] == c
  {
    if n == 0 then [] else [c] + Repeat(c, n - 1)
  }
}
