/** The fragment of PHP's runtime semantics the client relies on: a small
    value universe, `empty()` truthiness, ordered arrays with string keys,
    the array union operator `+` and `trim()`.  Comparisons follow PHP 8. */
module Php {

  datatype Option<T> = None | Some(value: T)

  /** The exception classes the client throws. */
  datatype Exception =
    | InvalidArgumentException(message: string)
    | GenericException(message: string)   // PHP's base \Exception
    | TypeError(message: string)

  /** A call that returns nothing of interest, or throws. */
  datatype Outcome = Pass | Fail(exception: Exception)

  /** A call that returns a value, or throws. */
  datatype Result<T> = Ok(value: T) | Err(exception: Exception)

  /** PHP values as the client sees them.  An array is an ordered list of
      (key, value) entries; PHP never stores a key twice (see UniqueKeys). */
  datatype Value =
    | Null
    | Bool(b: bool)
    | Int(i: int)
    | Str(s: string)
    | Arr(entries: seq<(string, Value)>)

  /** PHP's `empty($v)`, which is also `!$v` for a defined value: exactly
      six values are empty. */
  predicate Empty(v: Value)
    ensures Empty(v) <==> v in {Null, Bool(false), Int(0), Str(""), Str("0"), Arr([])}
  {
    match v
    case Null => true
    case Bool(b) => !b
    case Int(i) => i == 0
    case Str(s) => s == "" || s == "0"
    case Arr(es) => es == []
  }

  predicate Truthy(v: Value) {
    !Empty(v)
  }

  /** The name PHP 8 uses for a value's type in error messages. */
  function TypeName(v: Value): string {
    match v
    case Null => "null"
    case Bool(_) => "bool"
    case Int(_) => "int"
    case Str(_) => "string"
    case Arr(_) => "array"
  }

  // ---------------------------------------------------------------------
  // Arrays

  function Keys(es: seq<(string, Value)>): set<string> {
    if es == [] then {} else {es[0].0} + Keys(es[1..])
  }

  /** No key occurs twice: every PHP array has this shape. */
  predicate UniqueKeys(es: seq<(string, Value)>) {
    es == [] || (es[0].0 !in Keys(es[1..]) && UniqueKeys(es[1..]))
  }

  /** `$a[$key]`: the value of the first entry with that key, or null (PHP's
      "undefined index" result) when there is none. */
  function Lookup(es: seq<(string, Value)>, key: string): Value {
    if es == [] then Null
    else if es[0].0 == key then es[0].1
    else Lookup(es[1..], key)
  }

  /** A lookup finds the value stored under a present key, which in an array
      with distinct keys is the only value stored under it, and null under an
      absent key. */
  lemma {:induction false} LookupFinds(es: seq<(string, Value)>, key: string)
    ensures key in Keys(es) ==> (key, Lookup(es, key)) in es
    ensures key !in Keys(es) ==> Lookup(es, key) == Null
    ensures UniqueKeys(es) ==> forall v :: (key, v) in es ==> v == Lookup(es, key)
  {
    if es != [] {
      LookupFinds(es[1..], key);
      KeysOfEntries(es[1..]);
      assert forall v :: (key, v) in es && (key, v) != es[0] ==> (key, v) in es[1..];
    }
  }

  lemma {:induction false} KeysOfEntries(es: seq<(string, Value)>)
    ensures forall i :: 0 <= i < |es| ==> es[i].0 in Keys(es)
  {
    if es != [] {
      KeysOfEntries(es[1..]);
      assert forall i :: 1 <= i < |es| ==> es[i] == es[1..][i - 1];
    }
  }

  /** Indexing any value: indexing null, a boolean or an integer gives null. */
  function Get(v: Value, key: string): Value {
    if v.Arr? then Lookup(v.entries, key) else Null
  }

  /** The text of the TypeError PHP 8 throws when code reads a string at a
      non-numeric offset. */
  const StringOffsetMessage := "Cannot access offset of type string on string"

  /** A key PHP reads as an integer offset into a string: here, a non-empty
      run of decimal digits. */
  predicate IsDigits(key: string) {
    key != [] && forall i :: 0 <= i < |key| ==> '0' <= key[i] <= '9'
  }

  function DecimalValue(key: string): nat
    requires forall i :: 0 <= i < |key| ==> '0' <= key[i] <= '9'
  {
    if key == [] then 0
    else DecimalValue(key[..|key| - 1]) * 10 + (key[|key| - 1] as int - '0' as int)
  }

  /** `$v[$key]` as a read: an array yields the entry (null when absent),
      null, a boolean or an integer yields null, and a string yields the
      character at a digit offset ("" past its end) and throws a TypeError
      for any other key. */
  function Index(v: Value, key: string): (r: Result<Value>)
    ensures r.Err? <==> v.Str? && !IsDigits(key)
    ensures r.Err? ==> r.exception == TypeError(StringOffsetMessage)
    ensures !v.Str? ==> r == Ok(Get(v, key))
    ensures v.Str? && IsDigits(key) ==>
      r == Ok(if DecimalValue(key) < |v.s| then Str([v.s[DecimalValue(key)]]) else Str(""))
  {
    if !v.Str? then Ok(Get(v, key))
    else if !IsDigits(key) then Err(TypeError(StringOffsetMessage))
    else if DecimalValue(key) < |v.s| then Ok(Str([v.s[DecimalValue(key)]]))
    else Ok(Str(""))
  }

  /** Whether `key` is one of the array's keys (`array_keys` + `in_array`). */
  predicate Has(v: Value, key: string) {
    v.Arr? && key in Keys(v.entries)
  }

  /** The entries of `es` whose key is not in `ks`, in their order. */
  function Without(es: seq<(string, Value)>, ks: set<string>): seq<(string, Value)> {
    if es == [] then []
    else (if es[0].0 in ks then [] else [es[0]]) + Without(es[1..], ks)
  }

  /** PHP's array union `$a + $b`: all of `a`, then the entries of `b` whose
      key `a` does not have. */
  function Union(a: seq<(string, Value)>, b: seq<(string, Value)>): seq<(string, Value)> {
    a + Without(b, Keys(a))
  }

  /** The union has the keys of both operands; keys of `a` keep their value
      from `a` and every other key of `b` keeps its value from `b`; it
      starts with `a` unchanged and keeps keys distinct. */
  lemma UnionFacts(a: seq<(string, Value)>, b: seq<(string, Value)>)
    ensures Keys(Union(a, b)) == Keys(a) + Keys(b)
    ensures forall k :: Lookup(Union(a, b), k) == if k in Keys(a) then Lookup(a, k) else Lookup(b, k)
    ensures UniqueKeys(a) && UniqueKeys(b) ==> UniqueKeys(Union(a, b))
    ensures |a| <= |Union(a, b)| && Union(a, b)[..|a|] == a
  {
    var rest := Without(b, Keys(a));
    KeysAppend(a, rest);
    KeysWithout(b, Keys(a));
    forall k ensures Lookup(a + rest, k) == if k in Keys(a) then Lookup(a, k) else Lookup(b, k) {
      LookupAppend(a, rest, k);
      if k !in Keys(a) {
        LookupWithout(b, Keys(a), k);
      }
    }
    if UniqueKeys(a) && UniqueKeys(b) {
      UniqueWithout(b, Keys(a));
      UniqueAppend(a, rest);
    }
  }

  lemma {:induction false} KeysAppend(a: seq<(string, Value)>, c: seq<(string, Value)>)
    ensures Keys(a + c) == Keys(a) + Keys(c)
  {
    if a != [] {
      assert (a + c)[1..] == a[1..] + c;
      KeysAppend(a[1..], c);
    } else {
      assert a + c == c;
    }
  }

  lemma {:induction false} LookupAppend(a: seq<(string, Value)>, c: seq<(string, Value)>, k: string)
    ensures Lookup(a + c, k) == if k in Keys(a) then Lookup(a, k) else Lookup(c, k)
  {
    if a == [] {
      assert a + c == c;
    } else {
      assert (a + c)[0] == a[0];
      assert (a + c)[1..] == a[1..] + c;
      LookupAppend(a[1..], c, k);
    }
  }

  lemma {:induction false} KeysWithout(es: seq<(string, Value)>, ks: set<string>)
    ensures Keys(Without(es, ks)) == Keys(es) - ks
  {
    if es != [] {
      var head: seq<(string, Value)> := if es[0].0 in ks then [] else [es[0]];
      KeysWithout(es[1..], ks);
      KeysAppend(head, Without(es[1..], ks));
      assert head != [] ==> Keys(head) == {es[0].0} by {
        if head != [] { assert head[1..] == []; }
      }
    }
  }

  lemma {:induction false} LookupWithout(es: seq<(string, Value)>, ks: set<string>, k: string)
    requires k !in ks
    ensures Lookup(Without(es, ks), k) == Lookup(es, k)
  {
    if es != [] {
      var head: seq<(string, Value)> := if es[0].0 in ks then [] else [es[0]];
      LookupWithout(es[1..], ks, k);
      LookupAppend(head, Without(es[1..], ks), k);
      if head != [] {
        assert head[1..] == [];
        assert Keys(head) == {es[0].0};
      }
    }
  }

  lemma {:induction false} UniqueWithout(es: seq<(string, Value)>, ks: set<string>)
    requires UniqueKeys(es)
    ensures UniqueKeys(Without(es, ks))
  {
    if es != [] {
      var tail := Without(es[1..], ks);
      UniqueWithout(es[1..], ks);
      if es[0].0 !in ks {
        KeysWithout(es[1..], ks);
        assert Without(es, ks) == [es[0]] + tail;
        assert ([es[0]] + tail)[1..] == tail;
      } else {
        assert Without(es, ks) == tail;
      }
    }
  }

  lemma {:induction false} UniqueAppend(a: seq<(string, Value)>, c: seq<(string, Value)>)
    requires UniqueKeys(a) && UniqueKeys(c) && Keys(a) !! Keys(c)
    ensures UniqueKeys(a + c)
  {
    if a == [] {
      assert a + c == c;
    } else {
      assert (a + c)[1..] == a[1..] + c;
      KeysAppend(a[1..], c);
      UniqueAppend(a[1..], c);
    }
  }

  // ---------------------------------------------------------------------
  // trim()

  /** The characters PHP's `trim()` strips by default: space, tab, newline,
      carriage return, NUL and vertical tab. */
  predicate IsTrimmed(c: char) {
    c == ' ' || c == '\t' || c == '\n' || c == '\r' || c == 0 as char || c == 11 as char
  }

  /** The number of trimmed characters `s` starts with. */
  function LeadingTrimmed(s: string): (n: nat)
    ensures n <= |s|
    ensures forall k :: 0 <= k < n ==> IsTrimmed(s[k])
    ensures n < |s| ==> !IsTrimmed(s[n])
  {
    if s != [] && IsTrimmed(s[0]) then 1 + LeadingTrimmed(s[1..]) else 0
  }

  /** The number of trimmed characters `s` ends with. */
  function TrailingTrimmed(s: string): (n: nat)
    ensures n <= |s|
    ensures forall k :: |s| - n <= k < |s| ==> IsTrimmed(s[k])
    ensures n < |s| ==> !IsTrimmed(s[|s| - 1 - n])
  {
    if s != [] && IsTrimmed(s[|s| - 1]) then 1 + TrailingTrimmed(s[..|s| - 1]) else 0
  }

  /** `trim($s)`: the stretch of `s` between its leading and its trailing
      trimmed characters; it is empty exactly when `s` holds nothing but
      trimmed characters. */
  function Trim(s: string): (r: string)
    ensures LeadingTrimmed(s) + |r| <= |s|
    ensures forall j :: 0 <= j < |r| ==> r[j] == s[LeadingTrimmed(s) + j]
    ensures forall k :: LeadingTrimmed(s) + |r| <= k < |s| ==> IsTrimmed(s[k])
    ensures r != [] ==> !IsTrimmed(r[0]) && !IsTrimmed(r[|r| - 1])
    ensures r == [] <==> forall i :: 0 <= i < |s| ==> IsTrimmed(s[i])
  {
    var lead := LeadingTrimmed(s);
    if lead == |s| then ""
    else
      var trail := TrailingTrimmed(s);
      assert !IsTrimmed(s[lead]);
      s[lead..|s| - trail]
  }
}
