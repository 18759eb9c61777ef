/**
 * The slice of PHP's value semantics the field entities rely on: dynamically
 * typed values, the `(bool)` cast and `empty()`, string conversion, loose
 * comparison against a string literal, `str_replace` and array lookup.
 */
module Php {

  datatype Option<T> = None | Some(value: T)

  /**
   * A PHP value. Arrays are ordered lists of (key, value) entries; integer
   * keys appear as their decimal strings. Floats and objects are not modelled.
   */
  datatype Value =
    | Null
    | Bool(b: bool)
    | Int(i: int)
    | Str(s: string)
    | Arr(entries: seq<(string, Value)>)

  /** PHP's `(bool)` cast; `empty(v)` is its negation. */
  predicate Truthy(v: Value)
  {
    match v
    case Null => false
    case Bool(b) => b
    case Int(i) => i != 0
    case Str(s) => s != "" && s != "0"
    case Arr(es) => |es| > 0
  }

  /** The values PHP treats as false, listed one by one. */
  const FalsyValues: set<Value> := {Null, Bool(false), Int(0), Str(""), Str("0"), Arr([])}

  /** Truthiness is exactly "not one of the six falsy values". */
  lemma TruthyIffNotFalsy(v: Value)
    ensures Truthy(v) <==> v !in FalsyValues
  {
    if v.Arr? && |v.entries| == 0 {
      assert v == Arr([]);
    }
  }

  /** Decimal digits of a natural number, most significant first. */
  function Digits(n: nat): (r: string)
    ensures |r| > 0
    ensures forall k :: 0 <= k < |r| ==> '0' <= r[k] <= '9'
    decreases n
  {
    var d := [(48 + n % 10) as char];
    if n < 10 then d else Digits(n / 10) + d
  }

  /** PHP's conversion of an integer to a string. */
  function IntToString(i: int): (r: string)
    ensures |r| > 0
  {
    if i < 0 then "-" + Digits(-i) else Digits(i)
  }

  /**
   * PHP's conversion of a value to a string, as used by the `.` operator.
   * An array converts to "Array".
   */
  function StrOf(v: Value): (r: string)
    ensures v.Str? ==> r == v.s
    ensures v == Null || v == Bool(false) ==> r == ""
  {
    match v
    case Null => ""
    case Bool(b) => if b then "1" else ""
    case Int(i) => IntToString(i)
    case Str(s) => s
    case Arr(_) => "Array"
  }

  /**
   * PHP 8's loose comparison `v == lit` of a value with a string literal:
   * a boolean compares with the literal's truthiness, null with "", an
   * integer with the literal as a string (the literals used here are not
   * numeric), an array never equals a string.
   */
  predicate LooseEqualsLiteral(v: Value, lit: string)
  {
    match v
    case Null => lit == ""
    case Bool(b) => b == Truthy(Str(lit))
    case Int(i) => IntToString(i) == lit
    case Str(s) => s == lit
    case Arr(_) => false
  }

  /** No integer prints as a word made of letters only. */
  lemma IntToStringIsNumeric(i: int, lit: string)
    requires |lit| > 0 && forall k :: 0 <= k < |lit| ==> 'a' <= lit[k] <= 'z'
    ensures IntToString(i) != lit
  {
    var r := IntToString(i);
    assert '0' <= r[|r| - 1] <= '9' by {
      if i < 0 { assert r[|r| - 1] == Digits(-i)[|Digits(-i)| - 1]; }
    }
    assert 'a' <= lit[|lit| - 1];
  }

  /**
   * Against a non-empty lower-case word, PHP's loose comparison matches the
   * word itself and `true`, and nothing else.
   */
  lemma LooseEqualsWord(v: Value, lit: string)
    requires |lit| > 0 && forall k :: 0 <= k < |lit| ==> 'a' <= lit[k] <= 'z'
    ensures LooseEqualsLiteral(v, lit) <==> v == Str(lit) || v == Bool(true)
  {
    assert 'a' <= lit[0];
    if v.Int? {
      IntToStringIsNumeric(v.i, lit);
    }
  }

  /** `t` occurs in `s` at position `k`. */
  predicate OccursAt(s: string, t: string, k: int)
  {
    0 <= k && k + |t| <= |s| && s[k..k + |t|] == t
  }

  /** `t` occurs somewhere in `s`. */
  predicate Contains(s: string, t: string)
  {
    exists k :: 0 <= k <= |s| && OccursAt(s, t, k)
  }

  /**
   * PHP's `str_replace(search, rep, s)` for one search string: a single
   * left-to-right pass replacing every non-overlapping occurrence; an empty
   * search string leaves `s` unchanged.
   */
  function StrReplace(search: string, rep: string, s: string): string
    decreases |s|
  {
    if |search| == 0 || |s| < |search| then s
    else if s[..|search|] == search then rep + StrReplace(search, rep, s[|search|..])
    else [s[0]] + StrReplace(search, rep, s[1..])
  }

  /** A string in which the search string does not occur comes back unchanged. */
  lemma {:induction false} StrReplaceAbsent(search: string, rep: string, s: string)
    requires !Contains(s, search)
    ensures StrReplace(search, rep, s) == s
    decreases |s|
  {
    if |search| == 0 || |s| < |search| {
    } else {
      assert !OccursAt(s, search, 0);
      assert s[..|search|] != search;
      assert !Contains(s[1..], search) by {
        forall k | OccursAt(s[1..], search, k) ensures false {
          assert s[1..][k..k + |search|] == s[k + 1..k + 1 + |search|];
          assert OccursAt(s, search, k + 1);
        }
      }
      StrReplaceAbsent(search, rep, s[1..]);
      assert s == [s[0]] + s[1..];
    }
  }

  /** Removing a string never makes the subject longer. */
  lemma {:induction false} StrRemoveShortens(search: string, s: string)
    ensures |StrReplace(search, "", s)| <= |s|
    decreases |s|
  {
    if |search| == 0 || |s| < |search| {
    } else if s[..|search|] == search {
      StrRemoveShortens(search, s[|search|..]);
    } else {
      StrRemoveShortens(search, s[1..]);
    }
  }

  /**
   * Removing a prefix from a key that starts with it and does not contain it
   * again yields the rest of the key.
   */
  lemma StrRemoveLeadingPrefix(prefix: string, rest: string)
    requires |prefix| > 0 && !Contains(rest, prefix)
    ensures StrReplace(prefix, "", prefix + rest) == rest
  {
    var s := prefix + rest;
    assert s[..|prefix|] == prefix;
    assert s[|prefix|..] == rest;
    StrReplaceAbsent(prefix, "", rest);
  }

  /**
   * The pass does not stop at the start of the subject: an occurrence of the
   * search string behind a stretch in which no occurrence can begin is
   * replaced as well.
   */
  lemma {:induction false} StrReplaceInterior(search: string, rep: string, x: string, y: string)
    requires |search| > 0
    requires forall i :: 0 <= i < |x| ==> x[i] != search[0]
    ensures StrReplace(search, rep, x + search + y) == x + rep + StrReplace(search, rep, y)
    decreases |x|
  {
    var s := x + search + y;
    var rest := StrReplace(search, rep, y);
    if |x| == 0 {
      assert s == search + y;
      assert s[..|search|] == search && s[|search|..] == y;
      assert StrReplace(search, rep, s) == rep + rest;
    } else {
      calc {
        StrReplace(search, rep, s);
        { assert s[..|search|][0] == x[0] != search[0]; }
        [s[0]] + StrReplace(search, rep, s[1..]);
        { assert s[1..] == x[1..] + search + y;
          StrReplaceInterior(search, rep, x[1..], y); }
        [x[0]] + (x[1..] + rep + rest);
        { assert [x[0]] + x[1..] == x; }
        x + rep + rest;
      }
    }
  }

  /** Replacing one character by another rewrites the string position by position. */
  lemma {:induction false} StrReplaceCharMap(c: char, d: char, s: string)
    ensures |StrReplace([c], [d], s)| == |s|
    ensures forall i :: 0 <= i < |s| ==> StrReplace([c], [d], s)[i] == if s[i] == c then d else s[i]
    decreases |s|
  {
    if |s| > 0 {
      var tail := StrReplace([c], [d], s[1..]);
      StrReplaceCharMap(c, d, s[1..]);
      assert s[..1] == [s[0]];
      var r := StrReplace([c], [d], s);
      assert r == [if s[0] == c then d else s[0]] + tail;
      forall i | 0 <= i < |s|
        ensures r[i] == if s[i] == c then d else s[i]
      {
        if i > 0 {
          assert r[i] == tail[i - 1] && s[i] == s[1..][i - 1];
        }
      }
    }
  }

  /**
   * Replacing a one-character string by a string that does not contain it
   * leaves no occurrence of that character behind.
   */
  lemma {:induction false} StrReplaceCharRemovesAll(c: char, rep: string, s: string)
    requires !Contains(rep, [c])
    ensures !Contains(StrReplace([c], rep, s), [c])
    decreases |s|
  {
    var r := StrReplace([c], rep, s);
    if |s| > 0 {
      var tail := StrReplace([c], rep, s[1..]);
      StrReplaceCharRemovesAll(c, rep, s[1..]);
      ContainsChar(tail, c);
      ContainsChar(rep, c);
      assert s[..1] == [s[0]];
      var head := if s[0] == c then rep else [s[0]];
      assert r == head + tail;
      forall i | 0 <= i < |r|
        ensures r[i] != c
      {
        if i >= |head| {
          assert r[i] == tail[i - |head|];
        }
      }
    }
    ContainsChar(r, c);
  }

  /** A one-character string occurs in `x` exactly when that character is one of `x`'s. */
  lemma ContainsChar(x: string, c: char)
    ensures Contains(x, [c]) <==> exists i :: 0 <= i < |x| && x[i] == c
  {
    if exists i :: 0 <= i < |x| && x[i] == c {
      var i :| 0 <= i < |x| && x[i] == c;
      assert x[i..i + 1] == [c];
      assert OccursAt(x, [c], i);
    }
    if Contains(x, [c]) {
      var k :| 0 <= k <= |x| && OccursAt(x, [c], k);
      assert x[k] == x[k..k + 1][0];
    }
  }

  /**
   * The value stored under `key` in an entry list: PHP array keys are unique,
   * so the first entry with that key is the entry.
   */
  function Lookup(es: seq<(string, Value)>, key: string): (r: Option<Value>)
    ensures r.Some? ==> (key, r.value) in es
    ensures r.None? <==> forall k :: 0 <= k < |es| ==> es[k].0 != key
    ensures r.Some? ==> exists k :: 0 <= k < |es| && es[k] == (key, r.value) &&
                                    forall j :: 0 <= j < k ==> es[j].0 != key
  {
    if |es| == 0 then None
    else if es[0].0 == key then Some(es[0].1)
    else
      var r := Lookup(es[1..], key);
      assert forall k :: 1 <= k < |es| ==> es[k] == es[1..][k - 1];
      r
  }

  /** PHP's `(int)` cast; the conversion of strings is given by `intOfString`. */
  function IntVal(intOfString: string -> int, v: Value): int
  {
    match v
    case Null => 0
    case Bool(b) => if b then 1 else 0
    case Int(i) => i
    case Str(s) => intOfString(s)
    case Arr(es) => if |es| == 0 then 0 else 1
  }

  /**
   * `v > 0`: null and false are not greater, true is, an array always is;
   * a string compares through its `(int)` reading. That is PHP 7's rule:
   * PHP 8 compares a non-numeric string with 0 as two strings.
   */
  predicate GreaterThanZero(intOfString: string -> int, v: Value)
  {
    match v
    case Null => false
    case Bool(b) => b
    case Int(i) => i > 0
    case Str(s) => intOfString(s) > 0
    case Arr(_) => true
  }

  /** WordPress' `absint`: the absolute value of the `(int)` cast. */
  function AbsInt(intOfString: string -> int, v: Value): (r: nat)
    ensures r == IntVal(intOfString, v) || r == -IntVal(intOfString, v)
  {
    var i := IntVal(intOfString, v);
    if i < 0 then -i else i
  }
}
