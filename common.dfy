/** Values shared by every page of the site: optional values and the
    three states a browser-storage key can be in. */
module Common {

  datatype Option<+T> = None | Some(value: T) {
    function GetOr(default: T): T {
      match this
      case Some(v) => v
      case None => default
    }
  }

  /** One key of the browser's local storage, as the pages see it when they
      read it: missing or holding the empty string (every page tests the
      text for truthiness first, so the two read alike), holding non-empty
      text that does not parse, or holding a parsed value. */
  datatype Slot<+T> = Absent | Garbled | Holds(value: T)

  /** The value the pages obtain with "parse the key, or an empty list when
      the key is missing"; only defined when parsing does not throw. */
  function OrEmpty<T>(slot: Slot<seq<T>>): (r: seq<T>)
    requires !slot.Garbled?
    ensures slot.Absent? ==> r == []
    ensures slot.Holds? ==> r == slot.value
  {
    match slot
    case Absent => []
    case Holds(v) => v
  }

  /** A string's `length` in the browser: the number of UTF-16 code units,
      so a character beyond the Basic Multilingual Plane (an emoji, say)
      counts twice. */
  function Utf16Length(s: string): (r: nat)
    ensures |s| <= r <= 2 * |s|
    ensures r == |s| <==> forall i :: 0 <= i < |s| ==> s[i] <= '\U{FFFF}'
    ensures r == 2 * |s| <==> forall i :: 0 <= i < |s| ==> s[i] > '\U{FFFF}'
  {
    if s == [] then 0
    else (if s[0] > '\U{FFFF}' then 2 else 1) + Utf16Length(s[1..])
  }

  /** One character is one code unit, or two beyond U+FFFF. */
  lemma Utf16LengthOfChar(c: char)
    ensures Utf16Length([c]) == if c > '\U{FFFF}' then 2 else 1
  {
  }

  /** The count adds up over concatenation, so with `Utf16LengthOfChar`
      it fixes the length of every string, mixed ones included. */
  lemma {:induction false} Utf16LengthAppend(a: string, b: string)
    ensures Utf16Length(a + b) == Utf16Length(a) + Utf16Length(b)
  {
    if a == [] {
      assert a + b == b;
    } else {
      assert (a + b)[0] == a[0];
      assert (a + b)[1..] == a[1..] + b;
      Utf16LengthAppend(a[1..], b);
    }
  }

  /** Two letters and two emoji: four characters, six code units. */
  lemma MixedPasswordIsSixUnits()
    ensures |"ab\U{1F600}\U{1F600}"| == 4
    ensures Utf16Length("ab\U{1F600}\U{1F600}") == 6
  {
    Utf16LengthAppend("ab", "\U{1F600}\U{1F600}");
  }

  /** Three emoji are three characters but six code units. */
  lemma ThreeEmojiAreSixUnits()
    ensures |"\U{1F600}\U{1F600}\U{1F600}"| == 3
    ensures Utf16Length("\U{1F600}\U{1F600}\U{1F600}") == 6
  {
  }

  /** The pages' routes. */
  const HomeRoute := "/"
  const CartRoute := "/cart"
  const CheckoutRoute := "/checkout"
  const LoginRoute := "/login"
  const LoginForCheckoutRoute := "/login?returnUrl=/checkout"
  const ProfileRoute := "/profile"
  const OrdersRoute := "/profile?tab=orders"
}

/** List operations of the JavaScript runtime the pages rely on
    (`filter`, `reverse`, `new Set(...)`), with what they guarantee. */
module Sequences {

  /** `s` can be obtained from `t` by deleting elements: order is kept. */
  predicate IsSubsequence<T(==)>(s: seq<T>, t: seq<T>)
  {
    s == [] ||
    (t != [] &&
      ((s[0] == t[0] && IsSubsequence(s[1..], t[1..])) || IsSubsequence(s, t[1..])))
  }

  predicate Distinct<T(==)>(s: seq<T>)
  {
    forall i, j :: 0 <= i < j < |s| ==> s[i] != s[j]
  }

  /** The elements of `s` that satisfy `keep`, in their original order. */
  function Filter<T(==,!new)>(s: seq<T>, keep: T -> bool): (r: seq<T>)
    ensures forall x :: x in r <==> x in s && keep(x)
    ensures IsSubsequence(r, s)
  {
    if s == [] then []
    else if keep(s[0]) then [s[0]] + Filter(s[1..], keep)
    else Filter(s[1..], keep)
  }

  /** Filtering keeps every kept element as often as it occurs, and drops
      every other one. */
  lemma {:induction false} FilterCounts<T(!new)>(s: seq<T>, keep: T -> bool)
    ensures forall x :: multiset(Filter(s, keep))[x] == if keep(x) then multiset(s)[x] else 0
  {
    if s != [] {
      assert s == [s[0]] + s[1..];
      FilterCounts(s[1..], keep);
    }
  }

  /** The list read back to front. */
  function Reverse<T>(s: seq<T>): (r: seq<T>)
    ensures |r| == |s|
    ensures forall k :: 0 <= k < |s| ==> r[k] == s[|s| - 1 - k]
    ensures multiset(r) == multiset(s)
  {
    if s == [] then []
    else
      assert s == [s[0]] + s[1..];
      Reverse(s[1..]) + [s[0]]
  }

  lemma {:induction false} ReverseReverse<T>(s: seq<T>)
    ensures Reverse(Reverse(s)) == s
  {
    var r := Reverse(Reverse(s));
    assert |r| == |s|;
    forall k | 0 <= k < |s|
      ensures r[k] == s[k]
    {
      assert r[k] == Reverse(s)[|s| - 1 - k];
    }
  }

  /** Position of the first occurrence of `x` in `s`. */
  function FirstIndex<T(==)>(s: seq<T>, x: T): (i: nat)
    requires x in s
    ensures i < |s| && s[i] == x && x !in s[..i]
  {
    if s[0] == x then 0 else 1 + FirstIndex(s[1..], x)
  }

  /** What spreading a `new Set(s)` into a list gives: every element once,
      in the order in which it was first inserted. */
  function Dedup<T(==,!new)>(s: seq<T>): (r: seq<T>)
    ensures Distinct(r)
    ensures forall x :: x in r <==> x in s
  {
    if s == [] then []
    else
      var r := Dedup(s[..|s| - 1]);
      var x := s[|s| - 1];
      assert s == s[..|s| - 1] + [x];
      if x in r then r else r + [x]
  }

  lemma FirstIndexExtend<T>(s: seq<T>, y: T, x: T)
    requires x in s
    ensures x in s + [y] && FirstIndex(s + [y], x) == FirstIndex(s, x)
  {
    var i := FirstIndex(s, x);
    assert (s + [y])[i] == x;
    assert (s + [y])[..i] == s[..i];
  }

  lemma FirstIndexNew<T>(s: seq<T>, x: T)
    requires x !in s
    ensures FirstIndex(s + [x], x) == |s|
  {
    assert (s + [x])[..|s|] == s;
  }

  /** The elements of `Dedup(s)` come in the order of their first
      occurrence in `s`. */
  lemma {:induction false} DedupOrder<T(!new)>(s: seq<T>)
    ensures forall i, j :: 0 <= i < j < |Dedup(s)| ==>
      FirstIndex(s, Dedup(s)[i]) < FirstIndex(s, Dedup(s)[j])
  {
    if s != [] {
      var p := s[..|s| - 1];
      var x := s[|s| - 1];
      assert s == p + [x];
      var r := Dedup(p);
      DedupOrder(p);
      forall y | y in r
        ensures FirstIndex(s, y) == FirstIndex(p, y)
      {
        FirstIndexExtend(p, x, y);
      }
      if x !in r {
        FirstIndexNew(p, x);
        assert Dedup(s) == r + [x];
        forall i, j | 0 <= i < j < |Dedup(s)|
          ensures FirstIndex(s, Dedup(s)[i]) < FirstIndex(s, Dedup(s)[j])
        {
          assert Dedup(s)[i] == r[i];
          if j < |r| {
            assert Dedup(s)[j] == r[j];
          }
        }
      }
    }
  }
}
