/** Shared vocabulary: the two error kinds, failure-compatible wrappers, and the
    list operations the Python code performs on its member lists and strings. */
module Base {

  /** The only two exceptions the core raises. */
  datatype Error = InputError | AccessError

  datatype Option<T> = None | Some(value: T)

  /** A value, or the exception that was raised instead. */
  datatype Result<T> = Ok(value: T) | Err(error: Error)

  /** An operation that returns an empty dict on success. */
  datatype Outcome = Pass | Fail(error: Error)

  function Min(a: int, b: int): int { if a <= b then a else b }

  /** No element occurs twice. */
  predicate NoDup<T(==)>(s: seq<T>) {
    forall i, j :: 0 <= i < j < |s| ==> s[i] != s[j]
  }

  /** Index of the first element satisfying `p`, or `|s|` when there is none
      (the search every lookup helper performs). */
  function FirstMatch<T>(s: seq<T>, p: T -> bool): (i: nat)
    ensures i <= |s|
    ensures i < |s| ==> p(s[i])
    ensures forall j :: 0 <= j < i ==> !p(s[j])
  {
    if |s| == 0 then 0
    else if p(s[0]) then 0
    else 1 + FirstMatch(s[1..], p)
  }

  /** Position of the first occurrence of `x`. */
  function IndexOf<T(==)>(s: seq<T>, x: T): (i: nat)
    requires x in s
    ensures i < |s| && s[i] == x && x !in s[..i]
  {
    if s[0] == x then 0 else 1 + IndexOf(s[1..], x)
  }

  /** Python's `list.remove(x)`: drops the first occurrence of `x`. The source
      calls it only after checking `x in list`, so the `ValueError` path is
      never taken. */
  function Remove<T(==)>(s: seq<T>, x: T): (r: seq<T>)
    requires x in s
    ensures |r| == |s| - 1
    ensures r == s[..IndexOf(s, x)] + s[IndexOf(s, x) + 1..]
  {
    var i := IndexOf(s, x);
    s[..i] + s[i + 1..]
  }

  /** `if x not in list: list.append(x)` */
  function AppendIfAbsent<T(==,!new)>(s: seq<T>, x: T): (r: seq<T>)
    ensures x in r
    ensures s <= r && |r| <= |s| + 1
    ensures forall y :: y in r <==> y in s || y == x
    ensures NoDup(s) ==> NoDup(r)
  {
    if x in s then s else s + [x]
  }

  /** Removing a present element from a list without duplicates removes it
      entirely, keeps every other element and keeps the list duplicate-free. */
  lemma {:induction false} RemoveFromNoDup<T(!new)>(s: seq<T>, x: T)
    requires x in s && NoDup(s)
    ensures NoDup(Remove(s, x))
    ensures x !in Remove(s, x)
    ensures forall y :: y in Remove(s, x) <==> y in s && y != x
  {
  }

  /** Removing an element that was just appended (and was absent before)
      restores the list exactly. */
  lemma RemoveAppended<T>(s: seq<T>, x: T)
    requires x !in s
    ensures Remove(s + [x], x) == s
  {
    var t := s + [x];
    assert t[|s|] == x;
    assert t[..|s|] == s;
    assert x !in t[..|s|];
  }

  /** Number of occurrences of `x` in `s`. */
  function Count<T(==)>(s: seq<T>, x: T): nat {
    if |s| == 0 then 0 else (if s[0] == x then 1 else 0) + Count(s[1..], x)
  }

  lemma {:induction false} CountAbsent<T>(s: seq<T>, x: T)
    requires x !in s
    ensures Count(s, x) == 0
  {
    if |s| > 0 {
      assert s[0] != x;
      CountAbsent(s[1..], x);
    }
  }

  /** In a list without duplicates a present element occurs exactly once. */
  lemma {:induction false} CountInNoDup<T>(s: seq<T>, x: T)
    requires NoDup(s) && x in s
    ensures Count(s, x) == 1
  {
    if s[0] == x {
      assert x !in s[1..] by {
        forall k | 0 <= k < |s| - 1 ensures s[1..][k] != x {
          assert s[1..][k] == s[k + 1] && s[0] != s[k + 1];
        }
      }
      CountAbsent(s[1..], x);
    } else {
      assert x in s[1..] by {
        var k :| 0 <= k < |s| && s[k] == x;
        assert k > 0 && s[1..][k - 1] == x;
      }
      CountInNoDup(s[1..], x);
    }
  }

  /** Python's `str.isspace()` on a single character: the Unicode whitespace set. */
  predicate IsSpaceChar(c: char) {
    c == ' ' || ('\t' <= c <= '\r') || ('\U{1c}' <= c <= '\U{1f}')
    || c == '\U{85}' || c == '\U{a0}' || c == '\U{1680}'
    || ('\U{2000}' <= c <= '\U{200a}') || c == '\U{2028}' || c == '\U{2029}'
    || c == '\U{202f}' || c == '\U{205f}' || c == '\U{3000}'
  }

  /** Python's `str.isspace()`: non-empty and made of whitespace only. */
  predicate IsSpace(s: string) {
    |s| > 0 && forall i :: 0 <= i < |s| ==> IsSpaceChar(s[i])
  }
}
