/**
 * Python's string and list primitives as the pipeline uses them: `str.split` on one
 * character, `sep.join`, `str.lower`, `str.replace` of one character, `str(int)`, and
 * indexing and slicing with negative indices. Case mapping covers ASCII only.
 */
module PyStr {
  import opened Results

  /** `s.split(c)`: the pieces between occurrences of `c`; never empty (`"".split(c) == [""]`). */
  function Split(s: string, c: char): (r: seq<string>)
    ensures |r| >= 1
    ensures r[0] <= s
    decreases |s|
  {
    if s == [] then [""]
    else
      var rest := Split(s[1..], c);
      if s[0] == c then [""] + rest
      else [[s[0]] + rest[0]] + rest[1..]
  }

  /** A non-empty sequence followed by another: its first element, then the rest of both. Proof aid. */
  lemma PeelFirst<T>(a: seq<T>, b: seq<T>)
    requires |a| >= 1
    ensures a + b == [a[0]] + (a[1..] + b)
  {
    assert a == [a[0]] + a[1..];
  }

  /** Concatenation regroups to the left. Proof aid. */
  lemma AppendAssoc<T>(a: seq<T>, b: seq<T>, c: seq<T>)
    ensures a + (b + c) == (a + b) + c
  {
  }

  /** `sep.join(parts)` */
  function Join(parts: seq<string>, sep: string): string
    decreases |parts|
  {
    if |parts| == 0 then ""
    else if |parts| == 1 then parts[0]
    else parts[0] + sep + Join(parts[1..], sep)
  }

  /** No piece of a split contains the separator. Proof aid. */
  lemma {:induction false} SplitPiecesFree(s: string, c: char)
    ensures forall i :: 0 <= i < |Split(s, c)| ==> c !in Split(s, c)[i]
    decreases |s|
  {
    if s != [] {
      SplitPiecesFree(s[1..], c);
      var rest := Split(s[1..], c);
      if s[0] != c {
        assert c !in rest[0];
        assert c !in [s[0]] + rest[0];
      }
    }
  }

  /** Joining the pieces of a split with the same separator gives back the string. Proof aid. */
  lemma {:induction false} JoinSplit(s: string, c: char)
    ensures Join(Split(s, c), [c]) == s
    decreases |s|
  {
    if s != [] {
      JoinSplit(s[1..], c);
      var rest := Split(s[1..], c);
      if s[0] == c {
        assert Split(s, c) == [""] + rest;
        assert ([""] + rest)[1..] == rest;
      } else {
        var parts := Split(s, c);
        assert parts == [[s[0]] + rest[0]] + rest[1..];
        assert [s[0]] + s[1..] == s;
        if |rest| == 1 {
          assert Join(parts, [c]) == [s[0]] + rest[0];
        } else {
          var tail := Join(rest[1..], [c]);
          assert parts[1..] == rest[1..];
          assert s[1..] == rest[0] + [c] + tail;
          assert Join(parts, [c]) == ([s[0]] + rest[0]) + [c] + tail;
          assert ([s[0]] + rest[0]) + [c] + tail == [s[0]] + (rest[0] + [c] + tail);
        }
      }
    }
  }

  /** A string without the separator splits into itself. Proof aid. */
  lemma {:induction false} SplitNoSep(s: string, c: char)
    requires c !in s
    ensures Split(s, c) == [s]
    decreases |s|
  {
    if s != [] {
      assert c !in s[1..];
      SplitNoSep(s[1..], c);
      assert [s[0]] + s[1..] == s;
    }
  }

  /** Splitting `p + c + r` where `p` has no separator: `p` comes first, then the pieces of `r`. Proof aid. */
  lemma {:induction false} SplitConcat(p: string, r: string, c: char)
    requires c !in p
    ensures Split(p + [c] + r, c) == [p] + Split(r, c)
    decreases |p|
  {
    if p == [] {
      assert p + [c] + r == [c] + r;
      assert ([c] + r)[1..] == r;
    } else {
      assert c !in p[1..];
      SplitConcat(p[1..], r, c);
      assert (p + [c] + r)[1..] == p[1..] + [c] + r;
      assert [p[0]] + p[1..] == p;
    }
  }

  /** Splitting a join of separator-free pieces gives back the pieces. Proof aid. */
  lemma {:induction false} SplitJoin(parts: seq<string>, c: char)
    requires |parts| >= 1
    requires forall i :: 0 <= i < |parts| ==> c !in parts[i]
    ensures Split(Join(parts, [c]), c) == parts
    decreases |parts|
  {
    if |parts| == 1 {
      SplitNoSep(parts[0], c);
    } else {
      SplitJoin(parts[1..], c);
      SplitConcat(parts[0], Join(parts[1..], [c]), c);
      assert [parts[0]] + parts[1..] == parts;
    }
  }

  /** Splitting a join whose leading pieces are separator-free: those pieces, then the split of the last. Proof aid. */
  lemma {:induction false} SplitJoinLast(heads: seq<string>, last: string, c: char)
    requires |heads| >= 1
    requires forall i :: 0 <= i < |heads| ==> c !in heads[i]
    ensures Split(Join(heads + [last], [c]), c) == heads + Split(last, c)
    decreases |heads|
  {
    var parts := heads + [last];
    assert parts[0] == heads[0];
    assert parts[1..] == heads[1..] + [last];
    if |heads| == 1 {
      assert Join(parts, [c]) == heads[0] + [c] + last;
      SplitConcat(heads[0], last, c);
    } else {
      SplitJoinLast(heads[1..], last, c);
      assert Join(parts, [c]) == heads[0] + [c] + Join(heads[1..] + [last], [c]);
      SplitConcat(heads[0], Join(heads[1..] + [last], [c]), c);
      assert [heads[0]] + heads[1..] == heads;
    }
  }

  /** Splitting `p + c + r`: the pieces of `p`, then the pieces of `r`. Proof aid. */
  lemma {:induction false} SplitAppend(p: string, r: string, c: char)
    ensures Split(p + [c] + r, c) == Split(p, c) + Split(r, c)
    decreases |p|
  {
    var x := p + [c] + r;
    if p == [] {
      assert x == [c] + r;
      assert x[1..] == r;
    } else {
      assert x[0] == p[0];
      assert x[1..] == p[1..] + [c] + r;
      SplitAppend(p[1..], r, c);
    }
  }

  /** The pieces of each string split on `c`, one after another. */
  function SplitEach(parts: seq<string>, c: char): seq<string>
    decreases |parts|
  {
    if parts == [] then [] else Split(parts[0], c) + SplitEach(parts[1..], c)
  }

  /** Splitting the pieces of two lists is splitting the pieces of each, one after the other. Proof aid. */
  lemma {:induction false} SplitEachAppend(a: seq<string>, b: seq<string>, c: char)
    ensures SplitEach(a + b, c) == SplitEach(a, c) + SplitEach(b, c)
    decreases |a|
  {
    if a == [] {
      assert a + b == b;
    } else {
      assert (a + b)[0] == a[0];
      assert (a + b)[1..] == a[1..] + b;
      SplitEachAppend(a[1..], b, c);
    }
  }

  /** The pieces of three strings, split one after another. Proof aid. */
  lemma SplitEachThree(parts: seq<string>, c: char)
    requires |parts| == 3
    ensures SplitEach(parts, c) == Split(parts[0], c) + Split(parts[1], c) + Split(parts[2], c)
  {
    var tail1 := parts[1..];
    assert tail1 == [parts[1], parts[2]];
    assert tail1[1..] == [parts[2]];
    assert tail1[1..][1..] == [];
    assert SplitEach([parts[2]], c) == Split(parts[2], c);
    assert SplitEach(tail1, c) == Split(parts[1], c) + Split(parts[2], c);
  }

  /** The pieces of some strings followed by three more. Proof aid. */
  lemma SplitEachAfter(lead: seq<string>, parts: seq<string>, c: char)
    requires |parts| == 3
    ensures SplitEach(lead + parts, c) == SplitEach(lead, c) + Split(parts[0], c) + Split(parts[1], c) + Split(parts[2], c)
  {
    SplitEachAppend(lead, parts, c);
    SplitEachThree(parts, c);
  }

  /** Splitting a join splits each joined piece. Proof aid. */
  lemma {:induction false} SplitJoinEach(parts: seq<string>, c: char)
    requires |parts| >= 1
    ensures Split(Join(parts, [c]), c) == SplitEach(parts, c)
    decreases |parts|
  {
    if |parts| == 1 {
      assert parts[1..] == [];
    } else {
      SplitJoinEach(parts[1..], c);
      SplitAppend(parts[0], Join(parts[1..], [c]), c);
    }
  }

  /** A character absent from a string is absent from each of its pieces. Proof aid. */
  lemma {:induction false} PiecesWithin(s: string, c: char, x: char)
    requires x !in s
    ensures forall i :: 0 <= i < |Split(s, c)| ==> x !in Split(s, c)[i]
    decreases |s|
  {
    if s != [] {
      PiecesWithin(s[1..], c, x);
    }
  }

  /** A string splits into a single piece exactly when it does not contain the separator. Proof aid. */
  lemma {:induction false} SplitSingle(s: string, c: char)
    ensures |Split(s, c)| == 1 <==> c !in s
    decreases |s|
  {
    if s != [] {
      SplitSingle(s[1..], c);
      assert s == [s[0]] + s[1..];
    }
  }

  /** The last piece of a split is what follows the last separator. Proof aid. */
  lemma {:induction false} SplitTail(h: string, s: string, c: char)
    requires c !in s
    ensures var r := Split(h + [c] + s, c); |r| >= 2 && r[|r| - 1] == s
    decreases |h|
  {
    var x := h + [c] + s;
    if h == [] {
      assert x[1..] == s;
      SplitNoSep(s, c);
    } else {
      assert x[1..] == h[1..] + [c] + s;
      SplitTail(h[1..], s, c);
    }
  }

  /** A character in neither the pieces nor the separator is not in the join. Proof aid. */
  lemma {:induction false} JoinFree(parts: seq<string>, sep: string, c: char)
    requires c !in sep
    requires forall i :: 0 <= i < |parts| ==> c !in parts[i]
    ensures c !in Join(parts, sep)
    decreases |parts|
  {
    if |parts| > 1 {
      JoinFree(parts[1..], sep, c);
    }
  }

  /** Joining one more piece at the end. Proof aid. */
  lemma {:induction false} JoinSnoc(parts: seq<string>, x: string, sep: string)
    requires |parts| >= 1
    ensures Join(parts + [x], sep) == Join(parts, sep) + sep + x
    decreases |parts|
  {
    if |parts| == 1 {
      assert (parts + [x])[1..] == [x];
    } else {
      assert (parts + [x])[1..] == parts[1..] + [x];
      JoinSnoc(parts[1..], x, sep);
    }
  }

  function LowerChar(ch: char): char
  {
    if 'A' <= ch <= 'Z' then (ch as int + 32) as char else ch
  }

  /** `s.lower()` on ASCII letters. */
  function Lower(s: string): (r: string)
    ensures |r| == |s|
    ensures forall i :: 0 <= i < |r| ==> r[i] == LowerChar(s[i]) && !('A' <= r[i] <= 'Z')
  {
    if s == [] then [] else [LowerChar(s[0])] + Lower(s[1..])
  }

  /** `s.replace(c, "")` */
  function RemoveChar(s: string, c: char): (r: string)
    ensures c !in r
    ensures |r| <= |s|
    ensures c !in s ==> r == s
    ensures forall x :: x in r ==> x in s
  {
    if s == [] then [] else (if s[0] == c then [] else [s[0]]) + RemoveChar(s[1..], c)
  }

  /** `s.replace(a, b)` for one-character `a` and `b`. */
  function ReplaceChar(s: string, a: char, b: char): (r: string)
    ensures |r| == |s|
    ensures a != b ==> a !in r
    ensures forall i :: 0 <= i < |s| ==> r[i] == (if s[i] == a then b else s[i])
  {
    if s == [] then [] else [if s[0] == a then b else s[0]] + ReplaceChar(s[1..], a, b)
  }

  predicate IsDigit(ch: char) { '0' <= ch <= '9' }

  predicate AllDigits(s: string) { forall i :: 0 <= i < |s| ==> IsDigit(s[i]) }

  function DigitChar(d: nat): (ch: char)
    requires d < 10
  {
    (d + '0' as int) as char
  }

  /** `str(n)` for a non-negative integer: its decimal digits, no leading zero. */
  function NatToString(n: nat): (r: string)
    ensures |r| >= 1 && AllDigits(r)
    ensures n >= 10 ==> r[0] != '0'
    decreases n
  {
    if n < 10 then [DigitChar(n)] else NatToString(n / 10) + [DigitChar(n % 10)]
  }

  /** `str(i)` for any integer. */
  function IntToString(i: int): string
  {
    if i < 0 then "-" + NatToString(-i) else NatToString(i)
  }

  /** `int(s)` on a string of decimal digits: the inverse of NatToString. */
  function ParseNat(s: string): nat
    requires AllDigits(s)
  {
    if s == [] then 0 else 10 * ParseNat(s[..|s| - 1]) + (s[|s| - 1] as int - '0' as int)
  }

  /** `str(n)` parses back to `n`. Proof aid. */
  lemma {:induction false} ParseNatToString(n: nat)
    ensures ParseNat(NatToString(n)) == n
    decreases n
  {
    if n >= 10 {
      ParseNatToString(n / 10);
      var r := NatToString(n);
      assert r[..|r| - 1] == NatToString(n / 10);
    }
  }

  /** The number of digits `str(n)` has, by range. Proof aid. */
  lemma NatToStringLength(n: nat)
    ensures n < 10 ==> |NatToString(n)| == 1
    ensures 10 <= n < 100 ==> |NatToString(n)| == 2
    ensures 1000 <= n < 10000 ==> |NatToString(n)| == 4
  {
    if 1000 <= n < 10000 {
      assert |NatToString(n / 10)| == |NatToString(n / 100)| + 1;
      assert |NatToString(n / 100)| == |NatToString(n / 1000)| + 1;
    }
  }

  /** Python's `s[i]` with a possibly negative `i`. */
  function At<T>(s: seq<T>, i: int): (r: Result<T>)
    ensures r.Ok? <==> -|s| <= i < |s|
    ensures r.Ok? ==> r.value == s[if i < 0 then i + |s| else i]
  {
    var j := if i < 0 then i + |s| else i;
    if 0 <= j < |s| then Ok(s[j]) else Err(IndexError)
  }

  /** A slice bound normalised as Python does: negative counts from the end, then clamped. */
  function Clamp(i: int, n: nat): (r: nat)
    ensures r <= n
  {
    var j := if i < 0 then i + n else i;
    if j < 0 then 0 else if j > n then n else j
  }

  /** Python's `s[lo:hi]` */
  function Slice<T>(s: seq<T>, lo: int, hi: int): seq<T>
  {
    var a, b := Clamp(lo, |s|), Clamp(hi, |s|);
    if a < b then s[a..b] else []
  }

  /** `s.index(x)`: the first position of `x`, or ValueError. */
  function FirstIndex<T(==)>(s: seq<T>, x: T): (r: Result<nat>)
    ensures r.Err? <==> x !in s
    ensures r.Err? ==> r.error == ValueError
    ensures r.Ok? ==> r.value < |s| && s[r.value] == x && x !in s[..r.value]
  {
    if s == [] then Err(ValueError)
    else if s[0] == x then Ok(0)
    else
      match FirstIndex(s[1..], x)
      case Err(e) => Err(e)
      case Ok(k) =>
        assert s[..k + 1] == [s[0]] + s[1..][..k];
        Ok(k + 1)
  }

  /** `s.index(x)` is the position `k` of `x` when no earlier element is `x`. Proof aid. */
  lemma {:induction false} FirstIndexAt<T>(s: seq<T>, x: T, k: nat)
    requires k < |s| && s[k] == x && x !in s[..k]
    ensures FirstIndex(s, x) == Ok(k)
    decreases k
  {
    if k > 0 {
      assert s[0] == s[..k][0];
      assert s[1..][..k - 1] == s[1..k];
      assert forall y :: y in s[1..k] ==> y in s[..k];
      FirstIndexAt(s[1..], x, k - 1);
    }
  }
}
