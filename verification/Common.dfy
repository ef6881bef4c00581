/** Shared vocabulary: optional values and weighted sums over sequences. */
module Wrappers {
  datatype Option<+T> = None | Some(value: T) {
    function GetOr(default: T): T {
      if Some? then value else default
    }
  }
}

/**
 Weighted sums. Balances, ledger counts and live-event counts are all sums of a
 weight over a sequence, so one small theory serves every conservation argument.
 */
module Sums {
  function Sum<T>(s: seq<T>, w: T -> int): int {
    if s == [] then 0 else Sum(s[..|s| - 1], w) + w(s[|s| - 1])
  }

  lemma {:induction false} SumAppend<T>(s: seq<T>, x: T, w: T -> int)
    ensures Sum(s + [x], w) == Sum(s, w) + w(x)
  {
    assert (s + [x])[..|s|] == s;
  }

  lemma {:induction false} SumUpdate<T>(s: seq<T>, i: nat, x: T, w: T -> int)
    requires i < |s|
    ensures Sum(s[i := x], w) == Sum(s, w) - w(s[i]) + w(x)
  {
    var last := |s| - 1;
    if i == last {
      assert s[i := x][..last] == s[..last];
    } else {
      assert s[i := x][..last] == s[..last][i := x];
      SumUpdate(s[..last], i, x, w);
    }
  }

  lemma {:induction false} SumMonotone<T>(s: seq<T>, low: T -> int, high: T -> int)
    requires forall x :: x in s ==> low(x) <= high(x)
    ensures Sum(s, low) <= Sum(s, high)
  {
    if s != [] {
      SumMonotone(s[..|s| - 1], low, high);
    }
  }

  lemma {:induction false} SumZero<T>(s: seq<T>, w: T -> int)
    requires forall x :: x in s ==> w(x) == 0
    ensures Sum(s, w) == 0
  {
    if s != [] {
      SumZero(s[..|s| - 1], w);
    }
  }

  lemma {:induction false} SumCoversMember<T>(s: seq<T>, i: nat, w: T -> int)
    requires i < |s|
    requires forall x :: x in s ==> w(x) >= 0
    ensures Sum(s, w) >= w(s[i]) && Sum(s, w) >= 0
  {
    var last := |s| - 1;
    if i == last {
      SumMonotone(s[..last], _ => 0, w);
      SumZero(s[..last], _ => 0);
    } else {
      SumCoversMember(s[..last], i, w);
      assert s[..last][i] == s[i];
    }
  }
}

/** Character classes as the source language's regular expressions and `trim` have them, and joined text. */
module Strings {
  /** White space and line terminators: what `\s` matches and `trim` removes. */
  predicate IsSpace(c: char) {
    || '\U{9}' <= c <= '\U{d}' || c == ' ' || c == '\U{a0}' || c == '\U{1680}'
    || '\U{2000}' <= c <= '\U{200a}' || c == '\U{2028}' || c == '\U{2029}'
    || c == '\U{202f}' || c == '\U{205f}' || c == '\U{3000}' || c == '\U{feff}'
  }

  predicate IsDigit(c: char) {
    '0' <= c <= '9'
  }

  predicate IsAsciiLetter(c: char) {
    'a' <= c <= 'z' || 'A' <= c <= 'Z'
  }

  /** The parts with a separator between each two. */
  function Join(parts: seq<string>, separator: char): string {
    if parts == [] then ""
    else if |parts| == 1 then parts[0]
    else parts[0] + [separator] + Join(parts[1..], separator)
  }

  lemma {:induction false} JoinMore(first: string, others: seq<string>, separator: char)
    requires others != []
    ensures Join([first] + others, separator) == first + ([separator] + Join(others, separator))
  {
    assert ([first] + others)[1..] == others;
  }

  lemma NoMembers<T>(s: seq<T>, t: seq<T>)
    requires (forall x :: x in s <==> x in t)
    ensures s == [] <==> t == []
  {
    if s != [] {
      assert s[0] in t;
    }
    assert t != [] ==> exists x :: x in t && x in s by {
      if t != [] {
        assert t[0] in t;
      }
    }
  }
}

module Ranges {
  /** The numbers below `n` other than `id`. */
  function AllBut(n: nat, id: nat): (ids: set<nat>)
    ensures forall i: nat :: i in ids <==> i < n && i != id
  {
    if n == 0 then {} else AllBut(n - 1, id) + (if n - 1 == id then {} else {n - 1})
  }
}
