// Small shared vocabulary: bytes, optional values, results and ascending key order.

module Common {
  type byte = x: int | 0 <= x < 0x100
  type bytes = seq<byte>

  // The largest value of an unsigned 64-bit counter.
  const U64_MAX: nat := 0xFFFF_FFFF_FFFF_FFFF
  // The largest value of an unsigned 32-bit counter.
  const U32_MAX: nat := 0xFFFF_FFFF

  datatype Option<+T> = None | Some(value: T)

  datatype Result<+T, +E> = Ok(value: T) | Err(error: E)

  lemma Associative<T>(a: seq<T>, b: seq<T>, c: seq<T>)
    ensures (a + b) + c == a + (b + c)
  {
  }

  // Instant differences are clamped at zero.
  function Elapsed(now: nat, since: nat): nat {
    if now >= since then now - since else 0
  }

  lemma MinExists(s: set<nat>)
    requires s != {}
    ensures exists m :: m in s && forall y | y in s :: m <= y
    decreases s
  {
    var x :| x in s;
    var rest := s - {x};
    if rest == {} {
      assert s == {x};
      assert x in s && forall y | y in s :: x <= y;
    } else {
      MinExists(rest);
      var r :| r in rest && forall y | y in rest :: r <= y;
      var m := if r < x then r else x;
      assert m in s && forall y | y in s :: m <= y by {
        forall y | y in s ensures m <= y {
          assert y == x || y in rest;
        }
      }
    }
  }

  // The iteration order of an ordered map: its keys, ascending.
  function Ascending(s: set<nat>): seq<nat>
    decreases s
  {
    if s == {} then [] else
      MinExists(s);
      var m :| m in s && forall y | y in s :: m <= y;
      [m] + Ascending(s - {m})
  }

  ghost predicate Increasing(s: seq<nat>) {
    forall i, j :: 0 <= i < j < |s| ==> s[i] < s[j]
  }

  lemma AscendingStep(s: set<nat>, m: nat)
    requires m in s && forall y | y in s :: m <= y
    ensures Ascending(s) == [m] + Ascending(s - {m})
  {
  }

  lemma IncreasingCons(m: nat, rest: seq<nat>)
    requires Increasing(rest)
    requires forall y | y in rest :: m < y
    ensures Increasing([m] + rest)
  {
    var l := [m] + rest;
    forall i, j | 0 <= i < j < |l| ensures l[i] < l[j] {
      assert l[j] == rest[j - 1] && rest[j - 1] in rest;
    }
  }

  lemma IncreasingSnoc(s: seq<nat>, x: nat)
    requires Increasing(s) && forall y | y in s :: y < x
    ensures Increasing(s + [x])
  {
    var l := s + [x];
    forall i, j | 0 <= i < j < |l| ensures l[i] < l[j] {
      assert l[i] == s[i] && s[i] in s;
    }
  }

  lemma {:induction false} AscendingProperties(s: set<nat>)
    ensures Increasing(Ascending(s))
    ensures forall x :: x in Ascending(s) <==> x in s
    decreases s
  {
    if s != {} {
      MinExists(s);
      var m :| m in s && forall y | y in s :: m <= y;
      AscendingStep(s, m);
      AscendingProperties(s - {m});
      IncreasingCons(m, Ascending(s - {m}));
    }
  }

  // An increasing sequence is determined by the set of its elements.
  lemma {:induction false} IncreasingIsAscending(l: seq<nat>, s: set<nat>)
    requires Increasing(l)
    requires forall x :: x in l <==> x in s
    ensures l == Ascending(s)
    decreases |l|
  {
    if l == [] {
      assert s == {};
    } else {
      assert l[0] in s;
      var t := l[1..];
      assert l == [l[0]] + t;
      forall y | y in s ensures l[0] <= y {
        var i :| 0 <= i < |l| && l[i] == y;
      }
      forall x ensures x in t <==> x in s - {l[0]} {
        if x in t { var i :| 0 <= i < |t| && t[i] == x; assert l[i + 1] == x; }
        if x in s && x != l[0] { var i :| 0 <= i < |l| && l[i] == x; assert t[i - 1] == x; }
      }
      IncreasingIsAscending(t, s - {l[0]});
      AscendingStep(s, l[0]);
    }
  }
}
