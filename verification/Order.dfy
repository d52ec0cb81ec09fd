/** The orders every keyset page of the system is cut by: ids compared byte by byte (PostgreSQL
    text keys, Redis members and Go strings are assumed to agree on it) and, on top of it,
    newest-first order on (created_at, id). */
module Order {

  /** Strict lexicographic order on ids. The empty id is the least one. */
  predicate Less(a: string, b: string) {
    b != [] && (a == [] || a[0] < b[0] || (a[0] == b[0] && Less(a[1..], b[1..])))
  }

  /** After a common front of length k, a ends or has the smaller character. */
  ghost predicate SmallerAt(a: string, b: string, k: nat) {
    k < |b| && k <= |a| && a[..k] == b[..k] && (k == |a| || a[k] < b[k])
  }

  lemma {:induction false} LessIff(a: string, b: string)
    ensures Less(a, b) <==> exists k: nat :: SmallerAt(a, b, k)
  {
    if b != [] && (a == [] || a[0] < b[0]) {
      assert SmallerAt(a, b, 0);
    } else if b != [] && a[0] == b[0] {
      LessIff(a[1..], b[1..]);
      if k: nat :| SmallerAt(a[1..], b[1..], k) {
        assert a[..k + 1] == [a[0]] + a[1..][..k] && b[..k + 1] == [b[0]] + b[1..][..k];
        assert SmallerAt(a, b, k + 1);
      }
      if k: nat :| SmallerAt(a, b, k) {
        assert a[1..][..k - 1] == a[..k][1..] && b[1..][..k - 1] == b[..k][1..];
        assert SmallerAt(a[1..], b[1..], k - 1);
      }
    } else {
      forall k: nat ensures !SmallerAt(a, b, k) {
        if 0 < k <= |a| && k < |b| {
          assert a[..k][0] == a[0] && b[..k][0] == b[0];
        }
      }
    }
  }

  lemma {:induction false} Asymmetric(a: string, b: string)
    ensures !(Less(a, b) && Less(b, a))
  {
    if a != [] && b != [] && a[0] == b[0] {
      Asymmetric(a[1..], b[1..]);
    }
  }

  lemma {:induction false} Trichotomy(a: string, b: string)
    ensures Less(a, b) || a == b || Less(b, a)
  {
    if a != [] && b != [] && a[0] == b[0] {
      Trichotomy(a[1..], b[1..]);
      assert a == [a[0]] + a[1..] && b == [b[0]] + b[1..];
    }
  }

  lemma {:induction false} Transitive(a: string, b: string, c: string)
    requires Less(a, b) && Less(b, c)
    ensures Less(a, c)
  {
    if a != [] && a[0] == b[0] && b[0] == c[0] {
      Transitive(a[1..], b[1..], c[1..]);
    }
  }

  function Take<T>(s: seq<T>, n: nat): seq<T> {
    if |s| <= n then s else s[..n]
  }

  /** Two cuts of one list are the same when they are as long. */
  lemma TakeTwice<T>(s: seq<T>, a: nat, b: nat)
    ensures |Take(s, a)| == (if |s| <= a then |s| else a)
    ensures Take(Take(s, a), b) == Take(s, b) <==> b <= a || |s| <= a
  {
    if b <= a || |s| <= a {
      assert Take(Take(s, a), b) == Take(s, b);
    } else {
      assert |Take(Take(s, a), b)| == a;
    }
  }

  /** One page of ids read by `WHERE id > after ORDER BY id LIMIT n`: ascending, all of them in
      the table and past the position, and none skipped on the way to the last one. */
  ghost predicate KeysetPage(table: set<string>, after: string, n: nat, page: seq<string>) {
    && |page| <= n
    && (forall i :: 0 <= i < |page| ==> page[i] in table && Less(after, page[i]))
    && (forall i, j :: 0 <= i < j < |page| ==> Less(page[i], page[j]))
    && (forall id :: id in table && Less(after, id) ==>
          id in page || (|page| == n && (n > 0 ==> Less(page[n - 1], id))))
  }

  /** Everything of base up to the position has been seen. */
  ghost predicate Walked(base: set<string>, after: string, seen: set<string>) {
    forall id :: id in base && !Less(after, id) ==> id in seen
  }

  function Seen(page: seq<string>): set<string> { set id | id in page }

  /** One page moves the walk on: to its last id when it is full, past the end when it is short.
      Rows inserted meanwhile may be missed, rows of base may not. */
  lemma WalkStep(base: set<string>, table: set<string>, after: string, n: nat, page: seq<string>, seen: set<string>)
    requires n > 0 && base <= table && KeysetPage(table, after, n, page) && Walked(base, after, seen)
    ensures |page| < n ==> base <= seen + Seen(page)
    ensures |page| == n ==> Walked(base, page[n - 1], seen + Seen(page)) && Less(after, page[n - 1])
  {
  }

  lemma {:induction false} LeastId(ids: set<string>)
    requires ids != {}
    ensures exists m :: IsLeastId(m, ids)
  {
    var x :| x in ids;
    var rest := ids - {x};
    assert forall id :: id in ids ==> id == x || id in rest;
    if rest == {} {
      assert IsLeastId(x, ids);
    } else {
      LeastId(rest);
      var m :| IsLeastId(m, rest);
      Trichotomy(m, x);
      if Less(x, m) {
        forall id | id in rest ensures Less(x, id) {
          if id != m {
            Transitive(x, m, id);
          }
        }
        assert IsLeastId(x, ids);
      } else {
        assert IsLeastId(m, ids);
      }
    }
  }

  predicate IsLeastId(m: string, ids: set<string>) {
    m in ids && forall id :: id in ids ==> id == m || Less(m, id)
  }

  /** The query itself. */
  method PageOf(table: set<string>, after: string, n: nat) returns (page: seq<string>)
    ensures KeysetPage(table, after, n, page)
  {
    page := [];
    var left := set id | id in table && Less(after, id);
    while left != {} && |page| < n
      invariant |page| <= n && (forall id :: id in left ==> id in table && Less(after, id))
      invariant forall i :: 0 <= i < |page| ==> page[i] in table && Less(after, page[i])
      invariant forall i, id :: 0 <= i < |page| && id in left ==> Less(page[i], id)
      invariant forall i, j :: 0 <= i < j < |page| ==> Less(page[i], page[j])
      invariant forall id :: id in table && Less(after, id) ==> id in page || id in left
    {
      LeastId(left);
      var m :| m in left && IsLeastId(m, left);
      left := left - {m};
      ghost var was := page;
      page := page + [m];
      assert page[|was|] == m && forall id :: id in was ==> id in page;
    }
  }
}
