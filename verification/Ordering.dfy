/** `select ... order by`: the orders the functions use, and a set of rows listed in one. */
module Ordering {
  import opened Rows

  datatype SortBy = ByDue | ByProcessAt | ByFinishedOn | ByPk | ByNewestPk | ByNewestFinish

  datatype Rank = Rank(a: int, b: int, c: int)

  function NullsLast(t: Option<Millis>): (int, int) {
    if t.Some? then (0, t.value) else (1, 0)
  }

  function RankOf(o: SortBy, j: Job): Rank {
    match o
    case ByDue => Rank(if j.processAt.Some? then j.processAt.value else 0, j.priority, j.pk)
    case ByProcessAt => var (n, t) := NullsLast(j.processAt); Rank(n, t, j.pk)
    case ByFinishedOn => var (n, t) := NullsLast(j.finishedOn); Rank(n, t, j.pk)
    case ByPk => Rank(j.pk, 0, 0)
    case ByNewestPk => Rank(0 - j.pk, 0, 0)
    case ByNewestFinish => var (n, t) := NullsLast(j.finishedOn); Rank(n, -t, 0 - j.pk)
  }

  predicate RankLess(x: Rank, y: Rank) {
    x.a < y.a || (x.a == y.a && (x.b < y.b || (x.b == y.b && x.c < y.c)))
  }

  predicate KeyLess(x: Key, y: Key) {
    x.queue < y.queue || (x.queue == y.queue && x.id < y.id)
  }

  /** Strict total order on the rows of a table; every rank ends in the primary key, so the
      last tie-break is reached only by rows that share one. */
  predicate Before(o: SortBy, jobs: map<Key, Job>, x: Key, y: Key)
    requires x in jobs && y in jobs
  {
    var rx, ry := RankOf(o, jobs[x]), RankOf(o, jobs[y]);
    RankLess(rx, ry) || (rx == ry && KeyLess(x, y))
  }

  ghost predicate IsFirst(o: SortBy, jobs: map<Key, Job>, s: set<Key>, k: Key)
    requires s <= jobs.Keys
  {
    k in s && forall x | x in s :: x == k || Before(o, jobs, k, x)
  }

  lemma BeforeIsStrictTotal(o: SortBy, jobs: map<Key, Job>, x: Key, y: Key, z: Key)
    requires x in jobs && y in jobs && z in jobs
    ensures !Before(o, jobs, x, x)
    ensures x == y || Before(o, jobs, x, y) || Before(o, jobs, y, x)
    ensures Before(o, jobs, x, y) && Before(o, jobs, y, z) ==> Before(o, jobs, x, z)
  {
    var rx, ry := RankOf(o, jobs[x]), RankOf(o, jobs[y]);
    if rx == ry {
      assert x == y || KeyLess(x, y) || KeyLess(y, x);
    } else {
      assert RankLess(rx, ry) || RankLess(ry, rx);
    }
  }

  lemma {:induction false} FirstExists(o: SortBy, jobs: map<Key, Job>, s: set<Key>) returns (k: Key)
    requires s <= jobs.Keys && s != {}
    ensures IsFirst(o, jobs, s, k)
    decreases |s|
  {
    var x0 :| x0 in s;
    k := x0;
    var rest := s - {x0};
    if rest != {} {
      var y := FirstExists(o, jobs, rest);
      BeforeIsStrictTotal(o, jobs, x0, y, y);
      k := if Before(o, jobs, y, x0) then y else x0;
      forall x | x in s ensures x == k || Before(o, jobs, k, x) {
        BeforeIsStrictTotal(o, jobs, x0, y, x);
        assert x == x0 || x in rest;
        assert x in rest ==> x == y || Before(o, jobs, y, x);
      }
    } else {
      assert s == {x0};
    }
  }

  ghost function First(o: SortBy, jobs: map<Key, Job>, s: set<Key>): (k: Key)
    requires s <= jobs.Keys && s != {}
    ensures IsFirst(o, jobs, s, k)
  {
    assert exists k :: IsFirst(o, jobs, s, k) by {
      var k := FirstExists(o, jobs, s);
    }
    var k :| IsFirst(o, jobs, s, k);
    k
  }

  lemma FirstUnique(o: SortBy, jobs: map<Key, Job>, s: set<Key>, k: Key)
    requires s <= jobs.Keys && IsFirst(o, jobs, s, k)
    ensures k == First(o, jobs, s)
  {
    var f := First(o, jobs, s);
    BeforeIsStrictTotal(o, jobs, k, f, k);
  }

  /** The rows of `s`, in order. */
  ghost function Sorted(o: SortBy, jobs: map<Key, Job>, s: set<Key>): (r: seq<Key>)
    requires s <= jobs.Keys
    ensures |r| == |s|
    ensures forall k :: k in r <==> k in s
    decreases |s|
  {
    if s == {} then []
    else
      var k := First(o, jobs, s);
      [k] + Sorted(o, jobs, s - {k})
  }

  ghost predicate InOrder(o: SortBy, jobs: map<Key, Job>, r: seq<Key>) {
    && (forall i | 0 <= i < |r| :: r[i] in jobs)
    && (forall i, j | 0 <= i < j < |r| :: Before(o, jobs, r[i], r[j]))
  }

  lemma {:induction false} SortedInOrder(o: SortBy, jobs: map<Key, Job>, s: set<Key>)
    requires s <= jobs.Keys
    ensures InOrder(o, jobs, Sorted(o, jobs, s))
    decreases |s|
  {
    if s != {} {
      var k := First(o, jobs, s);
      SortedInOrder(o, jobs, s - {k});
      var tail := Sorted(o, jobs, s - {k});
      assert Sorted(o, jobs, s) == [k] + tail;
      forall i | 0 <= i < |tail| ensures Before(o, jobs, k, tail[i]) {
        assert tail[i] in tail;
      }
    }
  }

  /** No row appears twice in an ordered listing. */
  lemma InOrderDistinct(o: SortBy, jobs: map<Key, Job>, r: seq<Key>, i: nat, j: nat)
    requires InOrder(o, jobs, r) && i < j < |r|
    ensures r[i] != r[j]
  {
    BeforeIsStrictTotal(o, jobs, r[i], r[j], r[i]);
  }

  lemma InOrderTail(o: SortBy, jobs: map<Key, Job>, s: set<Key>, r: seq<Key>)
    requires InOrder(o, jobs, r) && r != []
    requires forall k :: k in r <==> k in s
    ensures InOrder(o, jobs, r[1..])
    ensures forall k :: k in r[1..] <==> k in s - {r[0]}
  {
    var rest := r[1..];
    forall x ensures x in rest <==> x in s - {r[0]} {
      if x in rest {
        var i :| 0 <= i < |rest| && rest[i] == x;
        assert r[i + 1] == x;
        InOrderDistinct(o, jobs, r, 0, i + 1);
      }
      if x in s - {r[0]} {
        var i :| 0 <= i < |r| && r[i] == x;
        assert rest[i - 1] == x;
      }
    }
  }

  lemma InOrderHead(o: SortBy, jobs: map<Key, Job>, s: set<Key>, r: seq<Key>)
    requires s <= jobs.Keys && InOrder(o, jobs, r) && r != []
    requires forall k :: k in r <==> k in s
    ensures s != {} && r[0] == First(o, jobs, s)
  {
    assert r[0] in r;
    forall x | x in s ensures x == r[0] || Before(o, jobs, r[0], x) {
      var i :| 0 <= i < |r| && r[i] == x;
    }
    FirstUnique(o, jobs, s, r[0]);
  }

  /** A listing in order is the only one. */
  lemma {:induction false} SortedUnique(o: SortBy, jobs: map<Key, Job>, s: set<Key>, r: seq<Key>)
    requires s <= jobs.Keys && InOrder(o, jobs, r)
    requires forall k :: k in r <==> k in s
    ensures r == Sorted(o, jobs, s)
    decreases |r|
  {
    hide Before, InOrder;
    if r == [] {
      assert s == {} by {
        forall k ensures k !in s { assert k in r <==> k in s; }
      }
    } else {
      InOrderHead(o, jobs, s, r);
      InOrderTail(o, jobs, s, r);
      SortedUnique(o, jobs, s - {r[0]}, r[1..]);
      assert r == [r[0]] + r[1..];
    }
  }

  /** Listing depends only on the ranks of the listed rows. */
  lemma SortedSameRanks(o: SortBy, jobs: map<Key, Job>, jobs': map<Key, Job>, s: set<Key>)
    requires s <= jobs.Keys && s <= jobs'.Keys
    requires forall k | k in s :: RankOf(o, jobs[k]) == RankOf(o, jobs'[k])
    ensures Sorted(o, jobs, s) == Sorted(o, jobs', s)
  {
    SortedInOrder(o, jobs, s);
    var r := Sorted(o, jobs, s);
    forall i | 0 <= i < |r| ensures r[i] in s { assert r[i] in r; }
    assert InOrder(o, jobs', r);
    SortedUnique(o, jobs', s, r);
  }

  function Elements(r: seq<Key>): (s: set<Key>) {
    set k | k in r
  }

  /** Dropping the first `n` rows of a listing lists the rest. */
  lemma SortedSuffix(o: SortBy, jobs: map<Key, Job>, s: set<Key>, n: nat)
    requires s <= jobs.Keys && n <= |s|
    ensures var r := Sorted(o, jobs, s);
      r[n..] == Sorted(o, jobs, s - Elements(r[..n]))
  {
    var r := Sorted(o, jobs, s);
    var t := s - Elements(r[..n]);
    SortedInOrder(o, jobs, s);
    assert InOrder(o, jobs, r[n..]);
    forall k ensures k in r[n..] <==> k in t {
      if k in r[n..] {
        var i :| n <= i < |r| && r[i] == k;
        assert k in r;
        if k in r[..n] {
          var j :| 0 <= j < n && r[j] == k;
          InOrderDistinct(o, jobs, r, j, i);
        }
      }
      if k in t {
        assert k in r;
        var i :| 0 <= i < |r| && r[i] == k;
        assert i >= n;
        assert r[n..][i - n] == k;
      }
    }
    SortedUnique(o, jobs, t, r[n..]);
  }
}
