/**
 * The leaderboard: `sorted(user_xp.items(), key=xp, reverse=True)[:10]`.
 * Python's sort is stable also with `reverse=True`, so users with equal XP
 * keep the order in which they first appeared in `user_xp`.
 */
module Ranking {
  import opened Common

  const BoardSize: nat := 10

  datatype Entry = Entry(user: UserId, xp: nat)

  /** `user_xp.items()`: one entry per key, in key order. */
  function EntriesOf(order: seq<UserId>, xp: map<UserId, nat>): (r: seq<Entry>)
    requires forall i :: 0 <= i < |order| ==> order[i] in xp
    ensures |r| == |order|
    ensures forall i :: 0 <= i < |r| ==> r[i] == Entry(order[i], xp[order[i]])
  {
    if order == [] then [] else [Entry(order[0], xp[order[0]])] + EntriesOf(order[1..], xp)
  }

  /** Highest XP first: no entry has more XP than the one before it. */
  ghost predicate SortedDesc(s: seq<Entry>)
  {
    forall i :: 0 < i < |s| ==> s[i - 1].xp >= s[i].xp
  }

  /** In a descending list every entry has at least the XP of every later one. */
  lemma {:induction false} SortedDescAt(s: seq<Entry>, i: nat, j: nat)
    requires SortedDesc(s)
    requires i <= j < |s|
    ensures s[i].xp >= s[j].xp
    decreases j - i
  {
    if i < j {
      SortedDescAt(s, i + 1, j);
    }
  }

  /** The entries with XP exactly `v`, in their order of appearance. */
  function WithXp(s: seq<Entry>, v: nat): seq<Entry>
  {
    if s == [] then [] else (if s[0].xp == v then [s[0]] else []) + WithXp(s[1..], v)
  }

  /** Places `x` after the entries with more XP and before all others. */
  function Insert(x: Entry, l: seq<Entry>): (r: seq<Entry>)
    ensures |r| == |l| + 1
  {
    if l == [] || l[0].xp <= x.xp then [x] + l else [l[0]] + Insert(x, l[1..])
  }

  lemma {:induction false} InsertPermutes(x: Entry, l: seq<Entry>)
    ensures multiset(Insert(x, l)) == multiset(l) + multiset{x}
  {
    if l != [] && l[0].xp > x.xp {
      assert l == [l[0]] + l[1..];
      InsertPermutes(x, l[1..]);
    }
  }

  lemma {:induction false} InsertSorted(x: Entry, l: seq<Entry>)
    requires SortedDesc(l)
    ensures Insert(x, l)[0] == x || Insert(x, l)[0] == l[0]
    ensures SortedDesc(Insert(x, l))
  {
    if l != [] && l[0].xp > x.xp {
      var rest := Insert(x, l[1..]);
      assert Insert(x, l) == [l[0]] + rest;
      assert SortedDesc(l[1..]) by {
        forall i | 0 < i < |l[1..]| ensures l[1..][i - 1].xp >= l[1..][i].xp {
          assert l[1..][i - 1] == l[i] && l[1..][i] == l[i + 1];
        }
      }
      InsertSorted(x, l[1..]);
      assert rest[0].xp <= l[0].xp;
    }
  }

  /** The stable descending sort of the leaderboard. */
  function SortDesc(s: seq<Entry>): (r: seq<Entry>)
    ensures multiset(r) == multiset(s)
    ensures |r| == |s|
    ensures SortedDesc(r)
  {
    if s == [] then []
    else
      assert s == [s[0]] + s[1..];
      var sorted := SortDesc(s[1..]);
      InsertSorted(s[0], sorted);
      InsertPermutes(s[0], sorted);
      Insert(s[0], sorted)
  }

  lemma {:induction false} InsertWithXp(x: Entry, l: seq<Entry>, v: nat)
    ensures WithXp(Insert(x, l), v) == (if x.xp == v then [x] else []) + WithXp(l, v)
  {
    var r := Insert(x, l);
    if l == [] || l[0].xp <= x.xp {
      assert r == [x] + l;
      assert r[0] == x && r[1..] == l;
    } else {
      var rest := Insert(x, l[1..]);
      assert r == [l[0]] + rest;
      assert r[0] == l[0] && r[1..] == rest;
      InsertWithXp(x, l[1..], v);
      var head := if l[0].xp == v then [l[0]] else [];
      assert WithXp(l, v) == head + WithXp(l[1..], v);
      assert WithXp(r, v) == head + WithXp(rest, v);
      if x.xp == v {
        assert head == [];
      } else {
        assert WithXp(rest, v) == WithXp(l[1..], v);
      }
    }
  }

  /** Stability: among entries of equal XP the sort keeps the input order. */
  lemma {:induction false} SortDescStable(s: seq<Entry>, v: nat)
    ensures WithXp(SortDesc(s), v) == WithXp(s, v)
  {
    if s != [] {
      SortDescStable(s[1..], v);
      InsertWithXp(s[0], SortDesc(s[1..]), v);
    }
  }

  /** The `n` best entries of a stable descending sort (`[:n]`). */
  function Top(s: seq<Entry>, n: nat): (r: seq<Entry>)
    ensures |r| == Min(n, |s|)
    ensures SortedDesc(r)
    ensures multiset(r) <= multiset(s)
  {
    var sorted := SortDesc(s);
    var k := Min(n, |s|);
    assert sorted == sorted[..k] + sorted[k..];
    sorted[..k]
  }

  lemma TopIsPrefix(s: seq<Entry>, n: nat)
    ensures Top(s, n) == SortDesc(s)[..Min(n, |s|)]
  {
  }

  /** Every entry left out of the top `n` has no more XP than any entry kept. */
  lemma TopDominates(s: seq<Entry>, n: nat, e: Entry, i: nat)
    requires e in s && e !in Top(s, n)
    requires i < |Top(s, n)|
    ensures Top(s, n)[i].xp >= e.xp
  {
    var sorted, k := SortDesc(s), Min(n, |s|);
    TopIsPrefix(s, n);
    assert multiset(sorted)[e] > 0;
    var j :| 0 <= j < |sorted| && sorted[j] == e;
    SortedDescAt(sorted, i, j);
  }

  lemma {:induction false} WithXpPrefix(s: seq<Entry>, k: nat, v: nat)
    requires k <= |s|
    ensures WithXp(s[..k], v) <= WithXp(s, v)
  {
    if k > 0 {
      assert s[..k][1..] == s[1..][..k - 1];
      WithXpPrefix(s[1..], k - 1, v);
    }
  }

  /** Ties inside the top `n` keep input order, and the ones cut off are the later ones. */
  lemma TopStable(s: seq<Entry>, n: nat, v: nat)
    ensures WithXp(Top(s, n), v) <= WithXp(s, v)
  {
    SortDescStable(s, v);
    WithXpPrefix(SortDesc(s), Min(n, |s|), v);
  }

  /** The `/leaderboard` view: the ten best entries. */
  function Leaderboard(s: seq<Entry>): (r: seq<Entry>)
    ensures |r| == Min(BoardSize, |s|)
    ensures s == [] ==> r == []
    ensures SortedDesc(r)
  {
    Top(s, BoardSize)
  }

  lemma SortExampleTail(b: Entry, c: Entry, d: Entry)
    requires b.xp == c.xp > d.xp
    ensures SortDesc([b, c, d]) == [b, c, d]
  {
    assert [b, c, d][1..] == [c, d];
    assert [c, d][1..] == [d];
    assert SortDesc([d]) == [d];
    assert Insert(c, [d]) == [c, d];
    assert SortDesc([c, d]) == [c, d];
    assert Insert(b, [c, d]) == [b, c, d];
  }

  lemma InsertExample(a: Entry, b: Entry, c: Entry, d: Entry)
    requires b.xp == c.xp > a.xp > d.xp
    ensures Insert(a, [b, c, d]) == [b, c, a, d]
  {
    assert [b, c, d][1..] == [c, d];
    assert [c, d][1..] == [d];
    assert Insert(a, [d]) == [a] + [d] == [a, d];
    assert Insert(a, [c, d]) == [c] + Insert(a, [d]) == [c, a, d];
    assert Insert(a, [b, c, d]) == [b] + Insert(a, [c, d]) == [b, c, a, d];
  }

  lemma SortExample(a: Entry, b: Entry, c: Entry, d: Entry)
    requires b.xp == c.xp > a.xp > d.xp
    ensures SortDesc([a, b, c, d]) == [b, c, a, d]
  {
    assert [a, b, c, d][0] == a && [a, b, c, d][1..] == [b, c, d];
    SortExampleTail(b, c, d);
    InsertExample(a, b, c, d);
  }

  lemma TopThreeOfSorted(s: seq<Entry>, t: seq<Entry>)
    requires |t| == 4 && SortDesc(s) == t
    ensures Top(s, 3) == [t[0], t[1], t[2]]
  {
    TopIsPrefix(s, 3);
    var top := t[..3];
    assert |top| == 3 && top[0] == t[0] && top[1] == t[1] && top[2] == t[2];
  }

  /**
   * Users A, B, C, D appearing in that order with XP such as 100, 300, 300, 50:
   * the top three are B, C, A (the tie B/C in order of appearance) and D is cut.
   */
  lemma TopExample(s: seq<Entry>)
    requires |s| == 4 && s[1].xp == s[2].xp > s[0].xp > s[3].xp
    ensures Top(s, 3) == [s[1], s[2], s[0]]
  {
    assert s == [s[0], s[1], s[2], s[3]];
    SortExample(s[0], s[1], s[2], s[3]);
    TopThreeOfSorted(s, [s[1], s[2], s[0], s[3]]);
  }

  /** No data, no leaderboard rows. */
  lemma LeaderboardEmpty()
    ensures Leaderboard([]) == []
  {
  }
}
