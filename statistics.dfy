/**
 * The figures the statistics commands show: ordinal numbers, the tasks a
 * user took part in, and the leaderboards of haulers and rescuers.
 */
module Statistics {

  import opened Text
  import opened Seqs
  import opened Tasks

  // ---------------------------------------------------------------------------
  // Ordinals

  /** The suffix `_ordinal` puts after a number; `%` on a positive divisor floors, as Python's does. */
  function Suffix(n: int): string
  {
    if 4 <= n % 100 <= 20 then "th"
    else if n % 10 == 1 then "st"
    else if n % 10 == 2 then "nd"
    else if n % 10 == 3 then "rd"
    else "th"
  }

  /** `_ordinal`. */
  function Ordinal(n: int): string
  {
    IntToString(n) + Suffix(n)
  }

  /** The English rule: 1st, 2nd and 3rd by the last digit, except for 11th, 12th and 13th. */
  lemma SuffixRule(n: int)
    ensures Suffix(n) == "st" <==> n % 10 == 1 && n % 100 != 11
    ensures Suffix(n) == "nd" <==> n % 10 == 2 && n % 100 != 12
    ensures Suffix(n) == "rd" <==> n % 10 == 3 && n % 100 != 13
    ensures Suffix(n) == "th" <==> (n % 10 != 1 && n % 10 != 2 && n % 10 != 3) || 11 <= n % 100 <= 13
  {
    LastDigit(n);
    var t := n % 100;
    if 4 <= t <= 20 {
      assert t % 10 == 1 ==> t == 11;
      assert t % 10 == 2 ==> t == 12;
      assert t % 10 == 3 ==> t == 13;
    }
  }

  /** The last digit of a number is the last digit of its last two. */
  lemma LastDigit(n: int)
    ensures n % 100 % 10 == n % 10
  {
    var t := n % 100;
    var m, r := 10 * (n / 100) + t / 10, t % 10;
    assert n == 10 * m + r && 0 <= r < 10;
    assert n / 10 == m;
  }

  /** The suffix depends on the last two digits only. */
  lemma SuffixPeriodic(n: int)
    ensures Suffix(n + 100) == Suffix(n)
  {
    assert (n + 100) % 100 == n % 100;
    LastDigit(n);
    LastDigit(n + 100);
  }

  lemma OrdinalExamples()
    ensures Ordinal(1) == "1st" && Ordinal(2) == "2nd" && Ordinal(3) == "3rd" && Ordinal(4) == "4th"
    ensures Ordinal(11) == "11th" && Ordinal(22) == "22nd" && Ordinal(0) == "0th"
  {
    assert NatToString(11) == "11" by {
      assert NatToString(1) == "1";
    }
    assert NatToString(22) == "22" by {
      assert NatToString(2) == "2";
    }
  }

  // ---------------------------------------------------------------------------
  // Searches

  /** `_search_restocks`: the restocks the user hauled for, in the service's order. */
  function SearchRestocks(restocks: seq<Restock>, user: int): (r: seq<Restock>)
    reads restocks
    ensures forall k :: 0 <= k < |r| ==> r[k] in restocks && user in r[k].haulers
    ensures forall i :: 0 <= i < |restocks| && user in restocks[i].haulers ==> restocks[i] in r
    ensures |r| <= |restocks|
  {
    if restocks == [] then []
    else
      var rest := SearchRestocks(restocks[1..], user);
      assert forall i :: 1 <= i < |restocks| ==> restocks[i] == restocks[1..][i - 1];
      if user in restocks[0].haulers then [restocks[0]] + rest else rest
  }

  /** `_search_rescues`: the rescues the user took part in, in the service's order. */
  function SearchRescues(rescues: seq<Rescue>, user: int): (r: seq<Rescue>)
    reads rescues
    ensures forall k :: 0 <= k < |r| ==> r[k] in rescues && user in r[k].rescuers
    ensures forall i :: 0 <= i < |rescues| && user in rescues[i].rescuers ==> rescues[i] in r
    ensures |r| <= |rescues|
  {
    if rescues == [] then []
    else
      var rest := SearchRescues(rescues[1..], user);
      assert forall i :: 1 <= i < |rescues| ==> rescues[i] == rescues[1..][i - 1];
      if user in rescues[0].rescuers then [rescues[0]] + rest else rest
  }

  // ---------------------------------------------------------------------------
  // Leaderboards

  /** How often `id` occurs among the first `j` ids of `s`. */
  function Occurrences(s: seq<int>, id: int, j: nat): nat
    requires j <= |s|
  {
    if j == 0 then 0 else Occurrences(s, id, j - 1) + (if s[j - 1] == id then 1 else 0)
  }

  /** How often `id` occurs in the first `n` groups. */
  function Total(groups: seq<seq<int>>, id: int, n: nat): nat
    requires n <= |groups|
  {
    if n == 0 then 0 else Total(groups, id, n - 1) + Occurrences(groups[n - 1], id, |groups[n - 1]|)
  }

  /** `hits.get(id, 0)`. */
  function Count(hits: map<int, int>, id: int): int
  {
    if id in hits then hits[id] else 0
  }

  /** `hits[id] = hits.get(id, 0) + 1`. */
  function Bump(hits: map<int, int>, id: int): map<int, int>
  {
    hits[id := Count(hits, id) + 1]
  }

  /** The hits after counting the first `j` ids of `group` into `hits`. */
  function Tally(hits: map<int, int>, group: seq<int>, j: nat): map<int, int>
    requires j <= |group|
  {
    if j == 0 then hits else Bump(Tally(hits, group, j - 1), group[j - 1])
  }

  /** The hits after counting the first `n` groups. */
  function Hits(groups: seq<seq<int>>, n: nat): map<int, int>
    requires n <= |groups|
  {
    if n == 0 then map[] else Tally(Hits(groups, n - 1), groups[n - 1], |groups[n - 1]|)
  }

  /** Every id in the map has been counted at least once. */
  predicate Positive(hits: map<int, int>)
  {
    forall id :: id in hits ==> hits[id] > 0
  }

  lemma {:induction false} TallyCounts(hits: map<int, int>, group: seq<int>, j: nat)
    requires j <= |group| && Positive(hits)
    ensures Positive(Tally(hits, group, j))
    ensures forall id :: Count(Tally(hits, group, j), id) == Count(hits, id) + Occurrences(group, id, j)
  {
    if j > 0 {
      TallyCounts(hits, group, j - 1);
    }
  }

  /** The hits map counts every id of every group: an id is a key exactly when it occurs. */
  lemma {:induction false} HitsCount(groups: seq<seq<int>>, n: nat)
    requires n <= |groups|
    ensures Positive(Hits(groups, n))
    ensures forall id :: Count(Hits(groups, n), id) == Total(groups, id, n)
    ensures forall id :: id in Hits(groups, n) <==> Total(groups, id, n) > 0
  {
    if n > 0 {
      HitsCount(groups, n - 1);
      TallyCounts(Hits(groups, n - 1), groups[n - 1], |groups[n - 1]|);
    }
  }

  /** The sort key `(-count, id)`: more hits first, then the smaller id. */
  predicate Before(a: (int, int), b: (int, int))
  {
    a.1 > b.1 || (a.1 == b.1 && a.0 < b.0)
  }

  /** In strictly increasing sort-key order. */
  predicate Ranked(board: seq<(int, int)>)
  {
    forall i, j :: 0 <= i < j < |board| ==> Before(board[i], board[j])
  }

  /** `p` placed before the first entry it sorts before. */
  function Insert(p: (int, int), board: seq<(int, int)>): (r: seq<(int, int)>)
    ensures multiset(r) == multiset(board) + multiset{p}
  {
    if board == [] then [p]
    else if Before(p, board[0]) then
      [p] + board
    else
      assert board == [board[0]] + board[1..];
      [board[0]] + Insert(p, board[1..])
  }

  /** Inserting an entry whose id is new keeps the board ranked. */
  lemma {:induction false} InsertRanked(p: (int, int), board: seq<(int, int)>)
    requires Ranked(board) && forall i :: 0 <= i < |board| ==> board[i].0 != p.0
    ensures Ranked(Insert(p, board))
  {
    if board != [] && !Before(p, board[0]) {
      var tail := board[1..];
      assert Ranked(tail) by {
        forall i, j | 0 <= i < j < |tail| ensures Before(tail[i], tail[j]) {
          assert tail[i] == board[i + 1] && tail[j] == board[j + 1];
        }
      }
      InsertRanked(p, tail);
      var rest := Insert(p, tail);
      forall k | 0 <= k < |rest| ensures Before(board[0], rest[k]) {
        assert rest[k] in multiset(rest);
        if rest[k] != p {
          assert rest[k] in multiset(tail);
          var i :| 0 <= i < |tail| && tail[i] == rest[k];
          assert board[i + 1] == rest[k];
        }
      }
      var r := [board[0]] + rest;
      forall i, j | 0 <= i < j < |r| ensures Before(r[i], r[j]) {
        if i == 0 {
          assert r[j] == rest[j - 1];
        } else {
          assert r[i] == rest[i - 1] && r[j] == rest[j - 1];
        }
      }
    } else if board != [] {
      var r := [p] + board;
      forall i, j | 0 <= i < j < |r| ensures Before(r[i], r[j]) {
        if i > 0 {
          assert r[i] == board[i - 1] && r[j] == board[j - 1];
        } else if j > 1 {
          assert Before(board[0], board[j - 1]);
        }
      }
    }
  }

  /** The board holds exactly the entries of the map. */
  ghost predicate Lists(board: seq<(int, int)>, hits: map<int, int>)
  {
    forall id, n :: (id, n) in board <==> id in hits && hits[id] == n
  }

  /** No id occurs twice. */
  predicate IdsDistinct(items: seq<(int, int)>)
  {
    forall i, j :: 0 <= i < j < |items| ==> items[i].0 != items[j].0
  }

  /** `sorted(items, key=lambda x: (-x[1], x[0]))`. */
  function Sort(items: seq<(int, int)>): (r: seq<(int, int)>)
    ensures multiset(r) == multiset(items)
  {
    if items == [] then []
    else
      assert items == items[..|items| - 1] + [items[|items| - 1]];
      Insert(items[|items| - 1], Sort(items[..|items| - 1]))
  }

  /** Entries with distinct ids sort into a strictly ranked board. */
  lemma {:induction false} SortRanked(items: seq<(int, int)>)
    requires IdsDistinct(items)
    ensures Ranked(Sort(items))
  {
    if items != [] {
      var init, last := items[..|items| - 1], items[|items| - 1];
      assert IdsDistinct(init) by {
        forall i, j | 0 <= i < j < |init| ensures init[i].0 != init[j].0 {
          assert init[i] == items[i] && init[j] == items[j];
        }
      }
      SortRanked(init);
      var sorted := Sort(init);
      forall k | 0 <= k < |sorted| ensures sorted[k].0 != last.0 {
        assert sorted[k] in multiset(init);
        var i :| 0 <= i < |init| && init[i] == sorted[k];
        assert items[i] == sorted[k];
      }
      InsertRanked(last, sorted);
    }
  }

  /**
   * The leaderboard of `_restock_leaderboard` and `_rescue_leaderboard`:
   * every id that occurs in a group, with how often it occurs, most hits
   * first and ties by the smaller id.
   */
  method Leaderboard(groups: seq<seq<int>>) returns (board: seq<(int, int)>)
    ensures Ranked(board)
    ensures Lists(board, Hits(groups, |groups|))
  {
    var hits, order := map[], [];
    for i := 0 to |groups|
      invariant hits == Hits(groups, i)
      invariant Order(order, hits)
    {
      var group := groups[i];
      for j := 0 to |group|
        invariant hits == Tally(Hits(groups, i), group, j)
        invariant Order(order, hits)
      {
        var id := group[j];
        if id !in hits {
          order := order + [id];
        }
        hits := hits[id := (if id in hits then hits[id] else 0) + 1];
      }
    }
    var items := ItemsOf(hits, order);
    board := Sort(items);
    SortRanked(items);
    forall id, n ensures (id, n) in board <==> (id, n) in items {
      calc {
        (id, n) in board;
        (id, n) in multiset(board);
        (id, n) in multiset(items);
        (id, n) in items;
      }
    }
  }

  /** The ids of `hits`, each once: the order in which a dictionary keeps its keys. */
  ghost predicate Order(order: seq<int>, hits: map<int, int>)
  {
    Distinct(order) && (forall k :: 0 <= k < |order| ==> order[k] in hits) && forall id :: id in hits ==> id in order
  }

  /** `list(hits.items())`: the entries in the order their ids were first counted. */
  method ItemsOf(hits: map<int, int>, order: seq<int>) returns (items: seq<(int, int)>)
    requires Order(order, hits)
    ensures IdsDistinct(items)
    ensures Lists(items, hits)
  {
    items := [];
    for k := 0 to |order|
      invariant |items| == k && forall i :: 0 <= i < k ==> items[i] == (order[i], hits[order[i]])
    {
      items := items + [(order[k], hits[order[k]])];
    }
    forall id, n | id in hits && hits[id] == n ensures (id, n) in items {
      assert id in order;
      var i :| 0 <= i < |order| && order[i] == id;
      assert items[i] == (id, n);
    }
  }

  /** The groups of ids a list of restocks holds: each one's haulers. */
  function Haulers(restocks: seq<Restock>): (groups: seq<seq<int>>)
    reads restocks
    ensures |groups| == |restocks| && forall i :: 0 <= i < |restocks| ==> groups[i] == restocks[i].haulers
  {
    seq(|restocks|, i requires 0 <= i < |restocks| reads restocks => restocks[i].haulers)
  }

  /** The groups of ids a list of rescues holds: each one's rescuers. */
  function Rescuers(rescues: seq<Rescue>): (groups: seq<seq<int>>)
    reads rescues
    ensures |groups| == |rescues| && forall i :: 0 <= i < |rescues| ==> groups[i] == rescues[i].rescuers
  {
    seq(|rescues|, i requires 0 <= i < |rescues| reads rescues => rescues[i].rescuers)
  }

  /** `_restock_leaderboard`. */
  method RestockLeaderboard(restocks: seq<Restock>) returns (board: seq<(int, int)>)
    ensures Ranked(board)
    ensures Lists(board, Hits(Haulers(restocks), |restocks|))
  {
    board := Leaderboard(Haulers(restocks));
  }

  /** `_rescue_leaderboard`. */
  method RescueLeaderboard(rescues: seq<Rescue>) returns (board: seq<(int, int)>)
    ensures Ranked(board)
    ensures Lists(board, Hits(Rescuers(rescues), |rescues|))
  {
    board := Leaderboard(Rescuers(rescues));
  }

  /**
   * What a leaderboard means: it lists exactly the ids that took part, each
   * with the number of tasks-times they appear in, and no id twice.
   */
  lemma BoardCounts(groups: seq<seq<int>>, board: seq<(int, int)>)
    requires Lists(board, Hits(groups, |groups|))
    ensures forall k :: 0 <= k < |board| ==> board[k].1 == Total(groups, board[k].0, |groups|) > 0
    ensures forall id :: Total(groups, id, |groups|) > 0 ==> exists k :: 0 <= k < |board| && board[k].0 == id
  {
    HitsCount(groups, |groups|);
    var hits := Hits(groups, |groups|);
    forall k | 0 <= k < |board| ensures board[k].1 == Total(groups, board[k].0, |groups|) > 0 {
      var (id, n) := board[k];
      assert (id, n) in board;
      assert Count(hits, id) == hits[id];
    }
    forall id | Total(groups, id, |groups|) > 0 ensures exists k :: 0 <= k < |board| && board[k].0 == id {
      assert id in hits;
      assert (id, hits[id]) in board;
    }
  }
}
