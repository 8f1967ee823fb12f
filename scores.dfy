/** Leaderboard rules of js/systems/ScoreManager.js: local scores kept sorted
    (score descending, then time ascending) and cut to the top 100, and the
    online list deduplicated by nick, keeping each player's best entry. The
    storage and the network are inputs: `localScores` stands for the
    localStorage list and `online` for what fetchTopScores returned. */
module Scores {

  import opened Common

  datatype Entry = Entry(nick: string, email: string, score: int, wave: int, time: int, timestamp: int)

  /** The player data a caller passes; JSON fields may be missing. */
  datatype PlayerData = PlayerData(nick: Option<string>, email: Option<string>)

  /** `a` may stand before `b`: higher score first, then the faster time. */
  predicate RanksBefore(a: Entry, b: Entry)
  {
    a.score > b.score || (a.score == b.score && a.time <= b.time)
  }

  predicate Sorted(s: seq<Entry>)
  {
    forall i, j :: 0 <= i < j < |s| ==> RanksBefore(s[i], s[j])
  }

  /** Insert before the first entry that `x` ranks before. */
  function Insert(x: Entry, s: seq<Entry>): (r: seq<Entry>)
    ensures multiset(r) == multiset(s) + multiset{x}
  {
    if s == [] then [x]
    else if RanksBefore(x, s[0]) then [x] + s
    else
      assert s == [s[0]] + s[1..];
      [s[0]] + Insert(x, s[1..])
  }

  /** Inserting into a sorted list keeps it sorted. */
  lemma {:induction false} InsertSorted(x: Entry, s: seq<Entry>)
    requires Sorted(s)
    ensures Sorted(Insert(x, s))
  {
    if s != [] && !RanksBefore(x, s[0]) {
      var rest := Insert(x, s[1..]);
      InsertSorted(x, s[1..]);
      forall k | 0 <= k < |rest| ensures RanksBefore(s[0], rest[k]) {
        assert rest[k] in multiset(rest);
        if rest[k] != x {
          assert rest[k] in multiset(s[1..]);
          assert rest[k] in s[1..];
        }
      }
      var r := [s[0]] + rest;
      assert r == Insert(x, s);
      forall i, j | 0 <= i < j < |r| ensures RanksBefore(r[i], r[j]) {
        if i > 0 {
          assert r[i] == rest[i - 1] && r[j] == rest[j - 1];
        }
      }
    }
  }

  /** The comparator sort of the source (a stable sort on this order). */
  function Sort(s: seq<Entry>): (r: seq<Entry>)
    ensures multiset(r) == multiset(s)
    ensures Sorted(r)
  {
    if s == [] then []
    else
      assert s == [s[0]] + s[1..];
      var rest := Sort(s[1..]);
      InsertSorted(s[0], rest);
      Insert(s[0], rest)
  }

  /** Array.prototype.slice(0, end): a negative end counts from the back. */
  function Slice(s: seq<Entry>, end: int): (r: seq<Entry>)
    ensures |r| <= |s|
    ensures end >= 0 ==> |r| == Min(end as real, |s| as real).Floor
    ensures r == s[..|r|]
  {
    if end >= |s| then s
    else if end >= 0 then s[..end]
    else if |s| + end >= 0 then s[..|s| + end]
    else []
  }

  lemma SlicePreservesSorted(s: seq<Entry>, end: int)
    requires Sorted(s)
    ensures Sorted(Slice(s, end))
  {
  }

  /** The nick test of saveScore and findPlayerRank: present and non-empty. */
  function NickOf(pd: Option<PlayerData>): (n: Option<string>)
    ensures n.Some? ==> n.value != ""
    ensures n.None? <==> pd.None? || pd.value.nick.None? || pd.value.nick.value == ""
  {
    if pd.Some? && pd.value.nick.Some? && pd.value.nick.value != "" then pd.value.nick else None
  }

  /** `x.email || ''`. */
  function EmailOf(pd: PlayerData): string
  {
    if pd.email.Some? then pd.email.value else ""
  }

  /** `r` holds the best entries of `pool`: it is drawn from the pool, and
      every entry left out ranks no higher than every entry kept. */
  predicate KeepsTop(r: seq<Entry>, pool: multiset<Entry>)
  {
    multiset(r) <= pool &&
    forall x, y :: x in r && y in pool - multiset(r) ==> RanksBefore(x, y)
  }

  /** Local leaderboard rule: the stored list after saving `e` holds the
      best 100 of the old entries and `e`, sorted. */
  function StoreScore(stored: seq<Entry>, e: Entry): (r: seq<Entry>)
    ensures |r| == if |stored| + 1 < 100 then |stored| + 1 else 100
    ensures Sorted(r)
    ensures KeepsTop(r, multiset(stored + [e]))
    ensures |stored| < 100 ==> multiset(r) == multiset(stored) + multiset{e}
    ensures forall x :: x in r ==> x in stored || x == e
  {
    var all := Sort(stored + [e]);
    assert forall x :: x in all ==> x in multiset(stored + [e]);
    var r := Slice(all, 100);
    TopOfSorted(all, |r|);
    r
  }

  /** A prefix of a sorted list keeps the top of it. */
  lemma TopOfSorted(all: seq<Entry>, n: nat)
    requires Sorted(all) && n <= |all|
    ensures KeepsTop(all[..n], multiset(all))
  {
    assert all == all[..n] + all[n..];
    assert multiset(all) == multiset(all[..n]) + multiset(all[n..]);
    assert multiset(all) - multiset(all[..n]) == multiset(all[n..]);
    forall x, y | x in all[..n] && y in multiset(all) - multiset(all[..n])
      ensures RanksBefore(x, y)
    {
      var i :| 0 <= i < n && all[..n][i] == x;
      assert y in all[n..];
      var j :| 0 <= j < |all| - n && all[n..][j] == y;
      assert all[i] == x && all[n + j] == y;
    }
  }

  /** `a` beats the kept entry `b` of the same nick. */
  predicate Better(a: Entry, b: Entry)
  {
    a.score > b.score || (a.score == b.score && a.time < b.time)
  }

  /** One forEach step of the deduplication: skip non-positive scores, keep
      the first entry of a nick and replace it only by a better one. */
  function Step(m: map<string, Entry>, e: Entry): map<string, Entry>
  {
    if e.score <= 0 then m
    else if e.nick !in m || Better(e, m[e.nick]) then m[e.nick := e]
    else m
  }

  /** The map after the forEach over `s`. */
  function BestByNick(s: seq<Entry>): (m: map<string, Entry>)
    ensures forall k :: k in m ==> m[k].nick == k && m[k].score > 0 && m[k] in s
  {
    if s == [] then map[] else Step(BestByNick(s[..|s| - 1]), s[|s| - 1])
  }

  /** The Map's key order: nicks in the order of their first kept entry. */
  function NickOrder(s: seq<Entry>): (order: seq<string>)
    ensures |order| <= |s|
    ensures forall k :: k in order ==> k in BestByNick(s)
  {
    if s == [] then []
    else
      var prev := NickOrder(s[..|s| - 1]);
      var e := s[|s| - 1];
      if e.score > 0 && e.nick !in BestByNick(s[..|s| - 1]) then prev + [e.nick] else prev
  }

  predicate DistinctNicks(s: seq<Entry>)
  {
    forall i, j :: 0 <= i < j < |s| ==> s[i].nick != s[j].nick
  }

  /** Every kept entry comes from the input under its own nick, with a
      positive score, and none of the input beats it. */
  lemma {:induction false} BestByNickIsBest(s: seq<Entry>)
    ensures forall k :: k in BestByNick(s) ==>
              BestByNick(s)[k].nick == k && BestByNick(s)[k] in s && BestByNick(s)[k].score > 0
    ensures forall e :: e in s && e.score > 0 ==>
              e.nick in BestByNick(s) && !Better(e, BestByNick(s)[e.nick])
    ensures forall e :: e in s && e.score <= 0 ==> e !in BestByNick(s).Values
  {
    if s != [] {
      var p := s[..|s| - 1];
      BestByNickIsBest(p);
      assert s == p + [s[|s| - 1]];
    }
  }

  /** On a full tie the first entry seen stays: no earlier entry of the same
      nick is as good as the kept one. */
  lemma {:induction false} BestByNickFirstOnTie(s: seq<Entry>, k: string)
    requires k in BestByNick(s)
    ensures exists j :: 0 <= j < |s| && BestByNick(s)[k] == s[j] &&
              forall i :: 0 <= i < j && s[i].nick == k && s[i].score > 0 ==> Better(s[j], s[i])
  {
    var p := s[..|s| - 1];
    var e := s[|s| - 1];
    var m := BestByNick(p);
    assert BestByNick(s) == Step(m, e);
    if e.score > 0 && e.nick == k && (k !in m || Better(e, m[k])) {
      var j := |s| - 1;
      forall i | 0 <= i < j && s[i].nick == k && s[i].score > 0
        ensures Better(s[j], s[i])
      {
        assert s[i] == p[i];
        KeptBeatsEarlier(p, i);
      }
      assert BestByNick(s)[k] == s[j];
    } else {
      assert k in m && BestByNick(s)[k] == m[k];
      BestByNickFirstOnTie(p, k);
      var j :| 0 <= j < |p| && m[k] == p[j] &&
               forall i :: 0 <= i < j && p[i].nick == k && p[i].score > 0 ==> Better(p[j], p[i]);
      assert s[j] == p[j];
      assert forall i :: 0 <= i < j ==> s[i] == p[i];
    }
  }

  /** An entry of `p` with a positive score has its nick kept, by an entry
      it does not beat. */
  lemma KeptBeatsEarlier(p: seq<Entry>, i: int)
    requires 0 <= i < |p| && p[i].score > 0
    ensures p[i].nick in BestByNick(p) && !Better(p[i], BestByNick(p)[p[i].nick])
  {
    BestByNickIsBest(p);
    assert p[i] in p;
  }

  /** The key order lists each kept nick exactly once. */
  lemma {:induction false} NickOrderIsKeys(s: seq<Entry>)
    ensures forall i, j :: 0 <= i < j < |NickOrder(s)| ==> NickOrder(s)[i] != NickOrder(s)[j]
    ensures forall k :: k in NickOrder(s) <==> k in BestByNick(s)
  {
    if s != [] {
      NickOrderIsKeys(s[..|s| - 1]);
    }
  }

  /** Array.from(map.values()) in key order. */
  function ValuesInOrder(m: map<string, Entry>, order: seq<string>): (r: seq<Entry>)
    requires forall k :: k in order ==> k in m
    ensures |r| == |order|
    ensures forall i :: 0 <= i < |order| ==> r[i] == m[order[i]]
  {
    if order == [] then [] else [m[order[0]]] + ValuesInOrder(m, order[1..])
  }

  /** Distinct nicks survive any permutation. */
  lemma DistinctNicksPermutation(a: seq<Entry>, b: seq<Entry>)
    requires multiset(a) == multiset(b)
    requires DistinctNicks(a)
    ensures DistinctNicks(b)
  {
    forall i, j | 0 <= i < j < |b| ensures b[i].nick != b[j].nick {
      if b[i].nick == b[j].nick {
        assert b[i] in multiset(a) && b[j] in multiset(a);
        var i' :| 0 <= i' < |a| && a[i'] == b[i];
        var j' :| 0 <= j' < |a| && a[j'] == b[j];
        assert i' == j';
        assert multiset(b)[b[i]] >= 2 by {
          assert b == b[..i] + [b[i]] + b[i + 1..j] + [b[j]] + b[j + 1..];
        }
        OnlyOnce(a, i');
        assert false;
      }
    }
  }

  /** With distinct nicks, each entry occurs once. */
  lemma OnlyOnce(a: seq<Entry>, i: int)
    requires DistinctNicks(a) && 0 <= i < |a|
    ensures multiset(a)[a[i]] == 1
  {
    assert a == a[..i] + [a[i]] + a[i + 1..];
    assert a[i] !in a[..i];
    assert a[i] !in a[i + 1..];
    assert multiset(a[..i])[a[i]] == 0;
    assert multiset(a[i + 1..])[a[i]] == 0;
  }

  /** The deduplicated leaderboard: the kept entries in key order, sorted. */
  function UniqueNickBoard(online: seq<Entry>): (r: seq<Entry>)
    ensures Sorted(r)
  {
    NickOrderIsKeys(online);
    Sort(ValuesInOrder(BestByNick(online), NickOrder(online)))
  }

  /** The values listed in key order carry distinct nicks and are the
      kept entries. */
  lemma KeptValues(online: seq<Entry>)
    ensures forall k :: k in NickOrder(online) ==> k in BestByNick(online)
    ensures DistinctNicks(ValuesInOrder(BestByNick(online), NickOrder(online)))
    ensures forall x :: x in ValuesInOrder(BestByNick(online), NickOrder(online)) ==>
              x in online && x.score > 0 && x.nick in BestByNick(online) && x == BestByNick(online)[x.nick]
  {
    NickOrderIsKeys(online);
    BestByNickIsBest(online);
    var m := BestByNick(online);
    var order := NickOrder(online);
    var values := ValuesInOrder(m, order);
    forall i | 0 <= i < |values| ensures values[i].nick == order[i] {
      assert values[i] == m[order[i]];
    }
  }

  /** One entry per nick, each the best of its nick in the input. */
  lemma UniqueNickBoardKeepsBest(online: seq<Entry>)
    ensures DistinctNicks(UniqueNickBoard(online))
    ensures forall x :: x in UniqueNickBoard(online) ==>
              x in online && x.score > 0 && x.nick in BestByNick(online) && x == BestByNick(online)[x.nick]
  {
    KeptValues(online);
    var values := ValuesInOrder(BestByNick(online), NickOrder(online));
    var r := UniqueNickBoard(online);
    assert r == Sort(values);
    DistinctNicksPermutation(values, r);
    forall x | x in r
      ensures x in values
    {
      assert x in multiset(r);
    }
  }

  /** Every player with a positive score is on the board, no better there
      than the entry kept for them. */
  lemma UniqueNickBoardCoversPlayers(online: seq<Entry>)
    ensures forall e :: e in online && e.score > 0 ==>
              exists x :: x in UniqueNickBoard(online) && x.nick == e.nick && !Better(e, x)
  {
    NickOrderIsKeys(online);
    BestByNickIsBest(online);
    var m := BestByNick(online);
    var order := NickOrder(online);
    var values := ValuesInOrder(m, order);
    var r := UniqueNickBoard(online);
    forall e | e in online && e.score > 0
      ensures exists x :: x in r && x.nick == e.nick && !Better(e, x)
    {
      var i :| 0 <= i < |order| && order[i] == e.nick;
      assert values[i] in multiset(values);
      assert values[i] in r;
    }
  }

  class ScoreManager {
    /** The list kept under the local storage key. */
    var localScores: seq<Entry>
    /** The deduplicated online list of the last successful fetch, if any. */
    var onlineScoresCache: Option<seq<Entry>>

    constructor (stored: seq<Entry>)
      ensures localScores == stored && onlineScoresCache == None
    {
      localScores := stored;
      onlineScoresCache := None;
    }

    /** saveScore: refuse missing player data, a missing or empty nick and
        scores of zero or below; otherwise store the entry and keep the
        sorted top 100. */
    method SaveScore(pd: Option<PlayerData>, score: int, wave: int, time: int, now: int)
      returns (saved: Option<Entry>)
      modifies this`localScores
      ensures NickOf(pd).None? || score <= 0 ==> saved == None && localScores == old(localScores)
      ensures NickOf(pd).Some? && score > 0 ==>
                saved == Some(Entry(NickOf(pd).value, EmailOf(pd.value), score, wave, time, now)) &&
                localScores == StoreScore(old(localScores), saved.value)
      ensures saved.Some? ==> Sorted(localScores) && KeepsTop(localScores, multiset(old(localScores) + [saved.value]))
    {
      if pd.None? {
        return None;
      }
      if pd.value.nick.None? || pd.value.nick.value == "" {
        return None;
      }
      if score <= 0 {
        return None;
      }
      var newScore := Entry(pd.value.nick.value, EmailOf(pd.value), score, wave, time, now);
      var scores := localScores + [newScore];
      scores := Sort(scores);
      localScores := Slice(scores, 100);
      return Some(newScore);
    }

    /** The fetch size: three times the limit, at least 300. */
    static function FetchLimit(limit: int): (n: int)
      ensures n >= 300 && n >= 3 * limit
      ensures n == 300 || n == 3 * limit
    {
      if limit * 3 >= 300 then limit * 3 else 300
    }

    /** getTopScoresUniqueNicks with the fetched list as input (None when the
        fetch failed): deduplicate, sort, cache the whole list and return its
        first `limit` entries. */
    method TopScoresUniqueNicks(online: Option<seq<Entry>>, limit: int) returns (top: seq<Entry>)
      modifies this`onlineScoresCache
      ensures online.None? || online.value == [] ==>
                top == [] && onlineScoresCache == old(onlineScoresCache)
      ensures online.Some? && online.value != [] ==>
                onlineScoresCache == Some(UniqueNickBoard(online.value)) &&
                top == Slice(UniqueNickBoard(online.value), limit)
    {
      if online.None? || online.value == [] {
        return [];
      }
      var s := online.value;
      var m: map<string, Entry> := map[];
      var order: seq<string> := [];
      for i := 0 to |s|
        invariant m == BestByNick(s[..i])
        invariant order == NickOrder(s[..i])
      {
        assert s[..i + 1][..i] == s[..i];
        var e := s[i];
        if e.score > 0 {
          if e.nick !in m {
            order := order + [e.nick];
            m := m[e.nick := e];
          } else if Better(e, m[e.nick]) {
            m := m[e.nick := e];
          }
        }
      }
      assert s[..|s|] == s;
      NickOrderIsKeys(s);
      var unique := ValuesInOrder(m, order);
      unique := Sort(unique);
      onlineScoresCache := Some(unique);
      top := Slice(unique, limit);
    }

    /** getTopScoresUniqueNicksSync: nothing without a cache, else its prefix. */
    function TopScoresUniqueNicksSync(limit: int): (r: seq<Entry>)
      reads this
      ensures onlineScoresCache.None? ==> r == []
      ensures onlineScoresCache.Some? ==> r == Slice(onlineScoresCache.value, limit)
      ensures limit >= 0 ==> |r| <= limit
    {
      if onlineScoresCache.None? || onlineScoresCache.value == [] then []
      else Slice(onlineScoresCache.value, limit)
    }

    /** findPlayerRank: the 1-based position of the player's nick in the
        cached board, or None for invalid data, a score of zero or below,
        no cache, or a nick not on the board. */
    method FindPlayerRank(pd: Option<PlayerData>, score: int) returns (found: Option<(int, Entry)>)
      ensures NickOf(pd).None? || score <= 0 || onlineScoresCache.None? ==> found == None
      ensures found.Some? ==>
                var (rank, e) := found.value;
                var cache := onlineScoresCache.value;
                1 <= rank <= |cache| && cache[rank - 1] == e && e.nick == NickOf(pd).value &&
                forall j :: 0 <= j < rank - 1 ==> cache[j].nick != e.nick
      ensures found.None? && NickOf(pd).Some? && score > 0 && onlineScoresCache.Some? ==>
                forall j :: 0 <= j < |onlineScoresCache.value| ==>
                  onlineScoresCache.value[j].nick != NickOf(pd).value
    {
      if pd.None? || pd.value.nick.None? || pd.value.nick.value == "" {
        return None;
      }
      if score <= 0 {
        return None;
      }
      if onlineScoresCache.None? || onlineScoresCache.value == [] {
        return None;
      }
      var cache := onlineScoresCache.value;
      var nick := pd.value.nick.value;
      var i := 0;
      while i < |cache|
        invariant 0 <= i <= |cache|
        invariant forall j :: 0 <= j < i ==> cache[j].nick != nick
      {
        if cache[i].nick == nick {
          return Some((i + 1, cache[i]));
        }
        i := i + 1;
      }
      return None;
    }
  }
}
