/**
 * Trending-topic ranking, shared by `fetchTrendingTopics` in
 * `src/lib/github/client.ts` and in `src/app/api/trending/route.ts`. A
 * JavaScript `Map<string, number>` counts how often each topic occurs across
 * the searched repositories; its entries, which keep first-insertion order,
 * are sorted by count, largest first (a stable sort), cut to a limit and
 * mapped to their topic.
 */
module TopicRanking {
  import opened Wrappers
  import Seqs
  import Sorting

  /** A `Map<string, number>` as its list of entries, in insertion order. */
  type Counts = seq<(string, nat)>

  function Keys(counts: Counts): (ks: seq<string>)
    ensures |ks| == |counts|
    ensures forall i :: 0 <= i < |counts| ==> ks[i] == counts[i].0
  {
    if counts == [] then [] else [counts[0].0] + Keys(counts[1..])
  }

  /** `map.get(k)`. */
  function Get(counts: Counts, k: string): Option<nat> {
    if counts == [] then None
    else if counts[0].0 == k then Some(counts[0].1)
    else Get(counts[1..], k)
  }

  /** `map.set(k, v)`: an existing key keeps its position, a new key goes last. */
  function Set(counts: Counts, k: string, v: nat): Counts {
    if counts == [] then [(k, v)]
    else if counts[0].0 == k then [(k, v)] + counts[1..]
    else [counts[0]] + Set(counts[1..], k, v)
  }

  /** `map.set(t, (map.get(t) ?? 0) + 1)`: one more occurrence of `t`. */
  function Bump(counts: Counts, t: string): Counts {
    Set(counts, t, Get(counts, t).GetOr(0) + 1)
  }

  /** The counts after the source's loop has seen the topics `ts`, in order. */
  function Tally(ts: seq<string>): Counts {
    if ts == [] then [] else Bump(Tally(ts[..|ts| - 1]), ts[|ts| - 1])
  }

  /** The repositories' topic lists, one after the other. */
  function Flatten(lists: seq<seq<string>>): seq<string> {
    if lists == [] then [] else Flatten(lists[..|lists| - 1]) + lists[|lists| - 1]
  }

  /** The distinct elements of `ts`, in the order of their first occurrence. */
  function Dedup(ts: seq<string>): seq<string> {
    if ts == [] then []
    else
      var front := ts[..|ts| - 1];
      Dedup(front) + (if ts[|ts| - 1] in front then [] else [ts[|ts| - 1]])
  }

  /**
   * The nested `for … of` loops of `fetchTrendingTopics`: every topic of every
   * repository bumps its entry.
   */
  method CountTopics(lists: seq<seq<string>>) returns (counts: Counts)
    ensures counts == Tally(Flatten(lists))
  {
    counts := [];
    var i := 0;
    while i < |lists|
      invariant 0 <= i <= |lists|
      invariant counts == Tally(Flatten(lists[..i]))
    {
      var topics := lists[i];
      ghost var seen := Flatten(lists[..i]);
      var j := 0;
      assert seen + topics[..0] == seen;
      while j < |topics|
        invariant 0 <= j <= |topics|
        invariant counts == Tally(seen + topics[..j])
      {
        TallyExtend(seen, topics, j);
        counts := Set(counts, topics[j], Get(counts, topics[j]).GetOr(0) + 1);
        j := j + 1;
      }
      assert topics[..j] == topics;
      FlattenExtend(lists, i);
      i := i + 1;
    }
    assert lists[..i] == lists;
  }

  lemma TallyPush(ts: seq<string>, t: string)
    ensures Tally(ts + [t]) == Bump(Tally(ts), t)
  {
    assert (ts + [t])[..|ts|] == ts;
  }

  lemma TallyExtend(seen: seq<string>, topics: seq<string>, j: nat)
    requires j < |topics|
    ensures Tally(seen + topics[..j + 1]) == Bump(Tally(seen + topics[..j]), topics[j])
  {
    assert seen + topics[..j + 1] == (seen + topics[..j]) + [topics[j]];
    TallyPush(seen + topics[..j], topics[j]);
  }

  lemma FlattenExtend(lists: seq<seq<string>>, i: nat)
    requires i < |lists|
    ensures Flatten(lists[..i + 1]) == Flatten(lists[..i]) + lists[i]
  {
    assert lists[..i + 1][..i] == lists[..i];
  }

  lemma {:induction false} GetSet(counts: Counts, k: string, v: nat, j: string)
    ensures Get(Set(counts, k, v), j) == if j == k then Some(v) else Get(counts, j)
  {
    if counts != [] && counts[0].0 != k {
      GetSet(counts[1..], k, v, j);
    }
  }

  lemma {:induction false} GetInKeys(counts: Counts, k: string)
    ensures Get(counts, k).Some? <==> k in Keys(counts)
  {
    if counts != [] {
      GetInKeys(counts[1..], k);
      assert Keys(counts) == [counts[0].0] + Keys(counts[1..]);
    }
  }

  lemma {:induction false} KeysSet(counts: Counts, k: string, v: nat)
    ensures Keys(Set(counts, k, v)) == if k in Keys(counts) then Keys(counts) else Keys(counts) + [k]
  {
    assert counts != [] ==> Keys(counts) == [counts[0].0] + Keys(counts[1..]);
    if counts != [] {
      if counts[0].0 == k {
        assert Keys(Set(counts, k, v)) == [k] + Keys(counts[1..]);
      } else {
        KeysSet(counts[1..], k, v);
        assert Keys(Set(counts, k, v)) == [counts[0].0] + Keys(Set(counts[1..], k, v));
      }
    }
  }

  /**
   * Each topic's count is its number of occurrences, a topic that never occurs
   * has no entry, and the entries are the distinct topics in the order they
   * first occur.
   */
  lemma TallyCounts(ts: seq<string>)
    ensures forall k :: Get(Tally(ts), k) == if k in ts then Some(multiset(ts)[k]) else None
    ensures Keys(Tally(ts)) == Dedup(ts)
  {
    forall k ensures Get(Tally(ts), k) == if k in ts then Some(multiset(ts)[k]) else None {
      TallyGet(ts, k);
    }
    TallyKeys(ts);
  }

  lemma {:induction false} TallyGet(ts: seq<string>, k: string)
    ensures Get(Tally(ts), k) == if k in ts then Some(multiset(ts)[k]) else None
  {
    if ts != [] {
      var front := ts[..|ts| - 1];
      var t := ts[|ts| - 1];
      assert ts == front + [t];
      assert multiset(ts)[k] == multiset(front)[k] + (if k == t then 1 else 0);
      assert (k in ts) == (k in front || k == t);
      var c := Tally(front);
      TallyGet(front, k);
      TallyGet(front, t);
      GetSet(c, t, Get(c, t).GetOr(0) + 1, k);
    }
  }

  lemma {:induction false} TallyKeys(ts: seq<string>)
    ensures Keys(Tally(ts)) == Dedup(ts)
  {
    if ts != [] {
      var front := ts[..|ts| - 1];
      var t := ts[|ts| - 1];
      TallyKeys(front);
      var c := Tally(front);
      KeysSet(c, t, Get(c, t).GetOr(0) + 1);
      DedupMembers(front);
    }
  }

  lemma {:induction false} DedupMembers(ts: seq<string>)
    ensures forall x :: x in Dedup(ts) <==> x in ts
    ensures Seqs.Distinct(Dedup(ts))
  {
    if ts != [] {
      var front := ts[..|ts| - 1];
      assert ts == front + [ts[|ts| - 1]];
      DedupMembers(front);
    }
  }

  /** The entries have distinct keys, and each entry's count is its topic's occurrences. */
  lemma TallyEntries(ts: seq<string>)
    ensures Seqs.Distinct(Keys(Tally(ts)))
    ensures forall i :: 0 <= i < |Tally(ts)| ==>
      Tally(ts)[i].0 in ts && Tally(ts)[i].1 == multiset(ts)[Tally(ts)[i].0]
    ensures forall t :: t in ts ==> (t, multiset(ts)[t]) in Tally(ts)
  {
    var c := Tally(ts);
    TallyCounts(ts);
    DedupMembers(ts);
    forall i | 0 <= i < |c| ensures c[i].0 in ts && c[i].1 == multiset(ts)[c[i].0] {
      assert Keys(c)[i] == c[i].0;
      EntryGet(c, i);
    }
    forall t | t in ts ensures (t, multiset(ts)[t]) in c {
      var i :| 0 <= i < |Keys(c)| && Keys(c)[i] == t;
      EntryGet(c, i);
    }
  }

  /** With distinct keys, `get` finds each entry's own count. */
  lemma {:induction false} EntryGet(counts: Counts, i: nat)
    requires Seqs.Distinct(Keys(counts)) && i < |counts|
    ensures Get(counts, counts[i].0) == Some(counts[i].1)
  {
    if i > 0 {
      assert Keys(counts)[0] != Keys(counts)[i];
      assert Keys(counts[1..]) == Keys(counts)[1..];
      EntryGet(counts[1..], i - 1);
    }
  }

  function CountKey(e: (string, nat)): real {
    e.1 as real
  }

  /** `[...counts.entries()].sort((a, b) => b[1] - a[1]).slice(0, limit).map(([t]) => t)`. */
  function Rank(counts: Counts, limit: nat): seq<string> {
    Keys(Seqs.Take(Sorting.SortDesc(counts, CountKey), limit))
  }

  /** The number of occurrences of `t` in `ts`. */
  function Occurrences(ts: seq<string>, t: string): nat {
    multiset(ts)[t]
  }

  /**
   * A sorted cut of the counts of `ts`: ordered by count, drawn from the
   * counts, and nothing left behind has a larger count than something kept.
   */
  ghost predicate RankedPrefix(ts: seq<string>, kept: Counts) {
    && Sorting.SortedDesc(kept, CountKey)
    && multiset(kept) <= multiset(Tally(ts))
    && forall m, k :: m in multiset(Tally(ts)) - multiset(kept) && k in kept ==> CountKey(k) >= CountKey(m)
  }

  lemma RankIsPrefix(ts: seq<string>, limit: nat)
    ensures var kept := Seqs.Take(Sorting.SortDesc(Tally(ts), CountKey), limit);
      && RankedPrefix(ts, kept)
      && |kept| == (if |Dedup(ts)| <= limit then |Dedup(ts)| else limit)
      && Rank(Tally(ts), limit) == Keys(kept)
  {
    var counts := Tally(ts);
    TallyCounts(ts);
    var sorted := Sorting.SortDesc(counts, CountKey);
    var n := if |counts| <= limit then |counts| else limit;
    assert Seqs.Take(sorted, limit) == sorted[..n];
    Sorting.SortedPrefix(counts, sorted, CountKey, n);
  }

  lemma PrefixEntries(ts: seq<string>, kept: Counts)
    requires RankedPrefix(ts, kept)
    ensures forall i :: 0 <= i < |kept| ==> kept[i] in Tally(ts)
    ensures forall i :: 0 <= i < |kept| ==> kept[i].0 in ts && kept[i].1 == Occurrences(ts, kept[i].0)
  {
    forall i | 0 <= i < |kept| ensures kept[i] in Tally(ts) {
      assert kept[i] in multiset(kept);
    }
    TallyEntries(ts);
  }

  lemma PrefixDistinct(ts: seq<string>, kept: Counts)
    requires RankedPrefix(ts, kept)
    ensures Seqs.Distinct(Keys(kept))
  {
    forall i, j | 0 <= i < j < |kept| ensures kept[i].0 != kept[j].0 {
      KeptDistinct(ts, kept, i, j);
    }
  }

  lemma PrefixDominates(ts: seq<string>, kept: Counts)
    requires RankedPrefix(ts, kept)
    ensures forall t, i :: t in ts && t !in Keys(kept) && 0 <= i < |kept| ==>
      Occurrences(ts, t) <= Occurrences(ts, kept[i].0)
  {
    forall t, i | t in ts && t !in Keys(kept) && 0 <= i < |kept|
      ensures Occurrences(ts, t) <= Occurrences(ts, kept[i].0)
    {
      DominatesOne(ts, kept, t, i);
    }
  }

  lemma DominatesOne(ts: seq<string>, kept: Counts, t: string, i: nat)
    requires RankedPrefix(ts, kept)
    requires t in ts && t !in Keys(kept) && i < |kept|
    ensures Occurrences(ts, t) <= Occurrences(ts, kept[i].0)
  {
    var e := (t, multiset(ts)[t]);
    assert e in Tally(ts) by { TallyEntries(ts); }
    forall k | 0 <= k < |kept| ensures kept[k] != e {
      assert Keys(kept)[k] in Keys(kept);
    }
    assert multiset(kept)[e] == 0;
    assert e in multiset(Tally(ts)) - multiset(kept);
    assert kept[i] in kept;
    assert CountKey(kept[i]) >= CountKey(e);
    assert kept[i].1 == Occurrences(ts, kept[i].0) by { PrefixEntries(ts, kept); }
  }

  /**
   * What the ranking of the topics `ts` returns: at most `limit` topics, each
   * one that occurs, none twice, ordered by non-increasing occurrence count;
   * a topic that occurs but is left out occurs no more often than any kept one;
   * and the cut is at `limit` or at the number of distinct topics.
   */
  lemma RankProperties(ts: seq<string>, limit: nat)
    ensures var topics := Rank(Tally(ts), limit);
      && |topics| == (if |Dedup(ts)| <= limit then |Dedup(ts)| else limit)
      && RankedTopics(ts, topics)
  {
    RankIsPrefix(ts, limit);
    var kept := Seqs.Take(Sorting.SortDesc(Tally(ts), CountKey), limit);
    PrefixTopics(ts, kept);
  }

  /** The topic-level reading of a ranked prefix. */
  ghost predicate RankedTopics(ts: seq<string>, topics: seq<string>) {
    && (forall i :: 0 <= i < |topics| ==> topics[i] in ts)
    && Seqs.Distinct(topics)
    && (forall i, j :: 0 <= i < j < |topics| ==> Occurrences(ts, topics[i]) >= Occurrences(ts, topics[j]))
    && (forall t, i :: t in ts && t !in topics && 0 <= i < |topics| ==>
          Occurrences(ts, t) <= Occurrences(ts, topics[i]))
  }

  lemma PrefixTopics(ts: seq<string>, kept: Counts)
    requires RankedPrefix(ts, kept)
    ensures RankedTopics(ts, Keys(kept))
  {
    PrefixEntries(ts, kept);
    PrefixDistinct(ts, kept);
    PrefixDominates(ts, kept);
  }

  lemma EntryIsOccurrence(ts: seq<string>, e: (string, nat))
    requires e in Tally(ts)
    ensures e.1 == Occurrences(ts, e.0)
  {
    TallyEntries(ts);
  }

  /** Two kept entries with the same topic would be the same entry of the counts twice. */
  lemma KeptDistinct(ts: seq<string>, kept: Counts, i: nat, j: nat)
    requires multiset(kept) <= multiset(Tally(ts))
    requires i < j < |kept|
    ensures kept[i].0 != kept[j].0
  {
    var counts := Tally(ts);
    TallyEntries(ts);
    assert kept[i] in multiset(kept) && kept[j] in multiset(kept);
    if kept[i].0 == kept[j].0 {
      EntryIsOccurrence(ts, kept[i]);
      EntryIsOccurrence(ts, kept[j]);
      assert kept[i] == kept[j];
      DistinctKeysOnce(counts, kept[i]);
      TwiceCounted(kept, i, j);
      assert false;
    }
  }

  lemma TwiceCounted<T>(s: seq<T>, i: nat, j: nat)
    requires i < j < |s| && s[i] == s[j]
    ensures multiset(s)[s[i]] >= 2
  {
    assert s == s[..i] + [s[i]] + s[i + 1..j] + [s[j]] + s[j + 1..];
  }

  /** Distinct keys make every entry occur at most once. */
  lemma {:induction false} DistinctKeysOnce(counts: Counts, e: (string, nat))
    requires Seqs.Distinct(Keys(counts))
    ensures multiset(counts)[e] <= 1
  {
    if counts != [] {
      assert counts == [counts[0]] + counts[1..];
      assert Keys(counts[1..]) == Keys(counts)[1..];
      DistinctKeysOnce(counts[1..], e);
      if counts[0] == e {
        forall k | 0 <= k < |counts[1..]| ensures counts[1..][k] != e {
          assert Keys(counts)[0] != Keys(counts)[k + 1];
        }
      }
    }
  }

  /** With a positive limit the ranking is empty exactly when no repository has a topic. */
  lemma RankEmptyIff(ts: seq<string>, limit: nat)
    requires limit > 0
    ensures Rank(Tally(ts), limit) == [] <==> ts == []
  {
    RankProperties(ts, limit);
    DedupMembers(ts);
    if ts != [] {
      assert ts[0] in Dedup(ts);
    }
  }
}
