/** The bounded window of finished occurrences kept in the execution journal.

    A Python dict is a sequence of entries with distinct ids, in insertion order. */
module Dedup {
  import opened Domain
  import opened Sorting

  datatype Entry = Entry(id: OccurrenceId, at: Instant)

  predicate Contains(c: seq<Entry>, id: OccurrenceId) {
    exists k :: 0 <= k < |c| && c[k].id == id
  }

  predicate DistinctIds(c: seq<Entry>) {
    forall i, j :: 0 <= i < j < |c| ==> c[i].id != c[j].id
  }

  const BY_TIME: (Entry, Entry) -> bool := (a: Entry, b: Entry) => a.at <= b.at

  /** Dict assignment: an existing key keeps its place. */
  function Put(c: seq<Entry>, id: OccurrenceId, at: Instant): seq<Entry> {
    if c == [] then [Entry(id, at)]
    else if c[0].id == id then [Entry(id, at)] + c[1..]
    else [c[0]] + Put(c[1..], id, at)
  }

  function Without(c: seq<Entry>, id: OccurrenceId): seq<Entry> {
    if c == [] then []
    else if c[0].id == id then c[1..]
    else [c[0]] + Without(c[1..], id)
  }

  function WithoutAll(c: seq<Entry>, doomed: seq<Entry>): seq<Entry>
    decreases |doomed|
  {
    if doomed == [] then c else WithoutAll(Without(c, doomed[0].id), doomed[1..])
  }

  /** The entries beyond the bound, oldest first. */
  function Oldest(c: seq<Entry>): seq<Entry>
    requires |c| >= DEDUP_MAX_OCCURRENCES
  {
    Sort(BY_TIME, c)[..|c| - DEDUP_MAX_OCCURRENCES]
  }

  /** Record a finish, then evict the oldest entries beyond the bound. */
  function Record(c: seq<Entry>, id: OccurrenceId, at: Instant): seq<Entry> {
    var c1 := Put(c, id, at);
    if |c1| > DEDUP_MAX_OCCURRENCES then WithoutAll(c1, Oldest(c1)) else c1
  }

  // ---------------------------------------------------------------------
  // What the window keeps

  lemma {:induction false} PutNew(c: seq<Entry>, id: OccurrenceId, at: Instant)
    requires !Contains(c, id)
    ensures Put(c, id, at) == c + [Entry(id, at)]
  {
    if c != [] {
      assert c[0].id != id;
      ContainsSplit(c, id);
      PutNew(c[1..], id, at);
      assert c == [c[0]] + c[1..];
    }
  }

  lemma {:induction false} PutOld(c: seq<Entry>, id: OccurrenceId, at: Instant)
    requires Contains(c, id)
    ensures |Put(c, id, at)| == |c| && Contains(Put(c, id, at), id)
  {
    if c[0].id == id {
      assert Put(c, id, at)[0].id == id;
    } else {
      var k :| 0 <= k < |c| && c[k].id == id;
      assert c[1..][k - 1].id == id;
      PutOld(c[1..], id, at);
      var i :| 0 <= i < |Put(c[1..], id, at)| && Put(c[1..], id, at)[i].id == id;
      assert Put(c, id, at)[i + 1].id == id;
    }
  }

  lemma {:induction false} WithoutContains(c: seq<Entry>, gone: OccurrenceId, id: OccurrenceId)
    requires DistinctIds(c)
    ensures Contains(Without(c, gone), id) <==> Contains(c, id) && id != gone
  {
    if c != [] {
      WithoutContains(c[1..], gone, id);
      assert Contains(c, id) <==> c[0].id == id || Contains(c[1..], id) by { ContainsSplit(c, id); }
      if c[0].id == gone {
        assert !Contains(c[1..], gone);
      } else {
        ContainsSplit(Without(c, gone), id);
        assert Without(c, gone)[1..] == Without(c[1..], gone);
      }
    }
  }

  lemma ContainsSplit(c: seq<Entry>, id: OccurrenceId)
    requires c != []
    ensures Contains(c, id) <==> c[0].id == id || Contains(c[1..], id)
  {
    if k :| 0 <= k < |c| && c[k].id == id {
      if k > 0 { assert c[1..][k - 1].id == id; }
    }
    if k :| 0 <= k < |c[1..]| && c[1..][k].id == id { assert c[k + 1].id == id; }
  }

  /** The new entry is the first to go exactly when it is strictly older than all others. */
  lemma {:induction false} NewestGoesFirst(c: seq<Entry>, e: Entry)
    requires !Contains(c, e.id)
    ensures Sort(BY_TIME, c + [e])[0] == e <==> forall k :: 0 <= k < |c| ==> e.at < c[k].at
    ensures Sort(BY_TIME, c + [e])[0] == e || Sort(BY_TIME, c + [e])[0] in c
  {
    if c != [] {
      var rest := c[1..];
      assert (c + [e])[1..] == rest + [e] && c[0].id != e.id;
      assert !Contains(rest, e.id) by { ContainsSplit(c, e.id); }
      NewestGoesFirst(rest, e);
      var head := Sort(BY_TIME, rest + [e])[0];
      assert Sort(BY_TIME, c + [e])[0] == if c[0].at <= head.at then c[0] else head;
      assert forall k :: 0 <= k < |c| ==> c[k] == if k == 0 then c[0] else rest[k - 1];
    }
  }

  /** A finish stays recorded exactly if there is room, or it is not older than everything. */
  lemma NewestSurvives(c: seq<Entry>, id: OccurrenceId, at: Instant)
    requires DistinctIds(c) && |c| <= DEDUP_MAX_OCCURRENCES
    ensures Contains(Record(c, id, at), id) <==>
      Contains(c, id) || |c| < DEDUP_MAX_OCCURRENCES || exists k :: 0 <= k < |c| && c[k].at <= at
  {
    var e := Entry(id, at);
    if Contains(c, id) {
      PutOld(c, id, at);
    } else {
      PutNew(c, id, at);
      assert (c + [e])[|c|].id == id;
      if |c| == DEDUP_MAX_OCCURRENCES {
        NewestGoesFirst(c, e);
        var first := Sort(BY_TIME, c + [e])[0];
        assert Oldest(c + [e]) == [first];
        assert WithoutAll(c + [e], [first]) == Without(c + [e], first.id);
        assert DistinctIds(c + [e]);
        WithoutContains(c + [e], first.id, id);
        if first != e { assert first in c; assert first.id != id; }
      }
    }
  }

  predicate TimesNondecreasing(c: seq<Entry>) {
    forall i, j :: 0 <= i < j < |c| ==> c[i].at <= c[j].at
  }

  /** The window after a history of finishes. */
  function Window(history: seq<Entry>): seq<Entry> {
    if history == [] then []
    else
      var n := |history| - 1;
      Record(Window(history[..n]), history[n].id, history[n].at)
  }

  function Latest(history: seq<Entry>): seq<Entry> {
    if |history| <= DEDUP_MAX_OCCURRENCES then history else history[|history| - DEDUP_MAX_OCCURRENCES..]
  }

  /** A later finish of another occurrence is appended; over the bound, the first entry goes. */
  lemma RecordSlides(c: seq<Entry>, e: Entry)
    requires DistinctIds(c + [e]) && TimesNondecreasing(c + [e]) && |c| <= DEDUP_MAX_OCCURRENCES
    ensures Record(c, e.id, e.at) == if |c| < DEDUP_MAX_OCCURRENCES then c + [e] else (c + [e])[1..]
  {
    var c1 := c + [e];
    assert !Contains(c, e.id) by {
      assert c1[|c|] == e;
      assert forall k :: 0 <= k < |c| ==> c1[k] == c[k];
    }
    PutNew(c, e.id, e.at);
    if |c| == DEDUP_MAX_OCCURRENCES {
      SortIdentity(BY_TIME, c1);
      hide Sort;
      assert Oldest(c1) == [c1[0]];
      assert WithoutAll(c1, [c1[0]]) == Without(c1, c1[0].id) by { assert [c1[0]][1..] == []; }
    }
  }

  /** While no occurrence finishes twice and the clock never goes back, the window slides
      along the history: it is the last 500 entries, in order. */
  lemma {:induction false} WindowSlides(history: seq<Entry>)
    requires DistinctIds(history) && TimesNondecreasing(history)
    ensures Window(history) == Latest(history)
  {
    if history != [] {
      var n := |history| - 1;
      WindowSlides(history[..n]);
      LatestExtends(history);
      hide Record, Window, Latest, DistinctIds, TimesNondecreasing;
      RecordSlides(Latest(history[..n]), history[n]);
      WindowStep(history);
    }
  }

  lemma LatestExtends(history: seq<Entry>)
    requires DistinctIds(history) && TimesNondecreasing(history) && history != []
    ensures var n := |history| - 1;
      var c := Latest(history[..n]);
      && |c| <= DEDUP_MAX_OCCURRENCES
      && DistinctIds(c + [history[n]]) && TimesNondecreasing(c + [history[n]])
      && Latest(history) == if |c| < DEDUP_MAX_OCCURRENCES then c + [history[n]] else (c + [history[n]])[1..]
  {
    var n := |history| - 1;
    var c := Latest(history[..n]);
    assert c + [history[n]] == if n < DEDUP_MAX_OCCURRENCES then history else history[n - DEDUP_MAX_OCCURRENCES..];
  }

  lemma {:induction false} WindowStep(history: seq<Entry>)
    requires history != []
    ensures var n := |history| - 1;
      Window(history) == Record(Window(history[..n]), history[n].id, history[n].at)
  {}

  // ---------------------------------------------------------------------
  // Occurrences that finish more than once

  /** When each occurrence finished last. */
  function LastFinish(history: seq<Entry>): map<OccurrenceId, Instant> {
    if history == [] then map[]
    else
      var n := |history| - 1;
      LastFinish(history[..n])[history[n].id := history[n].at]
  }

  /** The window holds the last finishes of as many occurrences as it may, and of none that
      finished before one it does not hold. */
  predicate HoldsLatest(w: seq<Entry>, last: map<OccurrenceId, Instant>) {
    && DistinctIds(w)
    && |w| == Min(|last|, DEDUP_MAX_OCCURRENCES)
    && (forall e :: e in w ==> e.id in last && last[e.id] == e.at)
    && (forall id, e :: id in last && !Contains(w, id) && e in w ==> last[id] <= e.at)
  }

  lemma {:induction false} LastFinishIs(history: seq<Entry>, k: nat)
    requires k < |history|
    requires forall i :: k < i < |history| ==> history[i].id != history[k].id
    ensures history[k].id in LastFinish(history) && LastFinish(history)[history[k].id] == history[k].at
  {
    var n := |history| - 1;
    if k < n { LastFinishIs(history[..n], k); }
  }

  lemma {:induction false} PutEntries(c: seq<Entry>, id: OccurrenceId, at: Instant)
    requires DistinctIds(c)
    ensures var r := Put(c, id, at);
      && DistinctIds(r) && |r| == |c| + (if Contains(c, id) then 0 else 1)
      && (forall e :: e in r <==> e == Entry(id, at) || (e in c && e.id != id))
  {
    if c != [] {
      ContainsSplit(c, id);
      assert c == [c[0]] + c[1..];
      var r := Put(c, id, at);
      if c[0].id == id {
        assert forall e :: e in c[1..] ==> e.id != id;
      } else {
        PutEntries(c[1..], id, at);
        var rest := Put(c[1..], id, at);
        forall k | 0 <= k < |rest| ensures rest[k].id != c[0].id { assert rest[k] in rest; }
      }
    }
  }

  lemma {:induction false} WithoutEntries(c: seq<Entry>, gone: Entry)
    requires DistinctIds(c) && gone in c
    ensures var r := Without(c, gone.id);
      DistinctIds(r) && |r| == |c| - 1 && (forall e :: e in r <==> e in c && e != gone)
  {
    assert c == [c[0]] + c[1..];
    if c[0].id == gone.id {
      assert c[0] == gone;
      assert forall e :: e in c[1..] ==> e.id != gone.id;
    } else {
      WithoutEntries(c[1..], gone);
      var rest := Without(c[1..], gone.id);
      forall k | 0 <= k < |rest| ensures rest[k].id != c[0].id { assert rest[k] in rest; }
    }
  }

  /** The i-th entry is the first of the oldest. */
  predicate FirstOldest(c: seq<Entry>, i: nat)
    requires i < |c|
  {
    (forall k :: 0 <= k < |c| ==> c[i].at <= c[k].at) && (forall k :: 0 <= k < i ==> c[i].at < c[k].at)
  }

  lemma {:induction false} SortedHead(c: seq<Entry>) returns (i: nat)
    requires c != []
    ensures i < |c| && FirstOldest(c, i) && Sort(BY_TIME, c)[0] == c[i]
  {
    if |c| == 1 {
      i := 0;
      assert Sort(BY_TIME, c[1..]) == [];
    } else {
      var k := SortedHead(c[1..]);
      var head := Sort(BY_TIME, c[1..])[0];
      assert Sort(BY_TIME, c)[0] == if c[0].at <= head.at then c[0] else head;
      i := if c[0].at <= head.at then 0 else k + 1;
      assert forall m :: 0 < m < |c| ==> c[m] == c[1..][m - 1];
    }
  }

  /** Over the bound the first of the oldest entries goes, in the order of the dictionary. */
  lemma {:induction false} FirstOldestGoes(c: seq<Entry>, id: OccurrenceId, at: Instant) returns (i: nat)
    requires DistinctIds(c) && |c| == DEDUP_MAX_OCCURRENCES && !Contains(c, id)
    ensures i < |c| + 1 && FirstOldest(c + [Entry(id, at)], i)
    ensures Record(c, id, at) == Without(c + [Entry(id, at)], (c + [Entry(id, at)])[i].id)
  {
    PutNew(c, id, at);
    var c1 := c + [Entry(id, at)];
    i := SortedHead(c1);
    SortPermutes(BY_TIME, c1);
    hide Sort;
    assert Oldest(c1) == [c1[i]];
    assert WithoutAll(c1, [c1[i]]) == Without(c1, c1[i].id) by { assert [c1[i]][1..] == []; }
  }

  lemma {:induction false} RecordHoldsLatest(c: seq<Entry>, last: map<OccurrenceId, Instant>, e: Entry)
    requires HoldsLatest(c, last) && forall id :: id in last ==> last[id] <= e.at
    ensures HoldsLatest(Record(c, e.id, e.at), last[e.id := e.at])
  {
    if Contains(c, e.id) || |c| < DEDUP_MAX_OCCURRENCES {
      PutHoldsLatest(c, last, e);
    } else {
      var i := FirstOldestGoes(c, e.id, e.at);
      hide HoldsLatest, Record, FirstOldest;
      EvictHoldsLatest(c, last, e, i);
    }
  }

  /** There is room: nothing is evicted. */
  lemma {:induction false} PutHoldsLatest(c: seq<Entry>, last: map<OccurrenceId, Instant>, e: Entry)
    requires HoldsLatest(c, last) && forall id :: id in last ==> last[id] <= e.at
    requires Contains(c, e.id) || |c| < DEDUP_MAX_OCCURRENCES
    ensures HoldsLatest(Record(c, e.id, e.at), last[e.id := e.at])
  {
    var r, last1 := Put(c, e.id, e.at), last[e.id := e.at];
    PutEntries(c, e.id, e.at);
    KeysGrow(last, e);
    ContainsIn(c, e.id);
    if !Contains(c, e.id) { AllHeld(c, last); }
    assert Record(c, e.id, e.at) == r;
    hide Put, Record, Contains;
    forall id, x | id in last1 && !Contains(r, id) && x in r ensures last1[id] <= x.at {
      ContainsIn(r, id);
      ContainsIn(c, id);
    }
  }

  /** What is left when the first of the oldest has gone. */
  lemma {:induction false} Evicted(c: seq<Entry>, e: Entry, i: nat)
    requires DistinctIds(c) && !Contains(c, e.id) && i < |c| + 1 && FirstOldest(c + [e], i)
    ensures var (c1, r) := (c + [e], Without(c + [e], (c + [e])[i].id));
      && DistinctIds(r) && |r| == |c|
      && (forall x :: x in c1 <==> x == e || x in c)
      && (forall x :: x in r <==> x in c1 && x != c1[i])
      && (forall x :: x in c1 ==> c1[i].at <= x.at)
  {
    var c1 := c + [e];
    PutNew(c, e.id, e.at);
    PutEntries(c, e.id, e.at);
    assert e == Entry(e.id, e.at);
    hide Put;
    WithoutEntries(c1, c1[i]);
    hide Without, DistinctIds;
    ContainsIn(c, e.id);
    forall x | x in c1 ensures c1[i].at <= x.at {
      var k :| 0 <= k < |c1| && c1[k] == x;
    }
  }

  /** The window is full: the first of the oldest goes. */
  lemma {:induction false} EvictHoldsLatest(c: seq<Entry>, last: map<OccurrenceId, Instant>, e: Entry, i: nat)
    requires HoldsLatest(c, last) && forall id :: id in last ==> last[id] <= e.at
    requires !Contains(c, e.id) && |c| == DEDUP_MAX_OCCURRENCES && i < |c| + 1
    requires FirstOldest(c + [e], i) && Record(c, e.id, e.at) == Without(c + [e], (c + [e])[i].id)
    ensures HoldsLatest(Record(c, e.id, e.at), last[e.id := e.at])
  {
    var c1, r, last1 := c + [e], Record(c, e.id, e.at), last[e.id := e.at];
    hide Record, Without, Contains, DistinctIds, FirstOldest, Put;
    Evicted(c, e, i);
    KeysGrow(last, e);
    ContainsIn(c, e.id);
    assert c1[i] in c1;
    forall id, x | id in last1 && !Contains(r, id) && x in r ensures last1[id] <= x.at {
      LostFinishedEarlier(c, last, e, c1, c1[i], r, id, x);
    }
    assert forall x :: x in r ==> x.id in last1 && last1[x.id] == x.at;
  }

  lemma LostFinishedEarlier(c: seq<Entry>, last: map<OccurrenceId, Instant>, e: Entry, c1: seq<Entry>, gone: Entry,
                            r: seq<Entry>, id: OccurrenceId, x: Entry)
    requires HoldsLatest(c, last) && (forall id :: id in last ==> last[id] <= e.at) && !Contains(c, e.id)
    requires (forall y :: y in c1 <==> y == e || y in c) && forall y :: y in r <==> y in c1 && y != gone
    requires gone in c1 && x in r && gone.at <= x.at && id in last[e.id := e.at] && !Contains(r, id)
    ensures last[e.id := e.at][id] <= x.at
  {
    ContainsIn(c1, id);
    ContainsIn(c, id);
    ContainsIn(c, e.id);
    if Contains(c1, id) { EvictedIs(c1, gone, id, r); }
    hide Contains, DistinctIds;
  }

  /** An occurrence that is held no more is the one that was evicted. */
  lemma EvictedIs(c: seq<Entry>, gone: Entry, id: OccurrenceId, r: seq<Entry>)
    requires Contains(c, id) && !Contains(r, id) && forall e :: e in r <==> e in c && e != gone
    ensures gone.id == id
  {
    var k :| 0 <= k < |c| && c[k].id == id;
    if c[k] != gone {
      assert c[k] in r;
      ContainsIn(r, id);
    }
  }

  lemma ContainsIn(c: seq<Entry>, id: OccurrenceId)
    ensures Contains(c, id) <==> exists e :: e in c && e.id == id
  {
    if e :| e in c && e.id == id {
      var k :| 0 <= k < |c| && c[k] == e;
    }
    if k :| 0 <= k < |c| && c[k].id == id { assert c[k] in c; }
  }

  lemma KeysGrow(last: map<OccurrenceId, Instant>, e: Entry)
    ensures |last[e.id := e.at]| == |last| + (if e.id in last then 0 else 1)
  {
    assert last[e.id := e.at].Keys == last.Keys + {e.id};
    assert |last| == |last.Keys| && |last[e.id := e.at]| == |last[e.id := e.at].Keys|;
  }

  function IdsOf(c: seq<Entry>): set<OccurrenceId> { set e | e in c :: e.id }

  lemma {:induction false} IdsCount(c: seq<Entry>)
    requires DistinctIds(c)
    ensures |IdsOf(c)| == |c|
  {
    if c != [] {
      IdsCount(c[1..]);
      assert c == [c[0]] + c[1..];
      assert IdsOf(c) == {c[0].id} + IdsOf(c[1..]);
      assert c[0].id !in IdsOf(c[1..]);
    }
  }

  /** A window that is not full holds every occurrence. */
  lemma AllHeld(c: seq<Entry>, last: map<OccurrenceId, Instant>)
    requires HoldsLatest(c, last) && |c| < DEDUP_MAX_OCCURRENCES
    ensures forall id :: id in last ==> Contains(c, id)
  {
    IdsCount(c);
    assert IdsOf(c) <= last.Keys && |last.Keys| == |last|;
    SubsetSameSize(IdsOf(c), last.Keys);
    forall id | id in last ensures Contains(c, id) {
      assert id in IdsOf(c);
      ContainsIn(c, id);
    }
  }

  lemma SubsetSameSize(a: set<OccurrenceId>, b: set<OccurrenceId>)
    requires a <= b && |a| == |b|
    ensures a == b
  {
    assert |b - a| == |b| - |a|;
  }

  /** With a clock that never goes back, whatever finishes how often: the window holds the
      last finishes of the 500 occurrences that finished last. */
  lemma {:induction false} WindowIsLatest(history: seq<Entry>)
    requires TimesNondecreasing(history)
    ensures HoldsLatest(Window(history), LastFinish(history))
  {
    if history != [] {
      var n := |history| - 1;
      WindowIsLatest(history[..n]);
      LastBounded(history[..n], history[n].at);
      hide Record, Window, HoldsLatest;
      RecordHoldsLatest(Window(history[..n]), LastFinish(history[..n]), history[n]);
      WindowStep(history);
    }
  }

  lemma {:induction false} LastBounded(history: seq<Entry>, at: Instant)
    requires forall k :: 0 <= k < |history| ==> history[k].at <= at
    ensures forall id :: id in LastFinish(history) ==> LastFinish(history)[id] <= at
  {
    if history != [] { LastBounded(history[..|history| - 1], at); }
  }

  /** Ties are broken by place, not by the last finish: an occurrence that finishes again at
      the same instant keeps its old place, and goes before all that finished in between. */
  lemma AgainKeepsItsPlace(c: seq<Entry>, id: OccurrenceId, at: Instant)
    requires DistinctIds(c) && |c| == DEDUP_MAX_OCCURRENCES && !Contains(c, id)
    requires forall k :: 0 <= k < |c| ==> c[k].at == at
    ensures Record(c, c[0].id, at) == c
    ensures Record(Record(c, c[0].id, at), id, at) == c[1..] + [Entry(id, at)]
  {
    assert Put(c, c[0].id, at) == c by { assert c == [c[0]] + c[1..]; }
    var i := FirstOldestGoes(c, id, at);
    assert i == 0;
  }
}
