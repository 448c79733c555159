/** What the scheduler promises over whole runs: the online queue is the offline optimum, nothing is lost
    unaccounted for, protected events are never evicted, and a turn always takes the best of what waits. */
module SchedulerProofs {
  import opened Wrappers
  import opened Schemas
  import opened Scheduler

  // ---------------------------------------------------------------- scoring

  /** The design ranks a mention above any gift. It does so only below this gift value. */
  lemma MentionOutranksGiftExactlyBelow(cfg: Config, mention: SocialEvent, gift: SocialEvent, diamonds: int)
    requires mention.kind == Comment && Mentions(cfg, mention)
    requires gift.kind == Gift && !Mentions(cfg, gift) && gift.giftValue == Some(diamonds)
    ensures Score(cfg, mention) > Score(cfg, gift) <==> diamonds < 99_600
  {
    assert Score(cfg, gift) == 500 + diamonds;
  }

  lemma GiftsAndMentionsAreProtected(cfg: Config, e: SocialEvent)
    ensures Protected(Arrived(cfg, e)) <==> e.kind == Gift || Mentions(cfg, e)
  {
  }

  // Some non-empty keyword stands somewhere in the text, both in lower case.
  ghost predicate CalledUpon(cfg: Config, text: string) {
    exists k, before, after :: 0 <= k < |cfg.mentionKeywords| && |cfg.mentionKeywords[k]| > 0
                               && StandsIn(cfg.lower(text), before, cfg.lower(cfg.mentionKeywords[k]), after)
  }

  predicate StandsIn(text: string, before: string, word: string, after: string) {
    text == before + word + after
  }

  lemma ContainsMeans(text: string, word: string)
    ensures Contains(text, word) <==> exists before, after :: StandsIn(text, before, word, after)
  {
    if Contains(text, word) {
      var i :| 0 <= i <= |text| && OccursAt(text, word, i);
      assert text == text[..i] + text[i..i + |word|] + text[i + |word|..];
      assert StandsIn(text, text[..i], word, text[i + |word|..]);
    }
    if before, after :| StandsIn(text, before, word, after) {
      assert text[|before|..|before| + |word|] == word;
      assert OccursAt(text, word, |before|);
    }
  }

  lemma MentionsMeans(cfg: Config, e: SocialEvent)
    ensures Mentions(cfg, e) <==> e.text.Some? && |e.text.value| > 0 && CalledUpon(cfg, e.text.value)
  {
    if e.text.Some? && |e.text.value| > 0 {
      var text := e.text.value;
      forall k | 0 <= k < |cfg.mentionKeywords| && |cfg.mentionKeywords[k]| > 0
        ensures Hit(cfg, cfg.mentionKeywords[k], text)
                <==> exists before, after :: StandsIn(cfg.lower(text), before, cfg.lower(cfg.mentionKeywords[k]), after)
      {
        ContainsMeans(cfg.lower(text), cfg.lower(cfg.mentionKeywords[k]));
      }
    }
  }

  /** The whole score table: a gift 500 and its value, a follow 200, a share or a comment 100, a like nothing; and
      100 000 more for any event, of whatever kind, whose text calls upon the host. */
  lemma ScoreTable(cfg: Config, e: SocialEvent)
    ensures Score(cfg, e) == (if e.kind == Gift then 500 + (if e.giftValue.Some? then e.giftValue.value else 0)
                              else if e.kind == Follow then 200
                              else if e.kind == Share || e.kind == Comment then 100
                              else 0)
                             + if e.text.Some? && |e.text.value| > 0 && CalledUpon(cfg, e.text.value) then 100_000
                               else 0
  {
    MentionsMeans(cfg, e);
  }

  // ---------------------------------------------------------------- the sort

  function WithScore(q: seq<Scored>, v: int): seq<Scored> {
    if q == [] then []
    else (if q[0].score == v then [q[0]] else []) + WithScore(q[1..], v)
  }

  lemma {:induction false} WithScoreAppend(p: seq<Scored>, q: seq<Scored>, v: int)
    ensures WithScore(p + q, v) == WithScore(p, v) + WithScore(q, v)
  {
    if p == [] {
      assert p + q == q;
    } else {
      assert (p + q)[0] == p[0] && (p + q)[1..] == p[1..] + q;
      WithScoreAppend(p[1..], q, v);
      var head := if p[0].score == v then [p[0]] else [];
      assert head + (WithScore(p[1..], v) + WithScore(q, v)) == head + WithScore(p[1..], v) + WithScore(q, v);
    }
  }

  lemma {:induction false} InsertAdds(q: seq<Scored>, x: Scored)
    ensures multiset(Insert(q, x)) == multiset(q) + multiset{x}
  {
    if q != [] && q[0].score >= x.score {
      InsertAdds(q[1..], x);
      assert q == [q[0]] + q[1..];
    }
  }

  lemma {:induction false} InsertMembers(q: seq<Scored>, x: Scored)
    ensures forall i :: 0 <= i < |Insert(q, x)| ==> Insert(q, x)[i] in q || Insert(q, x)[i] == x
  {
    if q != [] && q[0].score >= x.score {
      InsertMembers(q[1..], x);
    }
  }

  lemma {:induction false} InsertKeepsSorted(q: seq<Scored>, x: Scored)
    requires Sorted(q)
    ensures Sorted(Insert(q, x))
  {
    if q != [] && q[0].score >= x.score {
      InsertKeepsSorted(q[1..], x);
      InsertMembers(q[1..], x);
    }
  }

  lemma {:induction false} InsertKeepsTies(q: seq<Scored>, x: Scored, v: int)
    requires Sorted(q)
    ensures WithScore(Insert(q, x), v) == WithScore(q, v) + WithScore([x], v)
  {
    if q == [] || q[0].score < x.score {
      WithScoreAppend([x], q, v);
      if v == x.score {
        WithScoreEmptyAbove(q, v);
      }
    } else {
      InsertKeepsTies(q[1..], x, v);
      assert Insert(q, x)[1..] == Insert(q[1..], x);
    }
  }

  lemma {:induction false} WithScoreEmptyAbove(q: seq<Scored>, v: int)
    requires forall i :: 0 <= i < |q| ==> q[i].score < v
    ensures WithScore(q, v) == []
  {
    if q != [] {
      WithScoreEmptyAbove(q[1..], v);
    }
  }

  lemma {:induction false} SortDescIsSorted(q: seq<Scored>)
    ensures Sorted(SortDesc(q))
  {
    if q != [] {
      SortDescIsSorted(q[..|q| - 1]);
      InsertKeepsSorted(SortDesc(q[..|q| - 1]), q[|q| - 1]);
    }
  }

  lemma {:induction false} SortDescPermutes(q: seq<Scored>)
    ensures multiset(SortDesc(q)) == multiset(q)
  {
    if q != [] {
      SortDescPermutes(q[..|q| - 1]);
      InsertAdds(SortDesc(q[..|q| - 1]), q[|q| - 1]);
      assert q == q[..|q| - 1] + [q[|q| - 1]];
    }
  }

  lemma {:induction false} SortDescKeepsTies(q: seq<Scored>, v: int)
    ensures WithScore(SortDesc(q), v) == WithScore(q, v)
  {
    if q != [] {
      var p, x := q[..|q| - 1], q[|q| - 1];
      SortDescKeepsTies(p, v);
      SortDescIsSorted(p);
      InsertKeepsTies(SortDesc(p), x, v);
      WithScoreAppend(p, [x], v);
      assert q == p + [x];
    }
  }

  /** The sort is a stable sort: ordered, a permutation, and with every group of ties in its old order. */
  lemma SortDescSorts(q: seq<Scored>)
    ensures Sorted(SortDesc(q))
    ensures multiset(SortDesc(q)) == multiset(q)
    ensures forall v :: WithScore(SortDesc(q), v) == WithScore(q, v)
  {
    SortDescIsSorted(q);
    SortDescPermutes(q);
    forall v ensures WithScore(SortDesc(q), v) == WithScore(q, v) {
      SortDescKeepsTies(q, v);
    }
  }

  lemma {:induction false} WithScoreOccurs(q: seq<Scored>, v: int)
    ensures WithScore(q, v) != [] <==> exists i :: 0 <= i < |q| && q[i].score == v
  {
    if q != [] {
      WithScoreOccurs(q[1..], v);
      if i :| 0 <= i < |q| && q[i].score == v {
        assert i > 0 ==> q[1..][i - 1].score == v;
      }
    }
  }

  // The head of a sorted sequence leads the group of the highest score.
  lemma HeadLeads(r: seq<Scored>)
    requires r != []
    ensures WithScore(r, r[0].score) != [] && WithScore(r, r[0].score)[0] == r[0]
  {
  }

  lemma NoneAboveHead(r: seq<Scored>, v: int)
    requires r != [] && Sorted(r) && WithScore(r, v) != []
    ensures v <= r[0].score
  {
    WithScoreOccurs(r, v);
  }

  lemma TailGroup(r: seq<Scored>, v: int)
    requires r != []
    ensures WithScore(r, v) == (if r[0].score == v then [r[0]] else []) + WithScore(r[1..], v)
  {
  }

  lemma TailsAgree(r: seq<Scored>, t: seq<Scored>, v: int)
    requires r != [] && t != [] && r[0] == t[0] && WithScore(r, v) == WithScore(t, v)
    ensures WithScore(r[1..], v) == WithScore(t[1..], v)
  {
    hide WithScore;
    TailGroup(r, v);
    TailGroup(t, v);
    var n := if r[0].score == v then 1 else 0;
    assert WithScore(r[1..], v) == WithScore(r, v)[n..];
    assert WithScore(t[1..], v) == WithScore(t, v)[n..];
  }

  /** Sorted by score with ties in their old order: that determines the result. */
  lemma {:induction false} StableSortIsUnique(r: seq<Scored>, t: seq<Scored>)
    requires Sorted(r) && Sorted(t)
    requires forall v :: WithScore(r, v) == WithScore(t, v)
    ensures r == t
  {
    hide WithScore;
    if r == [] || t == [] {
      if r != [] {
        HeadLeads(r);
        WithScoreOccurs(t, r[0].score);
      }
      if t != [] {
        HeadLeads(t);
        WithScoreOccurs(r, t[0].score);
      }
    } else {
      HeadLeads(r);
      HeadLeads(t);
      NoneAboveHead(t, r[0].score);
      NoneAboveHead(r, t[0].score);
      assert r[0] == t[0];
      forall v ensures WithScore(r[1..], v) == WithScore(t[1..], v) {
        TailsAgree(r, t, v);
      }
      StableSortIsUnique(r[1..], t[1..]);
    }
  }

  lemma SortDescOfSorted(q: seq<Scored>)
    requires Sorted(q)
    ensures SortDesc(q) == q
  {
    SortDescSorts(q);
    StableSortIsUnique(SortDesc(q), q);
  }

  lemma SortDescOfAppend(q: seq<Scored>, x: Scored)
    ensures SortDesc(q + [x]) == Insert(SortDesc(q), x)
  {
    assert (q + [x])[..|q|] == q;
  }

  // ---------------------------------------------------------------- the offline queue

  function CountProtected(q: seq<Scored>): (n: nat)
    ensures n <= |q|
  {
    if q == [] then 0 else (if Protected(q[0]) then 1 else 0) + CountProtected(q[1..])
  }

  // How many unprotected events fit beside the protected ones.
  function Room(maxQueueSize: int, q: seq<Scored>): nat {
    Max(0, maxQueueSize - CountProtected(q))
  }

  // All protected entries of a ranked list, and its first `room` unprotected ones, in rank order.
  function KeepBest(q: seq<Scored>, room: nat): seq<Scored> {
    if q == [] then []
    else if Protected(q[0]) then [q[0]] + KeepBest(q[1..], room)
    else if room > 0 then [q[0]] + KeepBest(q[1..], room - 1)
    else KeepBest(q[1..], 0)
  }

  // Seen all at once: rank everything that ever arrived, then keep what fits.
  function Offline(maxQueueSize: int, arrivals: seq<Scored>): seq<Scored> {
    KeepBest(SortDesc(arrivals), Room(maxQueueSize, arrivals))
  }

  function Online(cfg: Config, q: seq<Scored>, es: seq<SocialEvent>): seq<Scored> {
    if es == [] then q else Enqueued(cfg, Online(cfg, q, es[..|es| - 1]), es[|es| - 1])
  }

  function AllArrived(cfg: Config, es: seq<SocialEvent>): (r: seq<Scored>)
    ensures |r| == |es|
  {
    seq(|es|, i requires 0 <= i < |es| => Arrived(cfg, es[i]))
  }

  ghost predicate WellFormed(maxQueueSize: int, q: seq<Scored>) {
    Sorted(q) && (|q| <= maxQueueSize || CountProtected(q) == |q|)
  }

  lemma {:induction false} CountProtectedAppend(p: seq<Scored>, q: seq<Scored>)
    ensures CountProtected(p + q) == CountProtected(p) + CountProtected(q)
  {
    if p == [] {
      assert p + q == q;
    } else {
      assert (p + q)[0] == p[0] && (p + q)[1..] == p[1..] + q;
      CountProtectedAppend(p[1..], q);
    }
  }

  lemma {:induction false} CountProtectedInsert(q: seq<Scored>, x: Scored)
    ensures CountProtected(Insert(q, x)) == CountProtected(q) + CountProtected([x])
  {
    if q == [] || q[0].score < x.score {
      CountProtectedAppend([x], q);
    } else {
      CountProtectedInsert(q[1..], x);
      assert Insert(q, x)[1..] == Insert(q[1..], x);
    }
  }

  lemma {:induction false} CountProtectedSort(q: seq<Scored>)
    ensures CountProtected(SortDesc(q)) == CountProtected(q)
  {
    if q != [] {
      var p, x := q[..|q| - 1], q[|q| - 1];
      CountProtectedSort(p);
      CountProtectedInsert(SortDesc(p), x);
      CountProtectedAppend(p, [x]);
      assert q == p + [x];
    }
  }

  lemma {:induction false} KeepBestEverything(q: seq<Scored>, room: nat)
    requires |q| - CountProtected(q) <= room
    ensures KeepBest(q, room) == q
  {
    if q != [] {
      KeepBestEverything(q[1..], if Protected(q[0]) then room else room - 1);
    }
  }

  lemma {:induction false} KeepBestCounts(q: seq<Scored>, room: nat)
    ensures CountProtected(KeepBest(q, room)) == CountProtected(q)
    ensures |KeepBest(q, room)| == CountProtected(q) + Min(room, |q| - CountProtected(q))
    ensures forall s :: s in KeepBest(q, room) ==> s in q
  {
    if q != [] {
      var room' := if Protected(q[0]) || room == 0 then room else room - 1;
      KeepBestCounts(q[1..], room');
      if Protected(q[0]) || room > 0 {
        CountProtectedAppend([q[0]], KeepBest(q[1..], room'));
      }
    }
  }

  lemma {:induction false} KeepBestTwice(q: seq<Scored>, room: nat, less: nat)
    requires less <= room
    ensures KeepBest(KeepBest(q, room), less) == KeepBest(q, less)
  {
    if q != [] {
      if Protected(q[0]) {
        KeepBestTwice(q[1..], room, less);
      } else if room > 0 {
        KeepBestTwice(q[1..], room - 1, if less > 0 then less - 1 else 0);
      } else {
        KeepBestTwice(q[1..], 0, 0);
      }
    }
  }

  /** The exchange step: whatever an earlier, roomier cut dropped would be dropped now as well. */
  lemma {:induction false} DroppedStaysDropped(q: seq<Scored>, x: Scored, room: nat, less: nat)
    requires Sorted(q) && less <= room
    ensures KeepBest(Insert(KeepBest(q, room), x), less) == KeepBest(Insert(q, x), less)
  {
    if q != [] && q[0].score >= x.score {
      var kept := Protected(q[0]) || room > 0;
      var room' := if Protected(q[0]) || room == 0 then room else room - 1;
      var less' := if Protected(q[0]) || less == 0 then less else less - 1;
      DroppedStaysDropped(q[1..], x, room', less');
      assert Insert(q, x)[1..] == Insert(q[1..], x);
      if kept {
        assert KeepBest(q, room) == [q[0]] + KeepBest(q[1..], room');
        assert Insert(KeepBest(q, room), x) == [q[0]] + Insert(KeepBest(q[1..], room'), x);
      }
    } else {
      var k := KeepBest(q, room);
      KeepBestCounts(q, room);
      assert k != [] ==> k[0] in q;
      assert Insert(k, x) == [x] + k && Insert(q, x) == [x] + q;
      KeepBestTwice(q, room, if Protected(x) || less == 0 then less else less - 1);
    }
  }

  lemma {:induction false} DropLastIsKeepBest(q: seq<Scored>)
    requires VictimIndex(q) >= 0
    ensures CountProtected(q) < |q|
    ensures Without(q, VictimIndex(q)) == KeepBest(q, |q| - CountProtected(q) - 1)
  {
    var i := VictimIndex(q);
    var later := q[i + 1..];
    AllProtected(later);
    assert q == q[..i] + ([q[i]] + later);
    CountProtectedAppend(q[..i], [q[i]] + later);
    CountProtectedAppend([q[i]], later);
    KeepBestAppend(q[..i], [q[i]] + later, |q| - CountProtected(q) - 1);
    KeepBestEverything(later, 0);
    assert ([q[i]] + later)[1..] == later;
    assert KeepBest([q[i]] + later, 0) == later;
  }

  lemma {:induction false} AllProtected(q: seq<Scored>)
    ensures CountProtected(q) == |q| <==> forall i :: 0 <= i < |q| ==> Protected(q[i])
  {
    if q != [] {
      AllProtected(q[1..]);
      assert forall i :: 1 <= i < |q| ==> q[i] == q[1..][i - 1];
    }
  }

  lemma {:induction false} KeepBestAppend(p: seq<Scored>, q: seq<Scored>, room: nat)
    requires room == |p| - CountProtected(p)
    ensures KeepBest(p + q, room) == p + KeepBest(q, 0)
  {
    if p == [] {
      assert p + q == q;
    } else {
      assert (p + q)[0] == p[0] && (p + q)[1..] == p[1..] + q;
      KeepBestAppend(p[1..], q, if Protected(p[0]) then room else room - 1);
    }
  }

  lemma TrimIsKeepBest(maxQueueSize: int, q: seq<Scored>)
    requires |q| <= maxQueueSize + 1 || CountProtected(q) >= |q| - 1
    ensures Trim(maxQueueSize, q) == KeepBest(q, Room(maxQueueSize, q))
  {
    var i := VictimIndex(q);
    if |q| > maxQueueSize && i >= 0 {
      DropLastIsKeepBest(q);
    } else {
      if i < 0 {
        AllProtected(q);
      }
      KeepBestEverything(q, Room(maxQueueSize, q));
    }
  }

  lemma AllArrivedSnoc(cfg: Config, es: seq<SocialEvent>)
    requires es != []
    ensures AllArrived(cfg, es) == AllArrived(cfg, es[..|es| - 1]) + [Arrived(cfg, es[|es| - 1])]
  {
  }

  /** Main theorem: evicting one entry at a time, online, ends with the offline optimum over all arrivals. */
  lemma {:induction false} OnlineIsOffline(cfg: Config, q: seq<Scored>, es: seq<SocialEvent>)
    requires WellFormed(cfg.maxQueueSize, q)
    ensures Online(cfg, q, es) == Offline(cfg.maxQueueSize, q + AllArrived(cfg, es))
  {
    var m := cfg.maxQueueSize;
    if es == [] {
      assert q + AllArrived(cfg, es) == q;
      SortDescOfSorted(q);
      KeepBestEverything(q, Room(m, q));
    } else {
      var before, x := es[..|es| - 1], Arrived(cfg, es[|es| - 1]);
      var all := q + AllArrived(cfg, before);
      OnlineIsOffline(cfg, q, before);
      AllArrivedSnoc(cfg, es);
      assert q + AllArrived(cfg, es) == all + [x];
      OfflineStep(cfg, all, x);
    }
  }

  lemma OfflineStep(cfg: Config, all: seq<Scored>, x: Scored)
    ensures Trim(cfg.maxQueueSize, SortDesc(Offline(cfg.maxQueueSize, all) + [x]))
            == Offline(cfg.maxQueueSize, all + [x])
  {
    var m := cfg.maxQueueSize;
    var ranked, room := SortDesc(all), Room(m, all);
    var q := KeepBest(ranked, room);
    assert Sorted(ranked) by { SortDescIsSorted(all); }
    assert SortDesc(q + [x]) == Insert(q, x) by {
      KeepBestSorted(ranked, room);
      SortDescOfSorted(q);
      SortDescOfAppend(q, x);
    }
    assert SortDesc(all + [x]) == Insert(ranked, x) by { SortDescOfAppend(all, x); }
    RoomShrinks(m, all, x);
    TrimIsKeepBest(m, Insert(q, x));
    DroppedStaysDropped(ranked, x, room, Room(m, all + [x]));
  }

  lemma OfflineCounts(m: int, all: seq<Scored>)
    ensures var q := Offline(m, all);
            && CountProtected(q) == CountProtected(all)
            && |q| == CountProtected(all) + Min(Room(m, all), |all| - CountProtected(all))
  {
    CountProtectedSort(all);
    KeepBestCounts(SortDesc(all), Room(m, all));
  }

  lemma RoomShrinks(m: int, all: seq<Scored>, x: Scored)
    ensures var q := Offline(m, all);
            && Room(m, Insert(q, x)) == Room(m, all + [x]) <= Room(m, all)
            && (|Insert(q, x)| <= m + 1 || CountProtected(Insert(q, x)) >= |Insert(q, x)| - 1)
  {
    OfflineCounts(m, all);
    CountProtectedInsert(Offline(m, all), x);
    CountProtectedAppend(all, [x]);
  }

  ghost predicate AtMost(q: seq<Scored>, top: int) {
    forall i :: 0 <= i < |q| ==> q[i].score <= top
  }

  lemma {:induction false} KeepBestBounded(q: seq<Scored>, room: nat, top: int)
    requires AtMost(q, top)
    ensures AtMost(KeepBest(q, room), top)
  {
    if q != [] {
      KeepBestBounded(q[1..], if Protected(q[0]) || room == 0 then room else room - 1, top);
    }
  }

  lemma ConsSorted(x: Scored, q: seq<Scored>)
    requires Sorted(q) && AtMost(q, x.score)
    ensures Sorted([x] + q)
  {
  }

  lemma {:induction false} KeepBestSorted(q: seq<Scored>, room: nat)
    requires Sorted(q)
    ensures Sorted(KeepBest(q, room))
  {
    if q != [] {
      var room' := if Protected(q[0]) || room == 0 then room else room - 1;
      KeepBestSorted(q[1..], room');
      KeepBestBounded(q[1..], room', q[0].score);
      ConsSorted(q[0], KeepBest(q[1..], room'));
    }
  }

  lemma OfflineIsWellFormed(m: int, all: seq<Scored>)
    ensures WellFormed(m, Offline(m, all))
  {
    OfflineCounts(m, all);
    assert Sorted(Offline(m, all)) by {
      SortDescIsSorted(all);
      KeepBestSorted(SortDesc(all), Room(m, all));
    }
  }

  /** The cap holds, except that protected entries alone may exceed it; and no protected arrival is missing. */
  lemma QueueBound(cfg: Config, q: seq<Scored>, es: seq<SocialEvent>)
    requires WellFormed(cfg.maxQueueSize, q)
    ensures WellFormed(cfg.maxQueueSize, Online(cfg, q, es))
    ensures CountProtected(Online(cfg, q, es)) == CountProtected(q + AllArrived(cfg, es))
  {
    OnlineIsOffline(cfg, q, es);
    OfflineCounts(cfg.maxQueueSize, q + AllArrived(cfg, es));
    OfflineIsWellFormed(cfg.maxQueueSize, q + AllArrived(cfg, es));
  }

  // ---------------------------------------------------------------- runs of arrivals and turns

  datatype Op = Arrive(e: SocialEvent) | Turn

  datatype Ledger = Ledger(
    queue: seq<Scored>,
    arrived: seq<Scored>,
    spoken: seq<Scored>,
    omitted: seq<Scored>,
    evicted: seq<Scored>,
    turns: seq<SocialTurn>)

  function Play(cfg: Config, ops: seq<Op>): Ledger {
    if ops == [] then Ledger([], [], [], [], [], [])
    else Record(cfg, Play(cfg, ops[..|ops| - 1]), ops[|ops| - 1])
  }

  function Record(cfg: Config, l: Ledger, op: Op): Ledger {
    match op
    case Arrive(e) =>
      l.(queue := Enqueued(cfg, l.queue, e),
      arrived := l.arrived + [Arrived(cfg, e)],
      evicted := l.evicted + Victims(cfg.maxQueueSize, SortDesc(l.queue + [Arrived(cfg, e)])))
    case Turn =>
      if l.queue == [] then l else
      var s := SplitTurn(cfg, l.queue);
      l.(queue := s.rest, spoken := l.spoken + s.spoken, omitted := l.omitted + s.omitted,
      turns := l.turns + [TurnOf(s)])
  }

  function OverflowTotal(turns: seq<SocialTurn>): int {
    if turns == [] then 0 else OverflowTotal(turns[..|turns| - 1]) + turns[|turns| - 1].overflowCount
  }

  function SpokenEvents(turns: seq<SocialTurn>): seq<SocialEvent> {
    if turns == [] then [] else SpokenEvents(turns[..|turns| - 1]) + turns[|turns| - 1].events
  }

  ghost predicate Balanced(l: Ledger) {
    && multiset(l.arrived) == multiset(l.spoken) + multiset(l.omitted) + multiset(l.evicted) + multiset(l.queue)
    && (forall s :: s in l.evicted ==> !Protected(s))
    && SpokenEvents(l.turns) == Events(l.spoken)
    && OverflowTotal(l.turns) == |l.omitted|
  }

  lemma WithoutConserves(q: seq<Scored>, i: nat)
    requires i < |q|
    ensures multiset(q) == multiset(Without(q, i)) + multiset([q[i]])
  {
    assert q == q[..i] + ([q[i]] + q[i + 1..]);
  }

  lemma TrimConserves(maxQueueSize: int, q: seq<Scored>)
    ensures multiset(q) == multiset(Trim(maxQueueSize, q)) + multiset(Victims(maxQueueSize, q))
  {
    if |q| > maxQueueSize && VictimIndex(q) >= 0 {
      WithoutConserves(q, VictimIndex(q));
    }
  }

  lemma BagArithmetic(a: multiset<Scored>, kept: multiset<Scored>, e: multiset<Scored>, q: multiset<Scored>,
                      x: multiset<Scored>, q': multiset<Scored>, v: multiset<Scored>)
    requires a == kept + e + q && q + x == q' + v
    ensures a + x == kept + (e + v) + q'
  {
    assert a + x == kept + e + (q + x);
  }

  lemma BalancedArrival(cfg: Config, l: Ledger, e: SocialEvent)
    requires Balanced(l)
    ensures Balanced(Record(cfg, l, Arrive(e)))
  {
    var x := Arrived(cfg, e);
    var ranked := SortDesc(l.queue + [x]);
    var q', v := Trim(cfg.maxQueueSize, ranked), Victims(cfg.maxQueueSize, ranked);
    assert multiset(l.queue) + multiset([x]) == multiset(q') + multiset(v) by {
      SortDescPermutes(l.queue + [x]);
      TrimConserves(cfg.maxQueueSize, ranked);
    }
    BagArithmetic(multiset(l.arrived), multiset(l.spoken) + multiset(l.omitted), multiset(l.evicted),
                  multiset(l.queue), multiset([x]), multiset(q'), multiset(v));
  }

  lemma BalancedTurn(cfg: Config, l: Ledger)
    requires Balanced(l) && l.queue != []
    ensures Balanced(Record(cfg, l, Turn))
  {
    var s := SplitTurn(cfg, l.queue);
    var l' := Record(cfg, l, Turn);
    assert multiset(l.queue) == multiset(s.spoken + s.omitted + s.rest);
    assert multiset(l.queue) == multiset(s.spoken) + multiset(s.omitted) + multiset(s.rest);
    assert multiset(l'.spoken) == multiset(l.spoken) + multiset(s.spoken);
    assert multiset(l'.omitted) == multiset(l.omitted) + multiset(s.omitted);
    assert l'.turns[..|l'.turns| - 1] == l.turns;
    assert Events(l.spoken + s.spoken) == Events(l.spoken) + Events(s.spoken);
  }

  /** Conservation: every arrival was spoken, counted as overflow, evicted, or still waits, once each; and
      the turns handed out report exactly what was spoken and how much was counted. */
  lemma {:induction false} Conservation(cfg: Config, ops: seq<Op>)
    ensures Balanced(Play(cfg, ops))
  {
    if ops != [] {
      var l, op := Play(cfg, ops[..|ops| - 1]), ops[|ops| - 1];
      Conservation(cfg, ops[..|ops| - 1]);
      if op.Arrive? {
        BalancedArrival(cfg, l, op.e);
      } else if l.queue != [] {
        BalancedTurn(cfg, l);
      }
    }
  }

  lemma {:induction false} ArrivalsAreScored(cfg: Config, ops: seq<Op>)
    ensures forall s :: s in Play(cfg, ops).arrived ==> s == Arrived(cfg, s.event)
  {
    if ops != [] {
      ArrivalsAreScored(cfg, ops[..|ops| - 1]);
    }
  }

  lemma EvictedArrived(l: Ledger, s: Scored)
    requires Balanced(l) && s in l.evicted
    ensures s in l.arrived && !Protected(s)
  {
    assert s in multiset(l.evicted);
    assert s in multiset(l.arrived);
  }

  /** "Never drop a gift": what a full queue drops is neither a gift nor a mention, in any run. */
  lemma GiftsAndMentionsAreNeverEvicted(cfg: Config, ops: seq<Op>)
    ensures forall s :: s in Play(cfg, ops).evicted ==> s.event.kind != Gift && !Mentions(cfg, s.event)
  {
    Conservation(cfg, ops);
    ArrivalsAreScored(cfg, ops);
    forall s | s in Play(cfg, ops).evicted ensures s.event.kind != Gift && !Mentions(cfg, s.event) {
      EvictedArrived(Play(cfg, ops), s);
      GiftsAndMentionsAreProtected(cfg, s.event);
    }
  }

  /** A small backlog is answered one event at a time and loses nothing; a larger one is cleared in one
      batch that speaks the first top-k events and counts all others. */
  lemma SplitFacts(cfg: Config, q: seq<Scored>)
    requires q != []
    ensures var s := SplitTurn(cfg, q);
            && s.spoken <= q
            && (|q| <= cfg.individualThreshold ==> |s.spoken| == 1 && s.omitted == [] && |s.rest| == |q| - 1)
            && (|q| > cfg.individualThreshold ==> s.rest == [] && |s.omitted| == |q| - |s.spoken|)
            && (|q| > cfg.individualThreshold && cfg.batchTopK >= 0 ==> |s.spoken| == Min(cfg.batchTopK, |q|))
            && (|q| > cfg.individualThreshold && cfg.batchTopK < 0 ==> |s.spoken| == Max(0, |q| + cfg.batchTopK))
  {
  }
}
