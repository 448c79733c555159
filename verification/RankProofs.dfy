/** Who comes before whom. Every entry of a run is told apart by the number of its arrival; these numbers say
    where each arrival went, that turns take the best of what waits, and how long an entry can be overtaken. */
module RankProofs {
  import opened Wrappers
  import opened Schemas
  import opened Scheduler
  import opened SchedulerProofs

  // ---------------------------------------------------------------- where each arrival went

  // For each part of the ledger, which arrivals its entries are.
  datatype Tags = Tags(queue: seq<nat>, spoken: seq<nat>, omitted: seq<nat>, evicted: seq<nat>)

  // How many entries of a sorted queue a new one goes behind.
  function InsertAt(q: seq<Scored>, x: Scored): (k: nat)
    ensures k <= |q|
  {
    if q == [] || q[0].score < x.score then 0 else 1 + InsertAt(q[1..], x)
  }

  function Spliced<T>(s: seq<T>, k: nat, x: T): (r: seq<T>)
    requires k <= |s|
    ensures |r| == |s| + 1
  {
    s[..k] + [x] + s[k..]
  }

  function Dropped<T>(s: seq<T>, v: nat): (r: seq<T>)
    requires v < |s|
    ensures |r| == |s| - 1
  {
    s[..v] + s[v + 1..]
  }

  // An arrival before anything is evicted for it.
  function Joined(cfg: Config, l: Ledger, e: SocialEvent): Ledger {
    var x := Arrived(cfg, e);
    l.(queue := SortDesc(l.queue + [x]), arrived := l.arrived + [x])
  }

  function JoinedTags(cfg: Config, l: Ledger, t: Tags, e: SocialEvent): (t': Tags)
    requires |t.queue| == |l.queue|
    ensures |t'.queue| == |Joined(cfg, l, e).queue|
  {
    t.(queue := Spliced<nat>(t.queue, InsertAt(l.queue, Arrived(cfg, e)), |l.arrived|))
  }

  predicate Evicts(cfg: Config, q: seq<Scored>) { |q| > cfg.maxQueueSize && VictimIndex(q) >= 0 }

  function Evicted(l: Ledger, v: nat): Ledger
    requires v < |l.queue|
  {
    l.(queue := Dropped(l.queue, v), evicted := l.evicted + [l.queue[v]])
  }

  function EvictedTags(t: Tags, v: nat): Tags
    requires v < |t.queue|
  {
    t.(queue := Dropped(t.queue, v), evicted := t.evicted + [t.queue[v]])
  }

  function TagArrival(cfg: Config, l: Ledger, t: Tags, e: SocialEvent): (t': Tags)
    requires |t.queue| == |l.queue|
    ensures |t'.queue| == |Record(cfg, l, Arrive(e)).queue|
  {
    var q, tags := Joined(cfg, l, e).queue, JoinedTags(cfg, l, t, e);
    if Evicts(cfg, q) then EvictedTags(tags, VictimIndex(q)) else tags
  }

  function TagTurn(cfg: Config, l: Ledger, t: Tags): (t': Tags)
    requires |t.queue| == |l.queue|
    ensures |t'.queue| == |Record(cfg, l, Turn).queue|
  {
    if l.queue == [] then t else
    var s := SplitTurn(cfg, l.queue);
    SlicedTags(t, |s.spoken|, |s.spoken| + |s.omitted|)
  }

  function TagStep(cfg: Config, l: Ledger, t: Tags, op: Op): (t': Tags)
    requires |t.queue| == |l.queue|
    ensures |t'.queue| == |Record(cfg, l, op).queue|
  {
    match op
    case Arrive(e) => TagArrival(cfg, l, t, e)
    case Turn => TagTurn(cfg, l, t)
  }

  function TagsOf(cfg: Config, ops: seq<Op>): (t: Tags)
    ensures |t.queue| == |Play(cfg, ops).queue|
  {
    if ops == [] then Tags([], [], [], []) else
    var before := ops[..|ops| - 1];
    TagStep(cfg, Play(cfg, before), TagsOf(cfg, before), ops[|ops| - 1])
  }

  // These entries are these arrivals.
  ghost predicate Named(part: seq<Scored>, arrived: seq<Scored>, tags: seq<nat>) {
    |tags| == |part| && forall i :: 0 <= i < |tags| ==> tags[i] < |arrived| && arrived[tags[i]] == part[i]
  }

  ghost predicate AllNamed(l: Ledger, t: Tags) {
    && Named(l.queue, l.arrived, t.queue) && Named(l.spoken, l.arrived, t.spoken)
    && Named(l.omitted, l.arrived, t.omitted) && Named(l.evicted, l.arrived, t.evicted)
  }

  function Everything(t: Tags): multiset<nat> {
    multiset(t.queue) + multiset(t.spoken) + multiset(t.omitted) + multiset(t.evicted)
  }

  function Numbers(n: nat): multiset<nat> {
    if n == 0 then multiset{} else Numbers(n - 1) + multiset{n - 1}
  }

  lemma {:induction false} EachNumberOnce(n: nat, k: nat)
    ensures Numbers(n)[k] == if k < n then 1 else 0
  {
    if n > 0 {
      EachNumberOnce(n - 1, k);
    }
  }

  // Score descending, then arrival ascending.
  predicate Outranks(q: seq<Scored>, tags: seq<nat>, i: nat, j: nat)
    requires i < |q| == |tags| && j < |q|
  {
    q[i].score > q[j].score || (q[i].score == q[j].score && tags[i] < tags[j])
  }

  ghost predicate Ranked(q: seq<Scored>, tags: seq<nat>) {
    |tags| == |q| && forall i, j :: 0 <= i < j < |q| ==> Outranks(q, tags, i, j)
  }

  // ---------------------------------------------------------------- inserting and dropping

  lemma SplicedBehind<T>(s: seq<T>, k: nat, x: T)
    requires s != [] && k < |s|
    ensures Spliced(s, k + 1, x) == [s[0]] + Spliced(s[1..], k, x)
  {
    assert s[..k + 1] == [s[0]] + s[1..][..k];
  }

  lemma {:induction false} InsertSplices(q: seq<Scored>, x: Scored)
    ensures Insert(q, x) == Spliced(q, InsertAt(q, x), x)
  {
    hide Spliced;
    if q == [] || q[0].score < x.score {
      SplicedInFront(q, x);
    } else {
      InsertSplices(q[1..], x);
      SplicedBehind(q, InsertAt(q[1..], x), x);
    }
  }

  lemma SplicedInFront<T>(s: seq<T>, x: T)
    ensures Spliced(s, 0, x) == [x] + s
  {
  }

  lemma {:induction false} InsertAtRanks(q: seq<Scored>, x: Scored)
    requires Sorted(q)
    ensures forall i :: 0 <= i < InsertAt(q, x) ==> q[i].score >= x.score
    ensures forall i :: InsertAt(q, x) <= i < |q| ==> q[i].score < x.score
  {
    if q != [] && q[0].score >= x.score {
      InsertAtRanks(q[1..], x);
      assert forall i :: 1 <= i < |q| ==> q[i] == q[1..][i - 1];
    }
  }

  lemma SortSplices(q: seq<Scored>, x: Scored)
    requires Sorted(q)
    ensures SortDesc(q + [x]) == Spliced(q, InsertAt(q, x), x)
  {
    SortDescOfAppend(q, x);
    SortDescOfSorted(q);
    InsertSplices(q, x);
  }

  lemma RankedSorted(q: seq<Scored>, tags: seq<nat>)
    requires Ranked(q, tags)
    ensures Sorted(q)
  {
    forall i, j | 0 <= i < j < |q| ensures q[i].score >= q[j].score {
      assert Outranks(q, tags, i, j);
    }
  }

  lemma NamedLater(part: seq<Scored>, arrived: seq<Scored>, tags: seq<nat>, x: Scored)
    requires Named(part, arrived, tags)
    ensures Named(part, arrived + [x], tags)
  {
  }

  lemma NamedBoth(p: seq<Scored>, q: seq<Scored>, arrived: seq<Scored>, s: seq<nat>, t: seq<nat>)
    requires Named(p, arrived, s) && Named(q, arrived, t)
    ensures Named(p + q, arrived, s + t)
  {
  }

  lemma SplicedNamed(q: seq<Scored>, arrived: seq<Scored>, tags: seq<nat>, k: nat, x: Scored)
    requires k <= |q| && Named(q, arrived, tags)
    ensures Named(Spliced(q, k, x), arrived + [x], Spliced<nat>(tags, k, |arrived|))
  {
  }

  lemma SplicedRanked(q: seq<Scored>, tags: seq<nat>, k: nat, x: Scored, n: nat)
    requires k <= |q| && Ranked(q, tags) && forall i :: 0 <= i < |tags| ==> tags[i] < n
    requires forall i :: 0 <= i < k ==> q[i].score >= x.score
    requires forall i :: k <= i < |q| ==> q[i].score < x.score
    ensures Ranked(Spliced(q, k, x), Spliced<nat>(tags, k, n))
  {
    var q', tags' := Spliced(q, k, x), Spliced<nat>(tags, k, n);
    forall i, j | 0 <= i < j < |q'| ensures Outranks(q', tags', i, j) {
      if i != k && j != k {
        assert Outranks(q, tags, if i < k then i else i - 1, if j < k then j else j - 1);
      }
    }
  }

  lemma DroppedRanked(q: seq<Scored>, tags: seq<nat>, v: nat)
    requires v < |q| && Ranked(q, tags)
    ensures Ranked(Dropped(q, v), Dropped(tags, v))
  {
    var q', tags' := Dropped(q, v), Dropped(tags, v);
    forall i, j | 0 <= i < j < |q'| ensures Outranks(q', tags', i, j) {
      assert Outranks(q, tags, if i < v then i else i + 1, if j < v then j else j + 1);
    }
  }

  lemma SplicedBag<T>(s: seq<T>, k: nat, x: T)
    requires k <= |s|
    ensures multiset(Spliced(s, k, x)) == multiset(s) + multiset{x}
  {
    assert s == s[..k] + s[k..];
  }

  lemma DroppedBag<T>(s: seq<T>, v: nat)
    requires v < |s|
    ensures multiset(s) == multiset(Dropped(s, v)) + multiset{s[v]}
  {
    assert s == s[..v] + ([s[v]] + s[v + 1..]);
  }

  // ---------------------------------------------------------------- one step

  ghost predicate Tagged(l: Ledger, t: Tags) {
    AllNamed(l, t) && Everything(t) == Numbers(|l.arrived|) && Ranked(l.queue, t.queue)
  }

  lemma JoinedQueue(cfg: Config, l: Ledger, t: Tags, e: SocialEvent)
    requires Named(l.queue, l.arrived, t.queue) && Ranked(l.queue, t.queue)
    ensures var l', t' := Joined(cfg, l, e), JoinedTags(cfg, l, t, e);
            Named(l'.queue, l'.arrived, t'.queue) && Ranked(l'.queue, t'.queue)
  {
    hide Spliced, InsertAt, SortDesc, Score, Ranked;
    var x := Arrived(cfg, e);
    RankedSorted(l.queue, t.queue);
    SortSplices(l.queue, x);
    InsertAtRanks(l.queue, x);
    SplicedRanked(l.queue, t.queue, InsertAt(l.queue, x), x, |l.arrived|);
    SplicedNamed(l.queue, l.arrived, t.queue, InsertAt(l.queue, x), x);
  }

  lemma JoinedBag(cfg: Config, l: Ledger, t: Tags, e: SocialEvent)
    requires |t.queue| == |l.queue|
    ensures Everything(JoinedTags(cfg, l, t, e)) == Everything(t) + multiset{|l.arrived|}
  {
    SplicedBag<nat>(t.queue, InsertAt(l.queue, Arrived(cfg, e)), |l.arrived|);
  }

  lemma JoinedTagged(cfg: Config, l: Ledger, t: Tags, e: SocialEvent)
    requires Tagged(l, t)
    ensures Tagged(Joined(cfg, l, e), JoinedTags(cfg, l, t, e))
  {
    hide Spliced, InsertAt, SortDesc, Score, Ranked, Named, Everything;
    var x := Arrived(cfg, e);
    TaggedSizes(l, t);
    JoinedQueue(cfg, l, t, e);
    NamedLater(l.spoken, l.arrived, t.spoken, x);
    NamedLater(l.omitted, l.arrived, t.omitted, x);
    NamedLater(l.evicted, l.arrived, t.evicted, x);
    JoinedBag(cfg, l, t, e);
  }

  lemma TaggedSizes(l: Ledger, t: Tags)
    requires Tagged(l, t)
    ensures |t.queue| == |l.queue|
  {
  }

  lemma EvictionTagged(l: Ledger, t: Tags, v: nat)
    requires Tagged(l, t) && v < |l.queue|
    ensures Tagged(Evicted(l, v), EvictedTags(t, v))
  {
    DroppedRanked(l.queue, t.queue, v);
    DroppedBag(t.queue, v);
    NamedBoth(l.evicted, [l.queue[v]], l.arrived, t.evicted, [t.queue[v]]);
  }

  lemma ArrivalInTwoSteps(cfg: Config, l: Ledger, e: SocialEvent)
    ensures var joined := Joined(cfg, l, e);
            Record(cfg, l, Arrive(e))
            == if Evicts(cfg, joined.queue) then Evicted(joined, VictimIndex(joined.queue)) else joined
  {
  }

  lemma ArrivalTagged(cfg: Config, l: Ledger, t: Tags, e: SocialEvent)
    requires Tagged(l, t)
    ensures Tagged(Record(cfg, l, Arrive(e)), TagArrival(cfg, l, t, e))
  {
    hide Record, Joined, JoinedTags, Tagged, Evicted, EvictedTags;
    TaggedSizes(l, t);
    var joined, tags := Joined(cfg, l, e), JoinedTags(cfg, l, t, e);
    ArrivalInTwoSteps(cfg, l, e);
    JoinedTagged(cfg, l, t, e);
    if Evicts(cfg, joined.queue) {
      EvictionTagged(joined, tags, VictimIndex(joined.queue));
    }
  }

  lemma RestRanked(q: seq<Scored>, tags: seq<nat>, b: nat)
    requires Ranked(q, tags) && b <= |q|
    ensures Ranked(q[b..], tags[b..])
  {
    forall i, j | 0 <= i < j < |q| - b ensures Outranks(q[b..], tags[b..], i, j) {
      assert Outranks(q, tags, b + i, b + j);
    }
  }

  // The first a entries are spoken, those up to b counted.
  function Sliced(l: Ledger, a: nat, b: nat): Ledger
    requires a <= b <= |l.queue|
  {
    l.(queue := l.queue[b..], spoken := l.spoken + l.queue[..a], omitted := l.omitted + l.queue[a..b])
  }

  function SlicedTags(t: Tags, a: nat, b: nat): Tags
    requires a <= b <= |t.queue|
  {
    t.(queue := t.queue[b..], spoken := t.spoken + t.queue[..a], omitted := t.omitted + t.queue[a..b])
  }

  lemma SlicedBag(t: Tags, a: nat, b: nat)
    requires a <= b <= |t.queue|
    ensures Everything(SlicedTags(t, a, b)) == Everything(t)
  {
    assert t.queue == t.queue[..a] + t.queue[a..b] + t.queue[b..];
  }

  lemma SliceTagged(l: Ledger, t: Tags, a: nat, b: nat)
    requires Tagged(l, t) && a <= b <= |l.queue|
    ensures Tagged(Sliced(l, a, b), SlicedTags(t, a, b))
  {
    hide Ranked, Everything;
    TaggedSizes(l, t);
    NamedBoth(l.spoken, l.queue[..a], l.arrived, t.spoken, t.queue[..a]);
    NamedBoth(l.omitted, l.queue[a..b], l.arrived, t.omitted, t.queue[a..b]);
    RestRanked(l.queue, t.queue, b);
    SlicedBag(t, a, b);
  }

  lemma TurnSlices(cfg: Config, l: Ledger)
    requires l.queue != []
    ensures var s := SplitTurn(cfg, l.queue); var a, b := |s.spoken|, |s.spoken| + |s.omitted|;
            var l', r := Record(cfg, l, Turn), Sliced(l, a, b);
            l'.queue == r.queue && l'.spoken == r.spoken && l'.omitted == r.omitted
            && l'.evicted == r.evicted && l'.arrived == r.arrived
  {
    var s := SplitTurn(cfg, l.queue);
    var q, a, b := s.spoken + s.omitted + s.rest, |s.spoken|, |s.spoken| + |s.omitted|;
    assert q[..a] == s.spoken && q[a..b] == s.omitted && q[b..] == s.rest;
  }

  lemma TurnTagged(cfg: Config, l: Ledger, t: Tags)
    requires Tagged(l, t)
    ensures Tagged(Record(cfg, l, Turn), TagTurn(cfg, l, t))
  {
    hide Record, SplitTurn, Ranked, Named, Everything;
    TaggedSizes(l, t);
    if l.queue != [] {
      var s := SplitTurn(cfg, l.queue);
      TurnSlices(cfg, l);
      SliceTagged(l, t, |s.spoken|, |s.spoken| + |s.omitted|);
    } else {
      NoTurn(cfg, l);
    }
  }

  lemma NoTurn(cfg: Config, l: Ledger)
    requires l.queue == []
    ensures Record(cfg, l, Turn) == l
  {
  }

  // ---------------------------------------------------------------- whole runs

  /** Where every arrival went: the numbers name the entries of each part, every arrival of the run is in
      exactly one part, and the waiting ones stand in rank order. */
  lemma {:induction false} EveryArrivalIsSomewhere(cfg: Config, ops: seq<Op>)
    ensures var l, t := Play(cfg, ops), TagsOf(cfg, ops);
            && AllNamed(l, t) && Ranked(l.queue, t.queue)
            && forall k: nat :: Everything(t)[k] == if k < |l.arrived| then 1 else 0
    ensures Tagged(Play(cfg, ops), TagsOf(cfg, ops))
  {
    if ops != [] {
      var before, op := ops[..|ops| - 1], ops[|ops| - 1];
      EveryArrivalIsSomewhere(cfg, before);
      match op {
        case Arrive(e) => ArrivalTagged(cfg, Play(cfg, before), TagsOf(cfg, before), e);
        case Turn => TurnTagged(cfg, Play(cfg, before), TagsOf(cfg, before));
      }
    }
    var n := |Play(cfg, ops).arrived|;
    forall k: nat ensures Numbers(n)[k] == if k < n then 1 else 0 {
      EachNumberOnce(n, k);
    }
  }

  /** Every turn speaks the best of what waits: each entry it merely counts or leaves waiting ranks behind each
      one it speaks, by score and, among equals, by arrival. */
  lemma TurnSpeaksTheBest(cfg: Config, ops: seq<Op>)
    requires Play(cfg, ops).queue != []
    ensures var l, t := Play(cfg, ops), TagsOf(cfg, ops); var spoken := |SplitTurn(cfg, l.queue).spoken|;
            && Named(l.queue, l.arrived, t.queue)
            && forall i, j :: 0 <= i < spoken <= j < |l.queue| ==> Outranks(l.queue, t.queue, i, j)
  {
    EveryArrivalIsSomewhere(cfg, ops);
  }

  // ---------------------------------------------------------------- overtaking

  function TurnCount(ops: seq<Op>): nat {
    if ops == [] then 0 else TurnCount(ops[..|ops| - 1]) + if ops[|ops| - 1].Turn? then 1 else 0
  }

  predicate Overtakes(cfg: Config, op: Op, score: int) { op.Arrive? && Score(cfg, op.e) > score }

  function Overtakers(cfg: Config, ops: seq<Op>, score: int): nat {
    if ops == [] then 0
    else Overtakers(cfg, ops[..|ops| - 1], score) + if Overtakes(cfg, ops[|ops| - 1], score) then 1 else 0
  }

  // Where the j-th of a sequence with an insertion was before.
  lemma BeforeSplicing(s: seq<nat>, k: nat, n: nat, j: nat) returns (i: nat)
    requires k <= |s| && j <= |s| && Spliced<nat>(s, k, n)[j] != n
    ensures i < |s| && s[i] == Spliced<nat>(s, k, n)[j]
    ensures j == if k <= i then i + 1 else i
  {
    i := if j < k then j else j - 1;
  }

  lemma JoiningMovesBack(cfg: Config, l: Ledger, t: Tags, e: SocialEvent, j: nat) returns (i: nat)
    requires Tagged(l, t) && j < |JoinedTags(cfg, l, t, e).queue| && JoinedTags(cfg, l, t, e).queue[j] < |l.arrived|
    ensures i < |l.queue| && t.queue[i] == JoinedTags(cfg, l, t, e).queue[j]
    ensures j <= i + if Overtakes(cfg, Arrive(e), l.queue[i].score) then 1 else 0
  {
    hide Spliced, InsertAt, Score;
    var x := Arrived(cfg, e);
    RankedSorted(l.queue, t.queue);
    InsertAtRanks(l.queue, x);
    i := BeforeSplicing(t.queue, InsertAt(l.queue, x), |l.arrived|, j);
  }

  lemma ArrivalMovesBack(cfg: Config, l: Ledger, t: Tags, e: SocialEvent, j: nat) returns (i: nat)
    requires Tagged(l, t) && j < |TagArrival(cfg, l, t, e).queue| && TagArrival(cfg, l, t, e).queue[j] < |l.arrived|
    ensures i < |l.queue| && t.queue[i] == TagArrival(cfg, l, t, e).queue[j]
    ensures j <= i + if Overtakes(cfg, Arrive(e), l.queue[i].score) then 1 else 0
  {
    hide Tagged, JoinedTags, Joined, Score;
    TaggedSizes(l, t);
    var q := Joined(cfg, l, e).queue;
    var at := if Evicts(cfg, q) && VictimIndex(q) <= j then j + 1 else j;
    i := JoiningMovesBack(cfg, l, t, e, at);
  }

  lemma TurnMovesUp(cfg: Config, l: Ledger, t: Tags, j: nat) returns (i: nat)
    requires |t.queue| == |l.queue| && j < |TagTurn(cfg, l, t).queue|
    ensures i < |l.queue| && t.queue[i] == TagTurn(cfg, l, t).queue[j] && j + 1 <= i
  {
    var s := SplitTurn(cfg, l.queue);
    SplitFacts(cfg, l.queue);
    i := |s.spoken| + |s.omitted| + j;
  }

  lemma AfterMore(cfg: Config, ops: seq<Op>, more: seq<Op>)
    requires more != []
    ensures var before, op := ops + more[..|more| - 1], more[|more| - 1];
            && Play(cfg, ops + more) == Record(cfg, Play(cfg, before), op)
            && TagsOf(cfg, ops + more) == TagStep(cfg, Play(cfg, before), TagsOf(cfg, before), op)
  {
    hide Record, TagStep;
    assert (ops + more)[..|ops + more| - 1] == ops + more[..|more| - 1];
  }

  lemma OnlyMoreArrive(cfg: Config, ops: seq<Op>, more: seq<Op>)
    ensures Play(cfg, ops).arrived <= Play(cfg, ops + more).arrived
  {
    if more == [] {
      assert ops + more == ops;
    } else {
      AfterMore(cfg, ops, more);
      OnlyMoreArrive(cfg, ops, more[..|more| - 1]);
    }
  }

  lemma OnePlace(l: Ledger, t: Tags)
    requires Tagged(l, t)
    ensures forall i, j :: 0 <= i < j < |t.queue| ==> t.queue[i] != t.queue[j]
  {
    forall i, j | 0 <= i < j < |t.queue| ensures t.queue[i] != t.queue[j] {
      assert Outranks(l.queue, t.queue, i, j);
    }
  }

  lemma SameEntry(l: Ledger, t: Tags, l': Ledger, t': Tags, i: nat, j: nat)
    requires Tagged(l, t) && Tagged(l', t') && l.arrived <= l'.arrived
    requires i < |t.queue| && j < |t'.queue| && t'.queue[j] == t.queue[i]
    ensures l'.queue[j] == l.queue[i] && t'.queue[j] < |l.arrived|
  {
  }

  /** The overtaking bound: an entry that was i-th and is now j-th has moved up one place with every turn since,
      but for at most one place lost to each later arrival of a higher score. */
  lemma {:induction false} OvertakingIsBounded(cfg: Config, ops: seq<Op>, more: seq<Op>, i: nat, j: nat)
    requires i < |TagsOf(cfg, ops).queue| && j < |TagsOf(cfg, ops + more).queue|
    requires TagsOf(cfg, ops + more).queue[j] == TagsOf(cfg, ops).queue[i]
    ensures j + TurnCount(more) <= i + Overtakers(cfg, more, Play(cfg, ops).queue[i].score)
  {
    EveryArrivalIsSomewhere(cfg, ops);
    if more == [] {
      assert ops + more == ops;
      OnePlace(Play(cfg, ops), TagsOf(cfg, ops));
    } else {
      var fewer, op := more[..|more| - 1], more[|more| - 1];
      var l, t := Play(cfg, ops + fewer), TagsOf(cfg, ops + fewer);
      AfterMore(cfg, ops, more);
      EveryArrivalIsSomewhere(cfg, ops + fewer);
      EveryArrivalIsSomewhere(cfg, ops + more);
      OnlyMoreArrive(cfg, ops, fewer);
      OnlyMoreArrive(cfg, ops, more);
      SameEntry(Play(cfg, ops), TagsOf(cfg, ops), Play(cfg, ops + more), TagsOf(cfg, ops + more), i, j);
      var h: nat;
      match op {
        case Arrive(e) => h := ArrivalMovesBack(cfg, l, t, e, j);
        case Turn => h := TurnMovesUp(cfg, l, t, j);
      }
      OvertakingIsBounded(cfg, ops, fewer, i, h);
      SameEntry(Play(cfg, ops), TagsOf(cfg, ops), l, t, i, h);
    }
  }

  /** So an entry with i ahead of it is gone after more turns than i plus its later overtakers. */
  lemma GoneInTime(cfg: Config, ops: seq<Op>, more: seq<Op>, i: nat)
    requires i < |TagsOf(cfg, ops).queue|
    requires TurnCount(more) > i + Overtakers(cfg, more, Play(cfg, ops).queue[i].score)
    ensures TagsOf(cfg, ops).queue[i] !in TagsOf(cfg, ops + more).queue
  {
    var later := TagsOf(cfg, ops + more).queue;
    forall j | 0 <= j < |later| ensures later[j] != TagsOf(cfg, ops).queue[i] {
      if later[j] == TagsOf(cfg, ops).queue[i] {
        OvertakingIsBounded(cfg, ops, more, i, j);
      }
    }
  }
}
