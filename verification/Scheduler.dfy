/** The bounded priority queue of pending social events (scheduler.py). */
module Scheduler {
  import opened Wrappers
  import opened Schemas

  const MENTION_BONUS := 100_000
  const PROTECTED_SCORE_FLOOR := 500

  // `lower` stands for the host language's case folding.
  datatype Config = Config(
    mentionKeywords: seq<string>,
    lower: string -> string,
    individualThreshold: int,
    batchTopK: int,
    maxQueueSize: int)

  datatype Scored = Scored(event: SocialEvent, score: int)

  datatype SocialTurn = SocialTurn(events: seq<SocialEvent>, overflowCount: int)

  // ---------------------------------------------------------------- scoring

  function BaseScore(kind: Kind): int {
    match kind
    case Gift => 500
    case Follow => 200
    case Share => 100
    case Comment => 100
    case Like => 0
  }

  predicate OccursAt(haystack: string, needle: string, i: int) {
    0 <= i <= |haystack| - |needle| && haystack[i..i + |needle|] == needle
  }

  predicate Contains(haystack: string, needle: string) {
    exists i :: 0 <= i <= |haystack| && OccursAt(haystack, needle, i)
  }

  predicate Hit(cfg: Config, keyword: string, text: string) {
    keyword != "" && Contains(cfg.lower(text), cfg.lower(keyword))
  }

  predicate Mentions(cfg: Config, e: SocialEvent) {
    && e.text.Some? && e.text.value != ""
    && exists k :: 0 <= k < |cfg.mentionKeywords| && Hit(cfg, cfg.mentionKeywords[k], e.text.value)
  }

  function GiftBonus(e: SocialEvent): int {
    if e.kind == Gift && e.giftValue.Some? then e.giftValue.value else 0
  }

  function Score(cfg: Config, e: SocialEvent): int {
    BaseScore(e.kind) + GiftBonus(e) + if Mentions(cfg, e) then MENTION_BONUS else 0
  }

  method ScoreEvent(cfg: Config, e: SocialEvent) returns (score: int)
    ensures score == Score(cfg, e)
  {
    score := BaseScore(e.kind);
    if e.kind == Gift && e.giftValue.Some? && e.giftValue.value != 0 {
      score := score + e.giftValue.value;
    }
    if e.text.Some? && e.text.value != "" && |cfg.mentionKeywords| > 0 {
      var hit := false;
      var k := 0;
      while k < |cfg.mentionKeywords| && !hit
        invariant 0 <= k <= |cfg.mentionKeywords|
        invariant hit <==> exists j :: 0 <= j < k && Hit(cfg, cfg.mentionKeywords[j], e.text.value)
      {
        hit := Hit(cfg, cfg.mentionKeywords[k], e.text.value);
        k := k + 1;
      }
      if hit {
        score := score + MENTION_BONUS;
      }
    }
  }

  // ---------------------------------------------------------------- ordering

  ghost predicate Sorted(q: seq<Scored>) {
    forall i, j :: 0 <= i < j < |q| ==> q[i].score >= q[j].score
  }

  function Insert(q: seq<Scored>, x: Scored): (r: seq<Scored>)
    ensures |r| == |q| + 1
  {
    if q == [] || q[0].score < x.score then [x] + q else [q[0]] + Insert(q[1..], x)
  }

  // list.sort(key=score, reverse=True); StableSortIsUnique says that nothing else can be meant.
  function SortDesc(q: seq<Scored>): (r: seq<Scored>)
    ensures |r| == |q|
  {
    if q == [] then [] else Insert(SortDesc(q[..|q| - 1]), q[|q| - 1])
  }

  // ---------------------------------------------------------------- queue operations

  predicate Protected(s: Scored) {
    s.event.kind == Gift || s.score >= PROTECTED_SCORE_FLOOR
  }

  // Position of the last evictable entry, or -1.
  function VictimIndex(q: seq<Scored>): (i: int)
    ensures -1 <= i < |q|
    ensures i >= 0 ==> !Protected(q[i])
    ensures forall j :: i < j < |q| ==> Protected(q[j])
  {
    if q == [] then -1
    else if !Protected(q[|q| - 1]) then |q| - 1
    else VictimIndex(q[..|q| - 1])
  }

  function Without(q: seq<Scored>, i: int): seq<Scored>
    requires 0 <= i < |q|
  {
    q[..i] + q[i + 1..]
  }

  function Victims(maxQueueSize: int, q: seq<Scored>): seq<Scored> {
    if |q| > maxQueueSize && VictimIndex(q) >= 0 then [q[VictimIndex(q)]] else []
  }

  function Trim(maxQueueSize: int, q: seq<Scored>): seq<Scored> {
    if |q| > maxQueueSize && VictimIndex(q) >= 0 then Without(q, VictimIndex(q)) else q
  }

  function Arrived(cfg: Config, e: SocialEvent): Scored {
    Scored(e, Score(cfg, e))
  }

  function Enqueued(cfg: Config, q: seq<Scored>, e: SocialEvent): seq<Scored> {
    Trim(cfg.maxQueueSize, SortDesc(q + [Arrived(cfg, e)]))
  }

  function Events(q: seq<Scored>): (r: seq<SocialEvent>)
    ensures |r| == |q|
  {
    seq(|q|, i requires 0 <= i < |q| => q[i].event)
  }

  // What a turn does to a non-empty queue: the entries spoken, merely counted, and left waiting.
  datatype Split = Split(spoken: seq<Scored>, omitted: seq<Scored>, rest: seq<Scored>)

  function SplitTurn(cfg: Config, q: seq<Scored>): (s: Split)
    requires q != []
    ensures s.spoken + s.omitted + s.rest == q
  {
    if |q| <= cfg.individualThreshold then Split(q[..1], [], q[1..])
    else var top := PyTake(q, cfg.batchTopK); Split(top, q[|top|..], [])
  }

  function TurnOf(s: Split): SocialTurn {
    SocialTurn(Events(s.spoken), |s.omitted|)
  }

  class EventScheduler {
    const cfg: Config
    var queue: seq<Scored>

    constructor (cfg: Config)
      ensures this.cfg == cfg && queue == []
    {
      this.cfg := cfg;
      queue := [];
    }

    method Enqueue(e: SocialEvent)
      modifies this
      ensures queue == Enqueued(cfg, old(queue), e)
    {
      var score := ScoreEvent(cfg, e);
      queue := queue + [Scored(e, score)];
      queue := SortDesc(queue);
      if |queue| > cfg.maxQueueSize {
        EvictOne();
      }
    }

    method EvictOne()
      modifies this
      ensures queue == if VictimIndex(old(queue)) >= 0 then Without(old(queue), VictimIndex(old(queue))) else old(queue)
    {
      for i := |queue| downto 0
        invariant queue == old(queue)
        invariant forall j :: i <= j < |queue| ==> Protected(queue[j])
      {
        if !Protected(queue[i]) {
          queue := queue[..i] + queue[i + 1..];
          return;
        }
      }
    }

    predicate HasPending()
      reads this
    {
      queue != []
    }

    function PendingCount(): nat
      reads this
    {
      |queue|
    }

    method NextTurn() returns (turn: Option<SocialTurn>)
      modifies this
      ensures old(queue) == [] ==> turn == None && queue == []
      ensures old(queue) != [] ==>
                && turn == Some(TurnOf(SplitTurn(cfg, old(queue))))
                && queue == SplitTurn(cfg, old(queue)).rest
    {
      if queue == [] {
        return None;
      }
      if |queue| <= cfg.individualThreshold {
        var top := queue[0];
        queue := queue[1..];
        assert Events(SplitTurn(cfg, old(queue)).spoken) == [top.event];
        return Some(SocialTurn([top.event], 0));
      }
      var topK := PyTake(queue, cfg.batchTopK);
      var overflow := |queue| - |topK|;
      queue := [];
      return Some(SocialTurn(Events(topK), overflow));
    }
  }

  /** orchestrator.py: the link between the relay and the scheduler. The rendered text is not modelled. */
  class LiveHostOrchestrator {
    const scheduler: EventScheduler

    constructor (scheduler: EventScheduler)
      ensures this.scheduler == scheduler
    {
      this.scheduler := scheduler;
    }

    method PollSocialTurn(voiceActive: bool) returns (turn: Option<SocialTurn>)
      modifies scheduler
      ensures turn.Some? <==> !voiceActive && old(scheduler.queue) != []
      ensures turn.None? ==> scheduler.queue == old(scheduler.queue)
      ensures turn.Some? ==>
                && turn == Some(TurnOf(SplitTurn(scheduler.cfg, old(scheduler.queue))))
                && scheduler.queue == SplitTurn(scheduler.cfg, old(scheduler.queue)).rest
    {
      if voiceActive || !scheduler.HasPending() {
        return None;
      }
      turn := scheduler.NextTurn();
    }
  }
}
