/** Persistent viewer history (memory.py). The viewers table is a map; the store also carries a ghost log of
    what it was asked to do, and its invariant says that every row is a summary of that log. */
module Memory {
  import opened Wrappers
  import opened Schemas

  const MAX_MEMORY_ID_LENGTH := 64
  const MAX_QUOTE_LENGTH := 80

  datatype Key = Key(owner: string, memoryId: string, viewer: string)

  datatype Remark = Remark(text: string, at: real)

  datatype Row = Row(
    userName: string,
    commentCount: int,
    liked: bool,
    shared: bool,
    followed: bool,
    giftCount: int,
    giftTotal: int,
    recent: seq<Remark>,
    firstSeen: real,
    lastSeen: real)

  // The pieces of a note; their wording is not modelled.
  datatype NotePart =
    | Commented(times: int) | OnceLiked | OnceShared | Follows | Gifted(total: int) | LastSaid(text: string)

  // Where the database may fail: at the lookup, at the write, or at the commit after it.
  datatype Fault = NoFault | LookupFails | WriteFails | CommitFails

  datatype Entry = Recorded(key: Key, event: SocialEvent, at: real) | Cleaned(cutoff: real)

  datatype Sighting = Sighting(event: SocialEvent, at: real)

  function KeyOf(owner: string, memoryId: string, viewer: string): Key {
    Key(owner, PyTake(memoryId, MAX_MEMORY_ID_LENGTH), viewer)
  }

  // ---------------------------------------------------------------- the log of one viewer

  // A viewer's sightings since cleanup last removed their row.
  function History(log: seq<Entry>, key: Key): seq<Sighting> {
    if log == [] then [] else Extended(History(log[..|log| - 1], key), log[|log| - 1], key)
  }

  function Extended(h: seq<Sighting>, entry: Entry, key: Key): seq<Sighting> {
    match entry
    case Recorded(k, e, at) => if k == key then h + [Sighting(e, at)] else h
    case Cleaned(cutoff) => if h != [] && h[|h| - 1].at < cutoff then [] else h
  }

  function Count(h: seq<Sighting>, kind: Kind): nat {
    if h == [] then 0 else Count(h[..|h| - 1], kind) + if h[|h| - 1].event.kind == kind then 1 else 0
  }

  function GiftSum(h: seq<Sighting>): int {
    if h == [] then 0 else
    var e := h[|h| - 1].event;
    GiftSum(h[..|h| - 1]) + if e.kind == Gift && e.giftValue.Some? then e.giftValue.value else 0
  }

  predicate Speaks(e: SocialEvent) { e.kind == Comment && e.text.Some? && e.text.value != "" }

  function Remarks(h: seq<Sighting>): seq<Remark> {
    if h == [] then [] else
    var s := h[|h| - 1];
    Remarks(h[..|h| - 1]) + if Speaks(s.event) then [Remark(s.event.text.value, s.at)] else []
  }

  // What a limit keeps of all remarks: the last `limit`, but everything for 0 and nothing for a negative one.
  function Kept(limit: int, all: seq<Remark>): seq<Remark> {
    if limit < 0 then [] else if limit == 0 || |all| <= limit then all else all[|all| - limit..]
  }

  function Summary(limit: int, h: seq<Sighting>): Row
    requires h != []
  {
    Row(h[|h| - 1].event.userName, Count(h, Comment), Count(h, Like) > 0, Count(h, Share) > 0, Count(h, Follow) > 0,
        Count(h, Gift), GiftSum(h), Kept(limit, Remarks(h)), h[0].at, h[|h| - 1].at)
  }

  function RowOf(limit: int, log: seq<Entry>, key: Key): Option<Row> {
    var h := History(log, key);
    if h == [] then None else Some(Summary(limit, h))
  }

  // ---------------------------------------------------------------- notes

  function Quote(text: string): string {
    if |text| > MAX_QUOTE_LENGTH then text[..MAX_QUOTE_LENGTH] + "\U{2026}" else text
  }

  function When(c: bool, part: NotePart): seq<NotePart> {
    if c then [part] else []
  }

  function Deeds(row: Row): seq<NotePart> {
    When(row.commentCount > 0, Commented(row.commentCount))
    + When(row.liked, OnceLiked)
    + When(row.shared, OnceShared)
    + When(row.followed, Follows)
    + When(row.giftTotal > 0, Gifted(row.giftTotal))
  }

  function Parts(row: Row): seq<NotePart> {
    Deeds(row) + if row.recent == [] then [] else [LastSaid(Quote(row.recent[|row.recent| - 1].text))]
  }

  function NoteOf(row: Option<Row>): Option<seq<NotePart>> {
    if row.None? || Parts(row.value) == [] then None else Some(Parts(row.value))
  }

  // What note_and_record returns, and what it adds to the log.
  function NoteFor(limit: int, log: seq<Entry>, key: Key, fault: Fault): Option<seq<NotePart>> {
    if fault == NoFault then NoteOf(RowOf(limit, log, key)) else None
  }

  function Records(key: Key, e: SocialEvent, now: real, fault: Fault): seq<Entry> {
    if fault == LookupFails || fault == WriteFails then [] else [Recorded(key, e, now)]
  }

  method AppendWhen(parts: seq<NotePart>, c: bool, part: NotePart) returns (r: seq<NotePart>)
    ensures r == parts + When(c, part)
  {
    r := parts;
    if c {
      r := r + [part];
    }
  }

  method BuildNote(row: Option<Row>) returns (note: Option<seq<NotePart>>)
    ensures note == NoteOf(row)
  {
    if row == None {
      return None;
    }
    var r := row.value;
    var parts := AppendWhen([], r.commentCount > 0, Commented(r.commentCount));
    assert parts == When(r.commentCount > 0, Commented(r.commentCount));
    parts := AppendWhen(parts, r.liked, OnceLiked);
    parts := AppendWhen(parts, r.shared, OnceShared);
    parts := AppendWhen(parts, r.followed, Follows);
    parts := AppendWhen(parts, r.giftTotal > 0, Gifted(r.giftTotal));
    assert parts == Deeds(r) == Deeds(r) + [];
    if r.recent != [] {
      var lastText := r.recent[|r.recent| - 1].text;
      if |lastText| > MAX_QUOTE_LENGTH {
        lastText := lastText[..MAX_QUOTE_LENGTH] + "\U{2026}";
      }
      parts := parts + [LastSaid(lastText)];
    }
    note := if parts != [] then Some(parts) else None;
  }

  // ---------------------------------------------------------------- the store

  function Lookup(viewers: map<Key, Row>, k: Key): Option<Row> {
    if k in viewers then Some(viewers[k]) else None
  }

  // The table says about every key what the log says.
  ghost predicate Refines(limit: int, viewers: map<Key, Row>, log: seq<Entry>) {
    forall k :: Lookup(viewers, k) == RowOf(limit, log, k)
  }

  class ViewerMemoryStore {
    const recentCommentsLimit: int
    var viewers: map<Key, Row>
    ghost var log: seq<Entry>

    ghost predicate Valid()
      reads this
    {
      Refines(recentCommentsLimit, viewers, log)
    }

    constructor (limit: int)
      ensures Valid() && recentCommentsLimit == limit && log == []
    {
      recentCommentsLimit := limit;
      viewers := map[];
      log := [];
    }

    /** The note is drawn from this viewer's history before the event; then the event joins that history. A
        failing database costs the note and, unless only the commit failed, the record; never more. */
    method NoteAndRecord(owner: string, memoryId: string, e: SocialEvent, now: real, fault: Fault)
      returns (note: Option<seq<NotePart>>)
      requires Valid()
      modifies this
      ensures Valid()
      ensures note == NoteFor(recentCommentsLimit, old(log), KeyOf(owner, memoryId, e.userId), fault)
      ensures log == old(log) + Records(KeyOf(owner, memoryId, e.userId), e, now, fault)
    {
      var key := Key(owner, PyTake(memoryId, MAX_MEMORY_ID_LENGTH), e.userId);
      if fault == LookupFails {
        return None;
      }
      var row := Lookup(viewers, key);
      note := BuildNote(row);
      if fault == WriteFails {
        return None;
      }
      var row' := UpdatedRow(e, row, now, History(log, key));
      RecordRefines(recentCommentsLimit, viewers, log, Recorded(key, e, now), row');
      viewers := viewers[key := row'];
      log := log + [Recorded(key, e, now)];
      if fault == CommitFails {
        return None;
      }
    }

    // The row _upsert inserts or updates.
    method UpdatedRow(e: SocialEvent, row: Option<Row>, now: real, ghost h: seq<Sighting>) returns (r: Row)
      requires row == if h == [] then None else Some(Summary(recentCommentsLimit, h))
      ensures r == Summary(recentCommentsLimit, h + [Sighting(e, now)])
    {
      SummarySnoc(recentCommentsLimit, h, Sighting(e, now));
      var commentCount, liked, shared, followed, giftCount, giftTotal := 0, false, false, false, 0, 0;
      var recent: seq<Remark> := [];
      if row.Some? {
        commentCount, liked := row.value.commentCount, row.value.liked;
        shared, followed := row.value.shared, row.value.followed;
        giftCount, giftTotal, recent := row.value.giftCount, row.value.giftTotal, row.value.recent;
      }
      if e.kind == Comment {
        commentCount := commentCount + 1;
        if e.text.Some? && e.text.value != "" {
          recent := recent + [Remark(e.text.value, now)];
          recent := PyLast(recent, recentCommentsLimit);
        }
      } else if e.kind == Like {
        liked := true;
      } else if e.kind == Share {
        shared := true;
      } else if e.kind == Follow {
        followed := true;
      } else if e.kind == Gift {
        giftCount := giftCount + 1;
        giftTotal := giftTotal + if e.giftValue.Some? then e.giftValue.value else 0;
      }
      r := Row(e.userName, commentCount, liked, shared, followed, giftCount, giftTotal, recent,
               if row.Some? then row.value.firstSeen else now, now);
    }

    /** Forgets every viewer not seen since the cutoff, and returns how many rows that removed. */
    method Cleanup(retentionDays: int, now: real, fault: Fault) returns (removed: nat)
      requires Valid()
      modifies this
      ensures Valid()
      ensures log == if fault == LookupFails || fault == WriteFails then old(log)
                     else old(log) + [Cleaned(now - (retentionDays * 86400) as real)]
      ensures fault == NoFault ==> removed == |old(viewers)| - |viewers|
      ensures fault != NoFault ==> removed == 0
    {
      var cutoff := now - (retentionDays * 86400) as real;
      if fault == LookupFails || fault == WriteFails {
        return 0;
      }
      var stale := set k | k in viewers && viewers[k].lastSeen < cutoff;
      CleanRefines(recentCommentsLimit, viewers, log, cutoff, stale);
      RemovedCount(viewers, stale);
      viewers := viewers - stale;
      log := log + [Cleaned(cutoff)];
      removed := if fault == CommitFails then 0 else |stale|;
    }
  }

  // ---------------------------------------------------------------- why the store is right

  lemma KeptSnoc(limit: int, all: seq<Remark>, r: Remark)
    ensures PyLast(Kept(limit, all) + [r], limit) == Kept(limit, all + [r])
  {
  }

  lemma CountSnoc(h: seq<Sighting>, s: Sighting, kind: Kind)
    ensures Count(h + [s], kind) == Count(h, kind) + if s.event.kind == kind then 1 else 0
  {
    assert (h + [s])[..|h|] == h;
  }

  lemma RemarksSnoc(h: seq<Sighting>, s: Sighting)
    ensures Remarks(h + [s]) == Remarks(h) + if Speaks(s.event) then [Remark(s.event.text.value, s.at)] else []
  {
    assert (h + [s])[..|h|] == h;
  }

  lemma GiftSumSnoc(h: seq<Sighting>, s: Sighting)
    ensures GiftSum(h + [s])
            == GiftSum(h) + if s.event.kind == Gift && s.event.giftValue.Some? then s.event.giftValue.value else 0
  {
    assert (h + [s])[..|h|] == h;
  }

  /** One more sighting, column by column: counters, flags, total, kept remarks and times of the summary. */
  lemma SummarySnoc(limit: int, h: seq<Sighting>, s: Sighting)
    ensures var n, e := h + [s], s.event;
            && (forall kind :: Count(n, kind) == Count(h, kind) + if e.kind == kind then 1 else 0)
            && GiftSum(n) == GiftSum(h) + (if e.kind == Gift && e.giftValue.Some? then e.giftValue.value else 0)
            && Kept(limit, Remarks(n)) == (if Speaks(e)
                                           then PyLast(Kept(limit, Remarks(h)) + [Remark(e.text.value, s.at)], limit)
                                           else Kept(limit, Remarks(h)))
            && n[0] == (if h == [] then s else h[0])
  {
    hide Kept, Count, GiftSum, Remarks;
    forall kind ensures Count(h + [s], kind) == Count(h, kind) + if s.event.kind == kind then 1 else 0 {
      CountSnoc(h, s, kind);
    }
    GiftSumSnoc(h, s);
    RemarksSnoc(h, s);
    if Speaks(s.event) {
      KeptSnoc(limit, Remarks(h), Remark(s.event.text.value, s.at));
    } else {
      assert Remarks(h) + [] == Remarks(h);
    }
  }

  lemma HistorySnoc(log: seq<Entry>, e: Entry, key: Key)
    ensures History(log + [e], key) == Extended(History(log, key), e, key)
  {
    assert (log + [e])[..|log|] == log;
  }

  /** Writing one row keeps the table faithful to the log. */
  lemma RecordRefines(limit: int, viewers: map<Key, Row>, log: seq<Entry>, e: Entry, row: Row)
    requires Refines(limit, viewers, log)
    requires e.Recorded? && row == Summary(limit, History(log, e.key) + [Sighting(e.event, e.at)])
    ensures Refines(limit, viewers[e.key := row], log + [e])
  {
    forall k ensures Lookup(viewers[e.key := row], k) == RowOf(limit, log + [e], k) {
      HistorySnoc(log, e, k);
      assert Lookup(viewers, k) == RowOf(limit, log, k);
    }
  }

  /** So does deleting the rows last seen before the cutoff. */
  lemma CleanRefines(limit: int, viewers: map<Key, Row>, log: seq<Entry>, cutoff: real, stale: set<Key>)
    requires Refines(limit, viewers, log)
    requires stale == set k | k in viewers && viewers[k].lastSeen < cutoff
    ensures Refines(limit, viewers - stale, log + [Cleaned(cutoff)])
  {
    forall k ensures Lookup(viewers - stale, k) == RowOf(limit, log + [Cleaned(cutoff)], k) {
      HistorySnoc(log, Cleaned(cutoff), k);
      assert Lookup(viewers, k) == RowOf(limit, log, k);
    }
  }

  lemma RemovedCount(m: map<Key, Row>, stale: set<Key>)
    requires stale <= m.Keys
    ensures |m - stale| == |m| - |stale|
  {
    assert (m - stale).Keys == m.Keys - stale;
    assert |m.Keys| == |m.Keys - stale| + |stale| by {
      assert m.Keys == (m.Keys - stale) + stale;
    }
  }

  /** Viewers, owners and memory buckets never mix: only entries under exactly this key, and cleanups,
      decide what is remembered under it. */
  lemma {:induction false} OtherKeysDoNotMatter(log: seq<Entry>, key: Key)
    ensures History(log, key) == History(Only(log, key), key)
  {
    if log != [] {
      var p, e := log[..|log| - 1], log[|log| - 1];
      OtherKeysDoNotMatter(p, key);
      assert Only(p, key) + [] == Only(p, key);
      if e.Cleaned? || e.key == key {
        HistorySnoc(Only(p, key), e, key);
        assert Only(log, key) == Only(p, key) + [e];
      }
    }
  }

  function Only(log: seq<Entry>, key: Key): seq<Entry> {
    if log == [] then [] else
    var e := log[|log| - 1];
    Only(log[..|log| - 1], key) + if e.Cleaned? || e.key == key then [e] else []
  }

  /** A known viewer gets no note exactly if all they ever did was send gifts worth nothing in total: a
      missing note does not mean a first visit. */
  lemma {:induction false} NoNoteExactly(limit: int, h: seq<Sighting>)
    requires h != []
    ensures NoteOf(Some(Summary(limit, h))) == None <==>
            (forall i :: 0 <= i < |h| ==> h[i].event.kind == Gift) && GiftSum(h) <= 0
  {
    OnlyGifts(h);
    RemarksAreComments(h);
  }

  lemma {:induction false} OnlyGifts(h: seq<Sighting>)
    ensures Count(h, Comment) + Count(h, Like) + Count(h, Share) + Count(h, Follow) == 0 <==>
            forall i :: 0 <= i < |h| ==> h[i].event.kind == Gift
  {
    if h != [] {
      OnlyGifts(h[..|h| - 1]);
    }
  }

  lemma {:induction false} RemarksAreComments(h: seq<Sighting>)
    ensures |Remarks(h)| <= Count(h, Comment)
  {
    if h != [] {
      RemarksAreComments(h[..|h| - 1]);
    }
  }

  /** With a limit of at least 1 at most that many remarks are kept, newest last; the limit bounds nothing
      exactly when it is 0. */
  lemma LimitBounds(limit: int)
    ensures (forall all: seq<Remark> :: |Kept(limit, all)| <= Max(0, limit)) <==> limit != 0
  {
    if limit == 0 {
      var one := [Remark("hi", 0.0)];
      assert |Kept(limit, one)| == 1;
    }
  }

  /** The quote in a note is the viewer's latest remark, whatever the limit, as long as it is not negative. */
  lemma QuoteIsLatest(limit: int, h: seq<Sighting>)
    requires limit >= 0 && Remarks(h) != []
    ensures var row, last := Summary(limit, h), Remarks(h)[|Remarks(h)| - 1];
            row.recent != [] && row.recent[|row.recent| - 1] == last && LastSaid(Quote(last.text)) in Parts(row)
  {
    var row := Summary(limit, h);
    assert row.recent == Kept(limit, Remarks(h));
    hide Summary, Count, GiftSum, Remarks, Kept, Parts, Quote;
    KeptKeepsTheLast(limit, Remarks(h));
    LastSaidIsAPart(row);
  }

  lemma LastSaidIsAPart(row: Row)
    requires row.recent != []
    ensures LastSaid(Quote(row.recent[|row.recent| - 1].text)) in Parts(row)
  {
    var quote := LastSaid(Quote(row.recent[|row.recent| - 1].text));
    assert Parts(row) == Deeds(row) + [quote];
    assert (Deeds(row) + [quote])[|Deeds(row)|] == quote;
  }

  lemma KeptKeepsTheLast(limit: int, all: seq<Remark>)
    requires limit >= 0 && all != []
    ensures var kept := Kept(limit, all); kept != [] && kept[|kept| - 1] == all[|all| - 1]
  {
  }
}
