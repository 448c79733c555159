/** What a viewer's row and note say of the viewer: each column and each part, in terms of what the viewer did, and
    the constants of the store by their values. */
module NoteProofs {
  import opened Wrappers
  import opened Schemas
  import opened Memory

  // ---------------------------------------------------------------- a history, counted and summed up front to back

  function HowMany(h: seq<Sighting>, kind: Kind): nat {
    |set i | 0 <= i < |h| && h[i].event.kind == kind|
  }

  ghost predicate Did(h: seq<Sighting>, kind: Kind) {
    exists i :: 0 <= i < |h| && h[i].event.kind == kind
  }

  function GiftValue(e: SocialEvent): int {
    if e.kind == Gift && e.giftValue.Some? then e.giftValue.value else 0
  }

  function Given(h: seq<Sighting>): int {
    if h == [] then 0 else GiftValue(h[0].event) + Given(h[1..])
  }

  // Said something: a comment that is not empty.
  predicate Said(e: SocialEvent) { e.kind == Comment && e.text.Some? && |e.text.value| > 0 }

  function Spoken(h: seq<Sighting>): seq<Remark> {
    if h == [] then []
    else (if Said(h[0].event) then [Remark(h[0].event.text.value, h[0].at)] else []) + Spoken(h[1..])
  }

  ghost predicate SaidLast(h: seq<Sighting>, i: nat)
    requires i < |h|
  {
    Said(h[i].event) && forall k :: i < k < |h| ==> !Said(h[k].event)
  }

  // A text as a note quotes it.
  function Shortened(text: string): string {
    if |text| > 80 then text[..80] + "\U{2026}" else text
  }

  function Ones(h: seq<Sighting>, kind: Kind): set<int> {
    set i | 0 <= i < |h| && h[i].event.kind == kind
  }

  lemma OnesSnoc(h: seq<Sighting>, s: Sighting, kind: Kind)
    ensures Ones(h + [s], kind) == Ones(h, kind) + (if s.event.kind == kind then {|h|} else {}) && |h| !in Ones(h, kind)
  {
  }

  lemma {:induction false} CountIsHowMany(h: seq<Sighting>, kind: Kind)
    ensures Count(h, kind) == HowMany(h, kind)
  {
    assert HowMany(h, kind) == |Ones(h, kind)|;
    if h != [] {
      var p, s := h[..|h| - 1], h[|h| - 1];
      CountIsHowMany(p, kind);
      assert h == p + [s];
      OnesSnoc(p, s, kind);
      assert HowMany(p, kind) == |Ones(p, kind)|;
    }
  }

  lemma DidSome(h: seq<Sighting>, kind: Kind)
    ensures HowMany(h, kind) > 0 <==> Did(h, kind)
  {
    if Did(h, kind) {
      var i :| 0 <= i < |h| && h[i].event.kind == kind;
      assert i in Ones(h, kind);
    }
    if Ones(h, kind) != {} {
      var i :| i in Ones(h, kind);
      assert h[i].event.kind == kind;
    }
  }

  lemma {:induction false} GivenSnoc(h: seq<Sighting>, s: Sighting)
    ensures Given(h + [s]) == Given(h) + GiftValue(s.event)
  {
    if h != [] {
      GivenSnoc(h[1..], s);
      assert (h + [s])[1..] == h[1..] + [s];
    }
  }

  lemma {:induction false} GiftSumIsGiven(h: seq<Sighting>)
    ensures GiftSum(h) == Given(h)
  {
    if h != [] {
      GiftSumIsGiven(h[..|h| - 1]);
      GivenSnoc(h[..|h| - 1], h[|h| - 1]);
      assert h == h[..|h| - 1] + [h[|h| - 1]];
    }
  }

  lemma {:induction false} SpokenSnoc(h: seq<Sighting>, s: Sighting)
    ensures Spoken(h + [s]) == Spoken(h) + if Said(s.event) then [Remark(s.event.text.value, s.at)] else []
  {
    if h == [] {
      assert h + [s] == [s] && [s][1..] == [];
    } else {
      SpokenSnoc(h[1..], s);
      assert (h + [s])[1..] == h[1..] + [s];
    }
  }

  lemma {:induction false} RemarksAreSpoken(h: seq<Sighting>)
    ensures Remarks(h) == Spoken(h)
  {
    if h != [] {
      RemarksAreSpoken(h[..|h| - 1]);
      SpokenSnoc(h[..|h| - 1], h[|h| - 1]);
      assert h == h[..|h| - 1] + [h[|h| - 1]];
    }
  }

  // The sighting the last remark is of.
  lemma {:induction false} LastRemark(h: seq<Sighting>) returns (i: nat)
    requires Remarks(h) != []
    ensures i < |h| && SaidLast(h, i)
    ensures Remarks(h)[|Remarks(h)| - 1] == Remark(h[i].event.text.value, h[i].at)
  {
    var p, n := h[..|h| - 1], |h| - 1;
    if Said(h[n].event) {
      i := n;
    } else {
      i := LastRemark(p);
      assert h[i] == p[i];
    }
  }

  lemma {:induction false} NoRemark(h: seq<Sighting>, i: nat)
    requires i < |h| && Said(h[i].event)
    ensures Remarks(h) != []
  {
    if i < |h| - 1 {
      NoRemark(h[..|h| - 1], i);
    }
  }

  lemma OneSaidLast(h: seq<Sighting>, i: nat, j: nat)
    requires i < |h| && j < |h| && SaidLast(h, i) && SaidLast(h, j)
    ensures i == j
  {
  }

  // ---------------------------------------------------------------- the row

  /** Every column of a viewer's row, told by what the viewer did. */
  lemma RowTells(limit: int, h: seq<Sighting>)
    requires h != []
    ensures var row := Summary(limit, h);
            && row.commentCount == HowMany(h, Comment) && row.giftCount == HowMany(h, Gift)
            && (row.liked <==> Did(h, Like)) && (row.shared <==> Did(h, Share)) && (row.followed <==> Did(h, Follow))
            && row.giftTotal == Given(h)
            && row.userName == h[|h| - 1].event.userName && row.firstSeen == h[0].at && row.lastSeen == h[|h| - 1].at
            && (limit == 0 ==> row.recent == Spoken(h)) && (limit < 0 ==> row.recent == [])
            && (limit > 0 ==> row.recent == Spoken(h)[Max(0, |Spoken(h)| - limit)..])
  {
    hide Count, GiftSum, Remarks, Did, HowMany, Spoken, Given;
    CountIsHowMany(h, Comment);
    CountIsHowMany(h, Gift);
    CountIsHowMany(h, Like);
    DidSome(h, Like);
    CountIsHowMany(h, Share);
    DidSome(h, Share);
    CountIsHowMany(h, Follow);
    DidSome(h, Follow);
    GiftSumIsGiven(h);
    RemarksAreSpoken(h);
  }

  // ---------------------------------------------------------------- the note

  // The place of a part in a note.
  function Place(p: NotePart): nat {
    match p
    case Commented(_) => 0
    case OnceLiked => 1
    case OnceShared => 2
    case Follows => 3
    case Gifted(_) => 4
    case LastSaid(_) => 5
  }

  ghost predicate InPlace(parts: seq<NotePart>) {
    forall i, j :: 0 <= i < j < |parts| ==> Place(parts[i]) < Place(parts[j])
  }

  function PartsOf(note: Option<seq<NotePart>>): seq<NotePart> {
    if note.Some? then note.value else []
  }

  lemma ConcatInPlace(p: seq<NotePart>, q: seq<NotePart>, place: nat)
    requires InPlace(p) && InPlace(q)
    requires (forall i :: 0 <= i < |p| ==> Place(p[i]) < place) && (forall i :: 0 <= i < |q| ==> Place(q[i]) == place)
    ensures InPlace(p + q) && forall i :: 0 <= i < |p + q| ==> Place((p + q)[i]) < place + 1
  {
  }

  lemma WhenInPlace(p: seq<NotePart>, c: bool, part: NotePart)
    requires InPlace(p) && forall i :: 0 <= i < |p| ==> Place(p[i]) < Place(part)
    ensures InPlace(p + When(c, part))
    ensures forall i :: 0 <= i < |p + When(c, part)| ==> Place((p + When(c, part))[i]) < Place(part) + 1
  {
    ConcatInPlace(p, When(c, part), Place(part));
  }

  lemma RowsPartsInPlace(row: Row)
    ensures InPlace(Parts(row))
  {
    hide When, InPlace;
    NothingInPlace();
    var a := [] + When(row.commentCount > 0, Commented(row.commentCount));
    WhenInPlace([], row.commentCount > 0, Commented(row.commentCount));
    var b := a + When(row.liked, OnceLiked);
    WhenInPlace(a, row.liked, OnceLiked);
    var c := b + When(row.shared, OnceShared);
    WhenInPlace(b, row.shared, OnceShared);
    var d := c + When(row.followed, Follows);
    WhenInPlace(c, row.followed, Follows);
    var e := d + When(row.giftTotal > 0, Gifted(row.giftTotal));
    WhenInPlace(d, row.giftTotal > 0, Gifted(row.giftTotal));
    assert Deeds(row) == e;
    EndsInQuote(row);
  }

  lemma NothingInPlace()
    ensures InPlace([])
  {
  }

  lemma EndsInQuote(row: Row)
    requires InPlace(Deeds(row)) && forall i :: 0 <= i < |Deeds(row)| ==> Place(Deeds(row)[i]) < 5
    ensures InPlace(Parts(row))
  {
    hide Deeds;
    if row.recent == [] {
      assert Parts(row) == Deeds(row);
    } else {
      ConcatInPlace(Deeds(row), [LastSaid(Quote(row.recent[|row.recent| - 1].text))], 5);
    }
  }

  // Which parts a row calls for.
  ghost predicate CalledFor(row: Row, p: NotePart) {
    match p
    case Commented(n) => n == row.commentCount > 0
    case OnceLiked => row.liked
    case OnceShared => row.shared
    case Follows => row.followed
    case Gifted(t) => t == row.giftTotal > 0
    case LastSaid(text) => row.recent != [] && text == Shortened(row.recent[|row.recent| - 1].text)
  }

  lemma WhenHolds(c: bool, part: NotePart, p: NotePart)
    ensures p in When(c, part) <==> c && p == part
  {
  }

  lemma RowsPartsCalledFor(row: Row, p: NotePart)
    ensures p in Parts(row) <==> CalledFor(row, p)
  {
    hide When;
    WhenHolds(row.commentCount > 0, Commented(row.commentCount), p);
    WhenHolds(row.liked, OnceLiked, p);
    WhenHolds(row.shared, OnceShared, p);
    WhenHolds(row.followed, Follows, p);
    WhenHolds(row.giftTotal > 0, Gifted(row.giftTotal), p);
  }

  lemma LastKept(limit: int, h: seq<Sighting>)
    requires h != []
    ensures var recent := Summary(limit, h).recent;
            && (recent != [] ==> limit >= 0 && exists i :: 0 <= i < |h| && SaidLast(h, i))
            && forall i :: 0 <= i < |h| && SaidLast(h, i) && limit >= 0 ==>
                 recent != [] && recent[|recent| - 1].text == h[i].event.text.value
  {
    assert Summary(limit, h).recent == Kept(limit, Remarks(h));
    if limit >= 0 && Remarks(h) != [] {
      KeptKeepsTheLast(limit, Remarks(h));
      var last := LastRemark(h);
      forall i | 0 <= i < |h| && SaidLast(h, i) ensures i == last {
        OneSaidLast(h, i, last);
      }
    }
    forall i | 0 <= i < |h| && SaidLast(h, i) ensures Remarks(h) != [] {
      NoRemark(h, i);
    }
  }

  // The note that this history calls for holds p.
  predicate Notes(limit: int, h: seq<Sighting>, p: NotePart)
    requires h != []
  {
    p in PartsOf(NoteOf(Some(Summary(limit, h))))
  }

  /** Every part of a note, told by what the viewer did: who liked, shared or follows is noted as that and nothing
      else, the counts and sums are theirs, the quote is of the last thing they said; there is a note exactly if some
      part is called for, and the parts stand in their order, none twice. */
  lemma NoteTells(limit: int, h: seq<Sighting>)
    requires h != []
    ensures Notes(limit, h, OnceLiked) <==> Did(h, Like)
    ensures Notes(limit, h, OnceShared) <==> Did(h, Share)
    ensures Notes(limit, h, Follows) <==> Did(h, Follow)
    ensures forall n :: Notes(limit, h, Commented(n)) <==> n == HowMany(h, Comment) && n > 0
    ensures forall t :: Notes(limit, h, Gifted(t)) <==> t == Given(h) && t > 0
    ensures forall text :: Notes(limit, h, LastSaid(text)) <==>
              limit >= 0 && exists i :: 0 <= i < |h| && SaidLast(h, i) && text == Shortened(h[i].event.text.value)
    ensures InPlace(PartsOf(NoteOf(Some(Summary(limit, h)))))
    ensures NoteOf(Some(Summary(limit, h))) != Some([])
  {
    hide Parts, HowMany, Given, Did, Spoken, Summary, Shortened;
    var row := Summary(limit, h);
    RowTells(limit, h);
    RowsPartsInPlace(row);
    LastKept(limit, h);
    assert PartsOf(NoteOf(Some(row))) == Parts(row);
    forall p ensures Notes(limit, h, p) <==> CalledFor(row, p) {
      RowsPartsCalledFor(row, p);
    }
    assert Notes(limit, h, OnceLiked) <==> CalledFor(row, OnceLiked);
    assert Notes(limit, h, OnceShared) <==> CalledFor(row, OnceShared);
    assert Notes(limit, h, Follows) <==> CalledFor(row, Follows);
    forall n ensures Notes(limit, h, Commented(n)) <==> n == HowMany(h, Comment) && n > 0 {
      assert Notes(limit, h, Commented(n)) <==> CalledFor(row, Commented(n));
    }
    forall t ensures Notes(limit, h, Gifted(t)) <==> t == Given(h) && t > 0 {
      assert Notes(limit, h, Gifted(t)) <==> CalledFor(row, Gifted(t));
    }
    forall text
      ensures Notes(limit, h, LastSaid(text)) <==>
              limit >= 0 && exists i :: 0 <= i < |h| && SaidLast(h, i) && text == Shortened(h[i].event.text.value)
    {
      assert Notes(limit, h, LastSaid(text)) <==> CalledFor(row, LastSaid(text));
    }
  }

  // ---------------------------------------------------------------- keys and cleanup

  /** Two memory ids are one bucket exactly if they agree in their first 64 characters; owner and viewer count whole. */
  lemma BucketsMeetExactly(owner: string, id: string, viewer: string, owner': string, id': string, viewer': string)
    ensures KeyOf(owner, id, viewer) == KeyOf(owner', id', viewer')
            <==> owner == owner' && viewer == viewer' && id[..Min(64, |id|)] == id'[..Min(64, |id'|)]
  {
  }

  /** A cleanup forgets a viewer exactly if they were last seen before its cutoff, and leaves everyone else alone. */
  lemma CleanupForgetsExactly(log: seq<Entry>, cutoff: real, key: Key)
    requires History(log, key) != []
    ensures var h, h' := History(log, key), History(log + [Cleaned(cutoff)], key);
            if h[|h| - 1].at < cutoff then h' == [] else h' == h
  {
    HistorySnoc(log, Cleaned(cutoff), key);
  }

  /** A sighting is added to its own viewer's history and to no other's. */
  lemma SightingGoesToItsViewer(log: seq<Entry>, key: Key, e: SocialEvent, at: real, other: Key)
    ensures History(log + [Recorded(key, e, at)], other)
            == if other == key then History(log, key) + [Sighting(e, at)] else History(log, other)
  {
    HistorySnoc(log, Recorded(key, e, at), other);
  }
}
