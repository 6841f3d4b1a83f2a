/**
 The bounded event buffer of one subscription (packages/mcp/src/subscriptions.ts).

 `heard` is every valid event the source delivered to the subscription, and `history` those
 its filter selects. The buffer keeps the newest of them that fit, and a reader follows it by
 cursor.
 */
module EventBuffer {
  import opened Options

  datatype Kind = Message | Notice | Request

  /** `groupId` and `userId` are None when the event has no number there. */
  datatype Event = Event(postType: string, groupId: Option<int>, userId: Option<int>, body: string, size: nat)

  datatype Filter = Filter(kinds: set<Kind>, groupIds: Option<set<int>>, userIds: Option<set<int>>)

  datatype Status = Connecting | Connected | Disconnected

  datatype Buffered = Buffered(cursor: nat, event: Event)

  /** A frame that is not an event, an event of another account, or an event of this one. */
  datatype Frame = Invalid | OtherAccount | Valid(event: Event)

  datatype Snapshot = Snapshot(nextCursor: nat, oldestCursor: nat, dropped: nat, gap: bool, events: seq<Buffered>)

  const MAX_BUFFER_EVENTS: nat := 256
  const MAX_BUFFER_BYTES: nat := 1024 * 1024
  const MAX_SAFE_INTEGER: nat := 0x1f_ffff_ffff_ffff

  // ------------------------------------------------------------------ filter

  function EventKind(postType: string): Option<Kind> {
    if postType == "message" || postType == "message_sent" then Some(Message)
    else if postType == "notice" then Some(Notice)
    else if postType == "request" then Some(Request)
    else None
  }

  predicate IsId(id: Option<int>) {
    id.Some? && 0 < id.value <= MAX_SAFE_INTEGER
  }

  predicate Excluded(ids: Option<set<int>>, id: Option<int>) {
    ids.Some? && (!IsId(id) || id.value !in ids.value)
  }

  predicate Matches(f: Filter, e: Event) {
    var kind := EventKind(e.postType);
    kind.Some? && kind.value in f.kinds && !Excluded(f.groupIds, e.groupId) && !Excluded(f.userIds, e.userId)
  }

  function Matched(f: Filter, events: seq<Event>): seq<Event> {
    if events == [] then []
    else
      var rest := Matched(f, events[..|events| - 1]);
      if Matches(f, events[|events| - 1]) then rest + [events[|events| - 1]] else rest
  }

  // ------------------------------------------------------------------ what fits

  function Bytes(events: seq<Event>): nat {
    if events == [] then 0 else events[0].size + Bytes(events[1..])
  }

  predicate Fits(events: seq<Event>) {
    |events| <= 256 && Bytes(events) <= 1048576
  }

  /** `history[d..]` is the longest suffix that fits. */
  ghost predicate LongestFit(history: seq<Event>, d: nat) {
    d <= |history| && Fits(history[d..]) && OnlyFrom(history, d)
  }

  ghost predicate OnlyFrom(history: seq<Event>, d: nat) {
    forall c :: 0 <= c < d <= |history| ==> !Fits(history[c..])
  }

  lemma {:induction false} BytesAppend(events: seq<Event>, e: Event)
    ensures Bytes(events + [e]) == Bytes(events) + e.size
  {
    if events != [] {
      assert (events + [e])[1..] == events[1..] + [e];
      BytesAppend(events[1..], e);
    }
  }

  /** A suffix that did not fit does not fit with one more event. */
  lemma AppendKeepsOnlyFrom(history: seq<Event>, e: Event, d: nat)
    requires OnlyFrom(history, d) && d <= |history|
    ensures OnlyFrom(history + [e], d)
  {
    forall c | 0 <= c < d ensures !Fits((history + [e])[c..]) {
      assert (history + [e])[c..] == history[c..] + [e];
      BytesAppend(history[c..], e);
    }
  }

  // ------------------------------------------------------------------ the buffer

  /** The buffer holds `history[dropped..]`, numbered from `dropped + 1`, with its exact size. */
  ghost predicate Holds(events: seq<Buffered>, bytes: int, cursor: nat, dropped: nat, history: seq<Event>) {
    && cursor == |history| && dropped <= cursor && |events| == cursor - dropped
    && (forall i :: 0 <= i < |events| ==> events[i] == Buffered(dropped + 1 + i, history[dropped + i]))
    && bytes == Bytes(history[dropped..])
  }

  lemma PushHolds(events: seq<Buffered>, bytes: int, cursor: nat, dropped: nat, history: seq<Event>, e: Event)
    requires Holds(events, bytes, cursor, dropped, history)
    ensures Holds(events + [Buffered(cursor + 1, e)], bytes + e.size, cursor + 1, dropped, history + [e])
  {
    assert (history + [e])[dropped..] == history[dropped..] + [e];
    BytesAppend(history[dropped..], e);
  }

  lemma ShiftHolds(events: seq<Buffered>, bytes: int, cursor: nat, dropped: nat, history: seq<Event>)
    requires Holds(events, bytes, cursor, dropped, history) && OnlyFrom(history, dropped)
    requires |events| > MAX_BUFFER_EVENTS || bytes > MAX_BUFFER_BYTES
    ensures |events| > 0
    ensures Holds(events[1..], bytes - events[0].event.size, cursor, dropped + 1, history) && OnlyFrom(history, dropped + 1)
  {
    assert |events| > 0;
    assert history[dropped..][1..] == history[dropped + 1..];
    assert !Fits(history[dropped..]);
  }

  // ------------------------------------------------------------------ reading

  function Later(events: seq<Buffered>, after: Option<nat>): seq<Buffered> {
    if events == [] then []
    else if after == None || events[0].cursor > after.value then [events[0]] + Later(events[1..], after)
    else Later(events[1..], after)
  }

  function Numbered(history: seq<Event>, start: nat): seq<Buffered>
    requires start <= |history|
  {
    seq(|history| - start, i requires 0 <= i < |history| - start => Buffered(start + 1 + i, history[start + i]))
  }

  /** In a contiguous buffer the later events are the suffix behind `after`. */
  lemma {:induction false} LaterIsSuffix(events: seq<Buffered>, start: nat, after: Option<nat>)
    requires forall i :: 0 <= i < |events| ==> events[i].cursor == start + 1 + i
    requires after.Some? ==> after.value <= start + |events|
    ensures
      var skipped := if after.Some? && after.value > start then after.value - start else 0;
      Later(events, after) == events[skipped..]
  {
    if events != [] {
      LaterIsSuffix(events[1..], start + 1, if after.Some? then Some(after.value) else None);
    }
  }

  class Subscription {
    const filter: Filter
    var events: seq<Buffered>
    var bytes: int
    var cursor: nat
    var dropped: nat
    var status: Status
    /** The source's own state. */
    var verified: bool
    var stopped: bool
    ghost var heard: seq<Event>

    ghost function History(): seq<Event>
      reads this
    {
      Matched(filter, heard)
    }

    ghost predicate Valid()
      reads this
    {
      && Holds(events, bytes, cursor, dropped, History())
      && LongestFit(History(), dropped)
      && (status == Disconnected <==> stopped)
    }

    /** A source may already be verified when a subscription joins it. */
    constructor (filter: Filter, verified: bool)
      ensures Valid() && heard == [] && status == Connecting && this.filter == filter && this.verified == verified
    {
      this.filter := filter;
      events, bytes, cursor, dropped, status := [], 0, 0, 0, Connecting;
      this.verified, stopped := verified, false;
      heard := [];
    }

    /** The wait for the source is over. */
    method Established() returns (ok: bool)
      requires Valid()
      modifies `status
      ensures Valid() && ok == !stopped && status == if ok then Connected else Disconnected
    {
      ok := !stopped;
      if ok {
        status := Connected;
      }
    }

    method FailSource()
      requires Valid()
      modifies `status, `stopped
      ensures Valid() && stopped && status == Disconnected
    {
      if stopped {
        return;
      }
      stopped, status := true, Disconnected;
    }

    method Receive(frame: Frame)
      requires Valid()
      modifies this
      ensures Valid()
      ensures heard == if old(stopped) || !frame.Valid? then old(heard) else old(heard) + [frame.event]
      ensures stopped == (old(stopped) || !frame.Valid?)
      ensures !stopped && !old(verified) ==> status == Connected && verified
      ensures old(stopped) || old(verified) || !frame.Valid? ==> verified == old(verified)
      ensures !stopped && old(verified) ==> status == old(status)
      ensures heard == old(heard) ==> events == old(events) && cursor == old(cursor) && dropped == old(dropped)
      ensures dropped >= old(dropped)
    {
      hide Holds, LongestFit, Matches;
      if stopped {
        return;
      }
      if !frame.Valid? {
        FailSource();
        return;
      }
      if !verified {
        verified, status := true, Connected;
      }
      ghost var was := heard;
      assert (was + [frame.event])[..|was|] == was;
      heard := heard + [frame.event];
      var selected := Selects(frame.event);
      if selected {
        Push(frame.event, Matched(filter, was));
      }
    }

    /** The subscription's filter, as the source runs it over one event. */
    method Selects(e: Event) returns (selected: bool)
      ensures selected == Matches(filter, e)
    {
      var kind := None;
      if e.postType == "message" || e.postType == "message_sent" {
        kind := Some(Message);
      } else if e.postType == "notice" {
        kind := Some(Notice);
      } else if e.postType == "request" {
        kind := Some(Request);
      }
      if kind == None {
        return false;
      }
      var group, user := filter.groupIds, filter.userIds;
      if kind.value !in filter.kinds {
        return false;
      }
      if group.Some? && (e.groupId == None || e.groupId.value <= 0 || e.groupId.value > 9007199254740991 || e.groupId.value !in group.value) {
        return false;
      }
      if user.Some? && (e.userId == None || e.userId.value <= 0 || e.userId.value > 9007199254740991 || e.userId.value !in user.value) {
        return false;
      }
      return true;
    }

    /** Appends, then drops from the front until both bounds hold: the least that can be dropped. */
    method Push(e: Event, ghost history: seq<Event>)
      requires Holds(events, bytes, cursor, dropped, history) && LongestFit(history, dropped)
      modifies `events, `bytes, `cursor, `dropped
      ensures Holds(events, bytes, cursor, dropped, history + [e]) && LongestFit(history + [e], dropped)
      ensures dropped >= old(dropped)
    {
      hide OnlyFrom, Bytes;
      PushHolds(events, bytes, cursor, dropped, history, e);
      AppendKeepsOnlyFrom(history, e, dropped);
      cursor := cursor + 1;
      events := events + [Buffered(cursor, e)];
      bytes := bytes + e.size;
      while |events| > MAX_BUFFER_EVENTS || bytes > MAX_BUFFER_BYTES
        invariant Holds(events, bytes, cursor, dropped, history + [e])
        invariant OnlyFrom(history + [e], dropped) && dropped >= old(dropped)
        decreases |events|
      {
        ShiftHolds(events, bytes, cursor, dropped, history + [e]);
        bytes := bytes - events[0].event.size;
        events := events[1..];
        dropped := dropped + 1;
      }
    }

    /**
     Reads from a cursor. The gap flag is exact while connected: some event after the cursor was
     dropped. Without a gap the answer is the whole history after the cursor.
     */
    method Read(after: Option<nat>) returns (r: Option<Snapshot>)
      requires Valid()
      ensures r == None <==> after.Some? && (after.value > 9007199254740991 || after.value > |History()|)
      ensures r.Some? ==>
                var from := if after.Some? then after.value else 0;
                && r.value.nextCursor == |History()|
                && r.value.dropped == dropped && r.value.oldestCursor == dropped + 1
                && (r.value.gap <==> status == Disconnected || from < dropped)
                && r.value.events == Numbered(History(), if from < dropped then dropped else from)
    {
      hide LongestFit, Matched, Later, Bytes;
      if after.Some? && (after.value > MAX_SAFE_INTEGER || after.value > cursor) {
        return None;
      }
      var oldest := if events == [] then cursor + 1 else events[0].cursor;
      var from := if after.Some? then after.value else 0;
      LaterIsSuffix(events, dropped, after);
      r := Some(Snapshot(cursor, oldest, dropped, status == Disconnected || from < oldest - 1, Later(events, after)));
    }
  }

  // ------------------------------------------------------------------ a reader

  datatype Step = Arrives(frame: Frame) | SourceFails | Reads

  /** The events that reach a subscription, and whether its source has stopped. */
  function Delivered(steps: seq<Step>): (seq<Event>, bool) {
    if steps == [] then ([], false)
    else
      var (events, stopped) := Delivered(steps[..|steps| - 1]);
      match steps[|steps| - 1]
      case Arrives(frame) => if stopped || !frame.Valid? then (events, true) else (events + [frame.event], false)
      case SourceFails => (events, true)
      case Reads => (events, stopped)
  }

  /** What the subscription matched of them. */
  function HistoryOf(f: Filter, steps: seq<Step>): seq<Event> {
    Matched(f, Delivered(steps).0)
  }

  /**
   The only right answer to a read from `after`: the dropped events are those the bounds force
   out, the gap flag tells exactly that one of them lies behind the cursor or the source is gone,
   and the events are the rest of the history.
   */
  ghost predicate IsAnswer(r: Snapshot, history: seq<Event>, stopped: bool, after: nat) {
    && r.nextCursor == |history| && LongestFit(history, r.dropped) && r.oldestCursor == r.dropped + 1
    && after <= |history| && (r.gap <==> stopped || after < r.dropped)
    && r.events == Numbered(history, if after < r.dropped then r.dropped else after)
  }

  /** History, source state and cursor leave no choice. */
  lemma OneAnswer(r: Snapshot, q: Snapshot, history: seq<Event>, stopped: bool, after: nat)
    requires IsAnswer(r, history, stopped, after) && IsAnswer(q, history, stopped, after)
    ensures r == q
  {
    assert Fits(history[r.dropped..]) && Fits(history[q.dropped..]);
  }

  function Cursor(answers: seq<Snapshot>): nat {
    if answers == [] then 0 else answers[|answers| - 1].nextCursor
  }

  /** One right answer per read, each asked for from the cursor of the one before. */
  ghost predicate Answered(f: Filter, steps: seq<Step>, answers: seq<Snapshot>) {
    if steps == [] then answers == []
    else
      var init := steps[..|steps| - 1];
      if steps[|steps| - 1] != Reads then Answered(f, init, answers)
      else
        && answers != [] && Answered(f, init, answers[..|answers| - 1])
        && IsAnswer(answers[|answers| - 1], HistoryOf(f, init), Delivered(init).1, Cursor(answers[..|answers| - 1]))
  }

  ghost predicate GapFree(answers: seq<Snapshot>) {
    forall i :: 0 <= i < |answers| ==> !answers[i].gap
  }

  function Bodies(events: seq<Buffered>): seq<Event> {
    seq(|events|, i requires 0 <= i < |events| => events[i].event)
  }

  /** Everything the answers brought, one after the other. */
  function Seen(answers: seq<Snapshot>): seq<Event> {
    if answers == [] then [] else Seen(answers[..|answers| - 1]) + Bodies(answers[|answers| - 1].events)
  }

  lemma HistoryGrows(f: Filter, steps: seq<Step>)
    requires steps != []
    ensures HistoryOf(f, steps[..|steps| - 1]) <= HistoryOf(f, steps)
  {
    var was, now := Delivered(steps[..|steps| - 1]).0, Delivered(steps).0;
    assert now != was ==> now[..|now| - 1] == was;
  }

  /**
   A reader whose reads report no gap has seen exactly the matched history up to its cursor:
   none lost, none repeated, none out of order, whatever was dropped behind it.
   */
  lemma {:induction false} GapFreeReaderSeesAll(f: Filter, steps: seq<Step>, answers: seq<Snapshot>)
    requires Answered(f, steps, answers) && GapFree(answers)
    ensures Cursor(answers) <= |HistoryOf(f, steps)| && Seen(answers) == HistoryOf(f, steps)[..Cursor(answers)]
    ensures steps != [] && steps[|steps| - 1] == Reads ==> Seen(answers) == HistoryOf(f, steps)
    decreases |steps|
  {
    if steps != [] {
      var init := steps[..|steps| - 1];
      HistoryGrows(f, steps);
      if steps[|steps| - 1] != Reads {
        GapFreeReaderSeesAll(f, init, answers);
      } else {
        var before, r := answers[..|answers| - 1], answers[|answers| - 1];
        GapFreeReaderSeesAll(f, init, before);
        var history := HistoryOf(f, init);
        assert Bodies(r.events) == history[Cursor(before)..];
      }
    }
  }

  /** A reader whose last read fell into a gap, with the source alive, has missed an event for good. */
  lemma GapMeansLoss(f: Filter, steps: seq<Step>, answers: seq<Snapshot>)
    requires Answered(f, steps + [Reads], answers) && !Delivered(steps).1 && answers[|answers| - 1].gap
    ensures
      var r, from := answers[|answers| - 1], Cursor(answers[..|answers| - 1]);
      from < r.dropped <= |HistoryOf(f, steps)| && !Fits(HistoryOf(f, steps)[from..])
      && forall i :: 0 <= i < |r.events| ==> r.events[i].cursor > from + 1
  {
    assert (steps + [Reads])[..|steps|] == steps;
  }

  /**
   Any interleaving of arrivals, a failing source and a reader that asks from the last cursor it
   was given: the subscription hears what was delivered, and every read gets its right answer.
   */
  method Follow(sub: Subscription, steps: seq<Step>) returns (answers: seq<Snapshot>)
    requires sub.Valid() && sub.heard == [] && !sub.stopped && |steps| <= MAX_SAFE_INTEGER
    modifies sub
    ensures sub.Valid() && sub.heard == Delivered(steps).0 && sub.stopped == Delivered(steps).1
    ensures Answered(sub.filter, steps, answers)
    ensures Cursor(answers) <= |HistoryOf(sub.filter, steps)|
    ensures GapFree(answers) ==> Seen(answers) == HistoryOf(sub.filter, steps)[..Cursor(answers)]
  {
    hide Holds, LongestFit, Matches, IsAnswer, Matched;
    answers := [];
    var i, after := 0, 0;
    while i < |steps|
      invariant i <= |steps| && sub.Valid()
      invariant sub.heard == Delivered(steps[..i]).0 && sub.stopped == Delivered(steps[..i]).1
      invariant |sub.heard| <= i && after == Cursor(answers) <= |sub.History()|
      invariant Answered(sub.filter, steps[..i], answers)
    {
      assert steps[..i + 1][..i] == steps[..i];
      ghost var was := sub.heard;
      match steps[i] {
        case Arrives(frame) => sub.Receive(frame);
        case SourceFails => sub.FailSource();
        case Reads =>
          MatchedIsFewer(sub.filter, sub.heard);
          var r := sub.Read(Some(after));
          assert IsAnswer(r.value, sub.History(), sub.stopped, after) by { RightAnswer(r.value, sub.History(), sub.stopped, after, sub.dropped); }
          assert (answers + [r.value])[..|answers|] == answers;
          answers := answers + [r.value];
          after := r.value.nextCursor;
      }
      MatchedGrows(sub.filter, was, sub.heard);
      i := i + 1;
    }
    assert steps[..|steps|] == steps;
    if GapFree(answers) {
      GapFreeReaderSeesAll(sub.filter, steps, answers);
    }
  }

  lemma RightAnswer(r: Snapshot, history: seq<Event>, stopped: bool, after: nat, dropped: nat)
    requires LongestFit(history, dropped) && after <= |history|
    requires r.nextCursor == |history| && r.dropped == dropped && r.oldestCursor == dropped + 1
    requires (r.gap <==> stopped || after < dropped) && r.events == Numbered(history, if after < dropped then dropped else after)
    ensures IsAnswer(r, history, stopped, after)
  {
  }

  lemma {:induction false} MatchedIsFewer(f: Filter, events: seq<Event>)
    ensures |Matched(f, events)| <= |events|
  {
    if events != [] {
      MatchedIsFewer(f, events[..|events| - 1]);
    }
  }

  lemma MatchedGrows(f: Filter, was: seq<Event>, now: seq<Event>)
    requires now == was || (|now| == |was| + 1 && now[..|was|] == was)
    ensures Matched(f, was) <= Matched(f, now)
  {
  }
}
