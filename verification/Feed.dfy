// A client connection: its bounded send queue and the live push of stored events. With the
// pages fetched up to the high-water mark, what it is sent is the log, without gap or repeat.
module Feed {
  import opened Basics
  import opened Paging

  const FRAME_BYTES := 262144
  const PUMP_LIMIT := 200

  type Event = Stored<Id>

  datatype Frame = EventFrame(session: Id, event: Event, size: nat) | Note(size: nat)

  function Total(frames: seq<Frame>): nat {
    if frames == [] then 0 else Total(frames[..|frames| - 1]) + frames[|frames| - 1].size
  }

  lemma {:induction false} TotalOf(a: seq<Frame>, b: seq<Frame>)
    ensures Total(a + b) == Total(a) + Total(b)
  {
    if b == [] {
      assert a + b == a;
    } else {
      TotalOf(a, b[..|b| - 1]);
      assert (a + b)[..|a + b| - 1] == a + b[..|b| - 1];
    }
  }

  // The events of one session among some frames, in order.
  function EventsOf(frames: seq<Frame>, session: Id): seq<Event> {
    if frames == [] then []
    else
      var f := frames[|frames| - 1];
      EventsOf(frames[..|frames| - 1], session) + if f.EventFrame? && f.session == session then [f.event] else []
  }

  lemma EventsStep(frames: seq<Frame>, f: Frame, session: Id)
    ensures EventsOf(frames + [f], session)
         == EventsOf(frames, session) + if f.EventFrame? && f.session == session then [f.event] else []
  {
    assert (frames + [f])[..|frames|] == frames;
  }

  function Frames(session: Id, events: seq<Event>, size: Event -> nat): seq<Frame> {
    seq(|events|, i requires 0 <= i < |events| => EventFrame(session, events[i], size(events[i])))
  }

  lemma {:induction false} EventsOfFrames(frames: seq<Frame>, session: Id, events: seq<Event>, size: Event -> nat, s: Id)
    ensures EventsOf(frames + Frames(session, events, size), s) == EventsOf(frames, s) + if s == session then events else []
    decreases |events|
  {
    if events == [] {
      assert frames + Frames(session, events, size) == frames;
    } else {
      var front, e := events[..|events| - 1], events[|events| - 1];
      var f := EventFrame(session, e, size(e));
      var before := frames + Frames(session, front, size);
      FramesStep(frames, session, events, size);
      EventsOfFrames(frames, session, front, size, s);
      EventsStep(before, f, s);
      assert events == front + [e];
      if s == session {
        assert EventsOf(frames, s) + front + [e] == EventsOf(frames, s) + events;
      }
    }
  }

  lemma FramesStep(frames: seq<Frame>, session: Id, events: seq<Event>, size: Event -> nat)
    requires events != []
    ensures var n := |events| - 1;
      frames + Frames(session, events, size)
      == frames + Frames(session, events[..n], size) + [EventFrame(session, events[n], size(events[n]))]
  {
  }

  // A session's stored events and the counters of its row.
  datatype Log = Log(purged: bool, earliest: nat, events: seq<Event>)

  function Last(log: Log): int {
    log.earliest + |log.events| - 1
  }

  predicate LogOk(log: Log) {
    Dense(log.events, log.earliest) && (log.purged ==> log.events == [])
  }

  // Later: more events, or none left behind a moved cursor.
  predicate Grows(a: Log, b: Log) {
    if b.purged then b.events == [] && Last(b) >= Last(a)
    else !a.purged && b.earliest == a.earliest && a.events <= b.events
  }

  // Beyond the events sent before, the ones sent are the stored events after one position
  // up to another: no gap, no repeat.
  ghost predicate Follows(sent: seq<Event>, base: seq<Event>, start: nat, reached: nat, log: Log) {
    && LogOk(log) && start <= reached <= Last(log) && base <= sent
    && var pushed := sent[|base|..];
       && Dense(pushed, start + 1) && |pushed| == reached - start
       && (log.earliest <= start + 1 ==> pushed == Slice(log.events, log.earliest, start, reached))
  }

  // The next page after a position: it can be read unless it would start behind the oldest
  // stored event.
  method ReadNext(log: Log, after: nat) returns (r: Page<Id>)
    requires LogOk(log) && after <= Last(log)
    ensures r.Page? <==> log.earliest <= after + 1
    ensures r.Page? ==>
      && after + |r.items| <= Last(log) && r.items == Slice(log.events, log.earliest, after, after + |r.items|)
      && (after < Last(log) ==> r.items != [])
  {
    var last := log.earliest + |log.events| - 1;
    r := ReadEvents(Query(log.events, after, last, PUMP_LIMIT), after, last);
    PageReads(log, after, r);
  }

  // One pump of a session: what is sent next is the stretch of the log after the old position
  // up to the new one; and unless the connection ends, that is not nothing while there is more.
  ghost predicate Moves(sent: seq<Event>, sent': seq<Event>, from: nat, to: nat, log: Log, closed: bool) {
    && from <= to <= Last(log)
    && (if from < to then log.earliest <= from + 1 && sent' == sent + Slice(log.events, log.earliest, from, to) else sent' == sent)
    && (from < Last(log) && !closed ==> from < to)
  }

  lemma FollowsOn(sent: seq<Event>, sent': seq<Event>, base: seq<Event>, start: nat, from: nat, to: nat, log: Log, closed: bool)
    requires Follows(sent, base, start, from, log) && Moves(sent, sent', from, to, log, closed)
    ensures Follows(sent', base, start, to, log)
  {
    if from < to {
      var more := Slice(log.events, log.earliest, from, to);
      assert (sent + more)[|base|..] == sent[|base|..] + more;
      if log.earliest <= start + 1 { SlicesJoin(log.events, log.earliest, start, from, to); }
    }
  }

  lemma FollowsGrown(sent: seq<Event>, base: seq<Event>, start: nat, reached: nat, before: Log, log: Log)
    requires Follows(sent, base, start, reached, before) && LogOk(log) && Grows(before, log)
    ensures Follows(sent, base, start, reached, log)
  {
    if !log.purged && before.earliest <= start + 1 { SliceGrown(before.events, log.events, log.earliest, start, reached); }
    if log.purged && log.earliest <= start + 1 { assert start == reached; }
  }

  class Peer {
    const slots: nat
    const budget: nat
    var queue: seq<Frame>
    var bytes: nat
    var closed: bool
    var watched: map<Id, nat>
    var watching: bool
    // Everything ever taken into the queue, and the part already written out.
    ghost var taken: seq<Frame>
    ghost var written: seq<Frame>
    // For each watched session, the position and the frames when the watch began.
    ghost var start: map<Id, nat>
    ghost var base: map<Id, seq<Event>>

    ghost predicate Valid()
      reads this
    {
      && bytes == Total(queue) && bytes <= budget && |queue| <= slots
      && taken == written + queue
    }

    constructor (slots: nat, budget: nat)
      ensures Valid() && !closed && !watching && watched == map[] && taken == []
      ensures this.slots == slots && this.budget == budget
    {
      this.slots, this.budget := slots, budget;
      queue, bytes, closed, watched, watching := [], 0, false, map[], false;
      taken, written, start, base := [], [], map[], map[];
    }

    method Stop()
      requires Valid()
      modifies this`closed
      ensures Valid() && closed
    {
      closed := true;
    }

    // Whether a frame of this size still goes into the queue.
    predicate Accepts(size: nat)
      reads this
    {
      !closed && size <= FRAME_BYTES && bytes + size <= budget && |queue| < slots
    }

    // `enqueue`: a frame that does not fit ends the connection.
    method Enqueue(f: Frame) returns (ok: bool)
      requires Valid()
      modifies this`queue, this`bytes, this`closed, this`taken
      ensures Valid() && ok == old(Accepts(f.size))
      ensures ok <==> !old(closed) && f.size <= FRAME_BYTES && old(bytes) + f.size <= budget && |old(queue)| < slots
      ensures ok ==> queue == old(queue) + [f] && taken == old(taken) + [f] && !closed
      ensures !ok ==> closed && queue == old(queue) && taken == old(taken)
    {
      if closed || f.size > FRAME_BYTES || bytes + f.size > budget || |queue| >= slots {
        Stop();
        return false;
      }
      TotalOf(queue, [f]);
      assert [f][..0] == [];
      queue := queue + [f];
      bytes := bytes + f.size;
      taken := taken + [f];
      return true;
    }

    // One turn of `writer`: the oldest frame leaves first.
    method WriteOne() returns (f: Frame)
      requires Valid() && queue != []
      modifies this`queue, this`bytes, this`written
      ensures Valid() && [f] + queue == old(queue) && written == old(written) + [f]
    {
      f := queue[0];
      assert queue == [f] + queue[1..];
      TotalOf([f], queue[1..]);
      assert [f][..0] == [];
      queue := queue[1..];
      bytes := bytes - f.size;
      written := written + [f];
    }

    // Where watching a session from this cursor fails.
    static predicate Watchable(log: Log, after: nat) {
      after <= Last(log) && !log.purged && after + 1 >= log.earliest
    }

    // The loop of `watch`: the sessions in order; a repeated or unreadable one refuses it all.
    static method Positions(logs: map<Id, Log>, wanted: seq<(Id, nat)>) returns (ok: bool, next: map<Id, nat>)
      ensures ok <==>
        && (forall i :: 0 <= i < |wanted| ==> wanted[i].0 in logs && Watchable(logs[wanted[i].0], wanted[i].1))
        && (forall i, j :: 0 <= i < j < |wanted| ==> wanted[i].0 != wanted[j].0)
      ensures ok ==> next.Keys == (set i | 0 <= i < |wanted| :: wanted[i].0)
      ensures ok ==> forall s :: s in next ==> s in logs && next[s] == Last(logs[s])
    {
      next := map[];
      for i := 0 to |wanted|
        invariant forall k :: 0 <= k < i ==> wanted[k].0 in logs && Watchable(logs[wanted[k].0], wanted[k].1)
        invariant forall k, j :: 0 <= k < j < i ==> wanted[k].0 != wanted[j].0
        invariant next.Keys == (set k | 0 <= k < i :: wanted[k].0)
        invariant forall s :: s in next ==> s in logs && next[s] == Last(logs[s])
      {
        var (s, after) := wanted[i];
        if s in next || s !in logs || !Watchable(logs[s], after) { return false, next; }
        next := next[s := Last(logs[s])];
      }
      return true, next;
    }

    // `watch`: the connection follows exactly the wanted sessions, from the end of their logs.
    method Watch(logs: map<Id, Log>, wanted: seq<(Id, nat)>) returns (ok: bool)
      requires Valid() && forall s :: s in logs ==> LogOk(logs[s])
      modifies this`watched, this`watching, this`start, this`base
      ensures Valid()
      ensures ok <==>
        && (forall i :: 0 <= i < |wanted| ==> wanted[i].0 in logs && Watchable(logs[wanted[i].0], wanted[i].1))
        && (forall i, j :: 0 <= i < j < |wanted| ==> wanted[i].0 != wanted[j].0)
      ensures ok ==> forall i :: 0 <= i < |wanted| ==>
        var log := logs[wanted[i].0]; !log.purged && log.earliest <= wanted[i].1 + 1 && wanted[i].1 <= Last(log)
      ensures !ok ==>
        || (exists i, j :: 0 <= i < j < |wanted| && wanted[i].0 == wanted[j].0)
        || exists i :: 0 <= i < |wanted| && (wanted[i].0 !in logs || logs[wanted[i].0].purged
                          || wanted[i].1 + 1 < logs[wanted[i].0].earliest || wanted[i].1 > Last(logs[wanted[i].0]))
      ensures ok ==> watching && watched.Keys == (set i | 0 <= i < |wanted| :: wanted[i].0)
      ensures ok ==> forall s :: s in watched ==> s in logs && watched[s] == Last(logs[s]) && InStep(s, logs[s])
      ensures !ok ==> watched == old(watched) && watching == old(watching)
    {
      var next;
      ok, next := Positions(logs, wanted);
      if ok {
        watched, watching := next, true;
        start := next;
        base := map s | s in next :: EventsOf(taken, s);
      }
    }

    // The session's frames since it was watched follow its log.
    ghost predicate InStep(session: Id, log: Log)
      reads this
    {
      && session in watched && session in start && session in base
      && Follows(EventsOf(taken, session), base[session], start[session], watched[session], log)
    }

    // The events pushed since the session was watched.
    ghost function Pushed(session: Id): seq<Event>
      requires session in base && base[session] <= EventsOf(taken, session)
      reads this
    {
      EventsOf(taken, session)[|base[session]|..]
    }

    // The frames of one page, until one is refused.
    method Push(session: Id, events: seq<Event>, size: Event -> nat) returns (n: nat)
      requires Valid() && session in watched && forall i :: 0 <= i < |events| ==> events[i].at == watched[session] + 1 + i
      modifies this`queue, this`bytes, this`closed, this`taken, this`watched
      ensures Valid() && (old(closed) ==> closed) && n <= |events| && (n < |events| ==> closed)
      ensures watched == old(watched)[session := old(watched[session]) + n]
      ensures taken == old(taken) + Frames(session, events[..n], size)
    {
      n := 0;
      while n < |events|
        invariant n <= |events| && Valid() && (old(closed) ==> closed)
        invariant watched == old(watched)[session := old(watched[session]) + n]
        invariant taken == old(taken) + Frames(session, events[..n], size)
      {
        var ok := Enqueue(EventFrame(session, events[n], size(events[n])));
        if !ok { return; }
        assert Frames(session, events[..n + 1], size) == Frames(session, events[..n], size) + [EventFrame(session, events[n], size(events[n]))];
        watched := watched[session := events[n].at];
        n := n + 1;
      }
    }

    // The error frame that ends a watch.
    method Refuse(session: Id)
      requires Valid()
      modifies this`queue, this`bytes, this`closed, this`taken, this`watched
      ensures Valid() && (old(closed) ==> closed) && watched == old(watched) - {session}
      ensures forall s :: EventsOf(taken, s) == old(EventsOf(taken, s))
    {
      ghost var was := taken;
      var ok := Enqueue(Note(0));
      if ok {
        forall s
          ensures EventsOf(taken, s) == EventsOf(was, s)
        {
          EventsStep(was, Note(0), s);
        }
      }
      watched := watched - {session};
    }

    method PushPage(session: Id, ghost log: Log, events: seq<Event>, size: Event -> nat)
      requires Valid() && LogOk(log) && session in watched && log.earliest <= watched[session] + 1
      requires watched[session] + |events| <= Last(log)
      requires events == Slice(log.events, log.earliest, watched[session], watched[session] + |events|)
      requires watched[session] < Last(log) ==> events != []
      modifies this`queue, this`bytes, this`closed, this`taken, this`watched
      ensures Valid() && (old(closed) ==> closed) && watched.Keys == old(watched.Keys)
      ensures forall s :: s != session ==> EventsOf(taken, s) == old(EventsOf(taken, s))
      ensures forall s :: s != session && s in watched ==> watched[s] == old(watched[s])
      ensures Moves(old(EventsOf(taken, session)), EventsOf(taken, session), old(watched[session]), watched[session], log, closed)
    {
      ghost var was, after := taken, watched[session];
      var n := Push(session, events, size);
      EventsOfFrames(was, session, events[..n], size, session);
      forall s | s != session
        ensures EventsOf(taken, s) == EventsOf(was, s)
      {
        EventsOfFrames(was, session, events[..n], size, s);
      }
      SlicePrefix(log, after, events, n);
    }

    // `pump` for one watched session: a page that cannot be read ends the watch.
    method PumpSession(session: Id, log: Log, size: Event -> nat)
      requires Valid() && LogOk(log) && session in watched && watched[session] <= Last(log)
      modifies this`queue, this`bytes, this`closed, this`taken, this`watched
      ensures Valid() && (old(closed) ==> closed)
      ensures session in watched <==> log.earliest <= old(watched[session]) + 1
      ensures forall s :: s != session ==> EventsOf(taken, s) == old(EventsOf(taken, s)) && (s in watched <==> s in old(watched))
      ensures forall s :: s != session && s in watched ==> watched[s] == old(watched[s])
      ensures session in watched ==>
        Moves(old(EventsOf(taken, session)), EventsOf(taken, session), old(watched[session]), watched[session], log, closed)
    {
      var r := ReadNext(log, watched[session]);
      match r
      case CursorExpired => Refuse(session);
      case Page(events) => PushPage(session, log, events, size);
    }

    // `pump`: every watched session in turn, whatever order the map yields.
    method PumpEach(logs: map<Id, Log>, size: Event -> nat)
      requires Valid() && forall s :: s in watched ==> s in logs && LogOk(logs[s]) && watched[s] <= Last(logs[s])
      modifies this`queue, this`bytes, this`closed, this`taken, this`watched
      ensures Valid() && (old(closed) ==> closed)
      ensures forall s :: s in watched <==> s in old(watched) && logs[s].earliest <= old(watched[s]) + 1
      ensures forall s :: s in watched ==>
        Moves(old(EventsOf(taken, s)), EventsOf(taken, s), old(watched[s]), watched[s], logs[s], closed)
    {
      ghost var was, before := taken, watched;
      var todo := watched.Keys;
      while todo != {}
        invariant Valid() && (old(closed) ==> closed) && todo <= before.Keys
        invariant forall s :: s in before ==> Pumped(s, before[s], EventsOf(was, s), logs[s], s !in todo)
        invariant forall s :: s in watched ==> s in before
        decreases |todo|
      {
        var session :| session in todo;
        assert Pumped(session, before[session], EventsOf(was, session), logs[session], false);
        ghost var mid := watched;
        PumpSession(session, logs[session], size);
        forall s | s in before
          ensures Pumped(s, before[s], EventsOf(was, s), logs[s], s !in todo - {session})
        {
          if s != session { assert s in watched ==> watched[s] == mid[s]; }
        }
        todo := todo - {session};
      }
      assert forall s :: s in before ==> Pumped(s, before[s], EventsOf(was, s), logs[s], true);
    }

    // Where one session stands in a pump: not yet visited, or visited.
    ghost predicate Pumped(s: Id, from: nat, sent: seq<Event>, log: Log, visited: bool)
      reads this
    {
      if visited then
        && (s in watched <==> log.earliest <= from + 1)
        && (s in watched ==> Moves(sent, EventsOf(taken, s), from, watched[s], log, closed))
      else s in watched && watched[s] == from && EventsOf(taken, s) == sent
    }

    // After every pump, what each watched session was sent still follows its log.
    method Pump(logs: map<Id, Log>, size: Event -> nat)
      requires Valid() && forall s :: s in watched ==> s in logs && InStep(s, logs[s])
      modifies this`queue, this`bytes, this`closed, this`taken, this`watched
      ensures Valid() && (old(closed) ==> closed)
      ensures forall s :: s in watched <==> s in old(watched) && logs[s].earliest <= old(watched[s]) + 1
      ensures forall s :: s in watched ==> InStep(s, logs[s])
      ensures forall s :: s in watched ==>
        Moves(old(EventsOf(taken, s)), EventsOf(taken, s), old(watched[s]), watched[s], logs[s], closed)
    {
      ghost var was, before := taken, watched;
      PumpEach(logs, size);
      forall s | s in watched
        ensures InStep(s, logs[s])
      {
        FollowsOn(EventsOf(was, s), EventsOf(taken, s), base[s], start[s], before[s], watched[s], logs[s], closed);
      }
    }

    // While a session's log grows, or is purged, what was pushed is still in step with it.
    lemma StillInStep(session: Id, before: Log, log: Log)
      requires InStep(session, before) && LogOk(log) && Grows(before, log)
      ensures InStep(session, log)
    {
      FollowsGrown(EventsOf(taken, session), base[session], start[session], watched[session], before, log);
    }

    // One round of a connection's life: the writer takes some frames, the logs grow, and the
    // pump runs over what they have become.
    method Round(writes: nat, before: map<Id, Log>, logs: map<Id, Log>, size: Event -> nat)
      requires Valid() && AllInStep(before) && LogsGrow(before, logs)
      modifies this`queue, this`bytes, this`closed, this`taken, this`written, this`watched
      ensures Valid() && (old(closed) ==> closed) && AllInStep(logs)
      ensures forall s :: s in watched <==> s in old(watched) && logs[s].earliest <= old(watched[s]) + 1
      ensures forall s :: s in watched ==> old(watched[s]) <= watched[s]
    {
      for i := 0 to writes
        invariant Valid() && closed == old(closed) && taken == old(taken) && watched == old(watched)
      {
        if queue != [] { var f := WriteOne(); }
      }
      forall s | s in watched
        ensures s in logs && InStep(s, logs[s])
      {
        StillInStep(s, before[s], logs[s]);
      }
      Pump(logs, size);
    }

    // Any number of rounds: every session still watched at the end was sent the stretch of
    // its log from where the watch began to where it stands now. A watch ends only when the
    // oldest stored event has moved past where it stood.
    method Serve(turns: seq<Turn>, size: Event -> nat)
      requires Valid() && turns != [] && AllInStep(turns[0].logs) && Grown(turns)
      modifies this`queue, this`bytes, this`closed, this`taken, this`written, this`watched
      ensures Valid() && (old(closed) ==> closed) && AllInStep(turns[|turns| - 1].logs)
      ensures forall s :: s in watched ==> s in old(watched)
      ensures forall s :: s in old(watched) && Keeps(turns, |turns|, s, old(watched[s])) ==> s in watched
    {
      for i := 1 to |turns|
        invariant Valid() && (old(closed) ==> closed) && AllInStep(turns[i - 1].logs)
        invariant forall s :: s in watched ==> s in old(watched)
        invariant forall s :: s in old(watched) && Keeps(turns, i, s, old(watched[s])) ==> s in watched && watched[s] >= old(watched[s])
      {
        ghost var before := watched;
        Round(turns[i].writes, turns[i - 1].logs, turns[i].logs, size);
        forall s | s in old(watched) && Keeps(turns, i + 1, s, old(watched[s]))
          ensures s in watched && watched[s] >= old(watched[s])
        {
          assert Keeps(turns, i, s, old(watched[s]));
          assert s in before && turns[i].logs[s].earliest <= before[s] + 1;
        }
      }
    }

    ghost predicate AllInStep(logs: map<Id, Log>)
      reads this
    {
      forall s :: s in watched ==> s in logs && InStep(s, logs[s])
    }

    // Pages from a cursor up to the position where the watch began, then what was pushed
    // since: all committed events after the cursor, each once, in order.
    lemma CatchUpThenLive(session: Id, log: Log, after: nat,
                          table: seq<Event>, limits: seq<nat>, tables: seq<seq<Event>>, pages: seq<seq<Event>>)
      requires InStep(session, log) && log.earliest <= after + 1 && after <= start[session]
      requires table <= log.events && start[session] < log.earliest + |table|
      requires Fetched(table, log.earliest, after, start[session], limits, tables, pages)
      ensures Flat(pages) + Pushed(session) == Slice(log.events, log.earliest, after, watched[session])
    {
      PagesThenPushed(log, after, start[session], watched[session], table, limits, tables, pages);
    }
  }

  // The frames written in one round, and the logs as the pump then finds them.
  datatype Turn = Turn(writes: nat, logs: map<Id, Log>)

  ghost predicate Grown(turns: seq<Turn>) {
    forall i :: 0 < i < |turns| ==> LogsGrow(turns[i - 1].logs, turns[i].logs)
  }

  // The event after this position stays stored for the first n turns.
  ghost predicate Keeps(turns: seq<Turn>, n: nat, session: Id, at: nat)
    requires n <= |turns|
  {
    forall i :: 0 <= i < n ==> session in turns[i].logs && turns[i].logs[session].earliest <= at + 1
  }

  // Every session's log goes on from one round to the next.
  ghost predicate LogsGrow(a: map<Id, Log>, b: map<Id, Log>) {
    forall s :: s in a ==> s in b && LogOk(b[s]) && Grows(a[s], b[s])
  }

  lemma SlicePrefix(log: Log, after: nat, events: seq<Event>, n: nat)
    requires LogOk(log) && log.earliest <= after + 1 && after + |events| <= Last(log) && n <= |events|
    requires events == Slice(log.events, log.earliest, after, after + |events|)
    ensures events[..n] == Slice(log.events, log.earliest, after, after + n)
  {
  }

  // A page behind the oldest stored event cannot be read; any other is the next stretch.
  lemma PageReads(log: Log, after: nat, r: Page<Id>)
    requires LogOk(log) && after <= Last(log)
    requires IsPage(Query(log.events, after, Last(log), PUMP_LIMIT), after, Last(log), r)
    ensures r.Page? <==> log.earliest <= after + 1
    ensures r.Page? ==>
      && after + |r.items| <= Last(log) && r.items == Slice(log.events, log.earliest, after, after + |r.items|)
      && Consecutive(r.items, after) && (after < Last(log) ==> r.items != [])
  {
    if log.earliest <= after + 1 {
      DensePage(log.events, log.earliest, after, Last(log), PUMP_LIMIT, r);
    } else if log.events != [] {
      assert Between(log.events, after, Last(log))[0] == log.events[0];
      assert Query(log.events, after, Last(log), PUMP_LIMIT)[0] == log.events[0];
    }
  }

  // Pages up to one position and the stretch from there to another.
  lemma PagesThenPushed(log: Log, after: nat, high: nat, reached: nat,
                        table: seq<Event>, limits: seq<nat>, tables: seq<seq<Event>>, pages: seq<seq<Event>>)
    requires LogOk(log) && log.earliest <= after + 1 && after <= high <= reached <= Last(log)
    requires table <= log.events && high < log.earliest + |table| && Fetched(table, log.earliest, after, high, limits, tables, pages)
    ensures Flat(pages) + Slice(log.events, log.earliest, high, reached) == Slice(log.events, log.earliest, after, reached)
  {
    PagesAddUp(table, log.earliest, after, high, limits, tables, pages);
    SliceGrown(table, log.events, log.earliest, after, high);
    SlicesJoin(log.events, log.earliest, after, high, reached);
  }
}
