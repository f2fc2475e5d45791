// The Gateway's handler for a source event, over the session and receipt tables it updates.
module GatewayIngest {
  import opened Basics
  import opened IngestWorld

  class Inbox {
    var sessions: map<Id, Session>
    var receipts: map<Id, SourceReceipt>
    var epoch: nat
    var registered: Option<nat>

    ghost function View(): Gateway
      reads this
    {
      Gateway(sessions, receipts, epoch, registered)
    }

    constructor ()
      ensures View() == Initial.g
    {
      sessions, receipts, epoch, registered := map[], map[], 0, None;
    }

    // `source`: a known event is only acknowledged again; a new one is taken in if it is the
    // next of its session and its handler accepts it.
    method Source(e: Event, valid: bool, appended: nat) returns (outcome: Outcome)
      modifies this`sessions, this`receipts
      ensures (View(), outcome) == IngestWorld.Source(old(View()), e, valid, appended)
    {
      if e.session !in sessions { return Refused; }
      if e.id in receipts {
        var r := receipts[e.id];
        if r.body != e.body || r.session != e.session || r.number != e.number { return Conflict; }
        return Duplicate(Ack(e.session, e.number, r.sequence));
      }
      var s := sessions[e.session];
      var closure := s.purged && e.closed;
      if s.purged && !closure { return Refused; }
      if e.number != s.last + 1 { return Conflict; }
      if !valid { return Refused; }
      var top := s.sequence;
      if !closure { top := top + 1 + appended; }
      receipts := receipts[e.id := SourceReceipt(e.session, e.number, e.body, top)];
      sessions := sessions[e.session := s.(last := e.number, sequence := top,
        applied := s.applied + [e], anchors := s.anchors + [top], wrote := s.wrote + [!closure])];
      return Applied(Ack(e.session, e.number, top));
    }
  }
}
