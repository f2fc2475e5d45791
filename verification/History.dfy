// A session's event log and the timeline materialised from it.
module History {
  import opened Basics

  const TEXT_LIMIT := 48000
  const CHECKPOINT_ITEMS := 10000
  const CHECKPOINT_BYTES := 33554432

  datatype Role = User | Assistant

  // What a timeline row shows. Note stands for status, result and error items.
  datatype Body =
    | Message(role: Role, text: string, complete: bool, truncated: bool)
    | Note(title: Id, text: string)
    | Tool(call: Id, truncated: bool)
    | Request(request: Id)
    | Diff(files: seq<Id>)
    | Plain(data: Id)

  // The content of an event, as far as the timeline reads it.
  datatype Content =
    | Delta(item: Id, role: Role, text: string)
    | Completed(item: Id, role: Role, text: string, truncated: bool)
    | ItemUpsert(item: Id, owner: Id, body: Body)
    | RequestUpsert(request: Id)
    | DiffFile(file: Id, ours: bool)
    | Silent(data: Id)

  datatype Event = Event(sequence: nat, turn: Id, content: Content)

  // Rows of timeline_items in order of first_sequence.
  datatype Row = Row(turn: Id, item: Id, first: nat, last: nat, body: Body)

  // `files` and `requests` give the turn of every stored diff file and interaction request.
  datatype Session = Session(
    purged: bool, earliest: nat, last: nat, log: seq<Event>, timeline: seq<Row>, files: map<Id, Id>, requests: map<Id, Id>)

  // `truncate`: the text cut to so many runes, and whether anything was cut.
  function Truncate(text: string, max: nat): (r: (string, bool))
    ensures r.0 <= text && |r.0| <= max
    ensures r.1 <==> r.0 != text
    ensures |text| <= max ==> r.0 == text
    ensures |text| > max ==> |r.0| == max
  {
    if |text| > max then (text[..max], true) else (text, false)
  }

  function TextOf(b: Option<Body>): string {
    if b.None? then "" else match b.value
      case Message(_, text, _, _) => text
      case Note(_, text) => text
      case _ => ""
  }

  function IsComplete(b: Option<Body>): bool {
    b.Some? && b.value.Message? && b.value.complete
  }

  function IsTruncated(b: Option<Body>): bool {
    b.Some? && ((b.value.Message? && b.value.truncated) || (b.value.Tool? && b.value.truncated))
  }

  // The item a content writes to, if any.
  function Target(c: Content): Option<Id> {
    match c
    case Delta(item, _, _) => Some(item)
    case Completed(item, _, _, _) => Some(item)
    case ItemUpsert(item, _, _) => Some(item)
    case RequestUpsert(request) => Some(request)
    case _ => None
  }

  // The body a content gives its item, from the previous one; None leaves it as it is.
  function NextBody(prev: Option<Body>, c: Content): Option<Body> {
    match c
    case Delta(_, role, text) =>
      if IsComplete(prev) then None
      else
        var (cut, was) := Truncate(TextOf(prev) + text, TEXT_LIMIT);
        Some(Message(role, cut, false, was || IsTruncated(prev)))
    case Completed(_, role, text, truncated) =>
      var (cut, was) := Truncate(text, TEXT_LIMIT);
      Some(Message(role, cut, true, was || truncated))
    case ItemUpsert(_, _, body) => Some(body)
    case RequestUpsert(request) => Some(Request(request))
    case _ => None
  }

  function Find(rows: seq<Row>, turn: Id, item: Id): (k: nat)
    ensures k <= |rows|
    ensures k < |rows| ==> rows[k].turn == turn && rows[k].item == item
    ensures forall i :: 0 <= i < k ==> !(rows[i].turn == turn && rows[i].item == item)
  {
    if rows == [] || (rows[0].turn == turn && rows[0].item == item) then 0 else 1 + Find(rows[1..], turn, item)
  }

  function BodyOf(rows: seq<Row>, turn: Id, item: Id): Option<Body> {
    var k := Find(rows, turn, item);
    if k < |rows| then Some(rows[k].body) else None
  }

  function Upserted(rows: seq<Row>, turn: Id, item: Id, body: Body, sequence: nat): seq<Row> {
    var k := Find(rows, turn, item);
    if k < |rows| then rows[k := rows[k].(last := sequence, body := body)] else rows + [Row(turn, item, sequence, sequence, body)]
  }

  // What `projectItem` does to the timeline when it accepts.
  function Projected(rows: seq<Row>, e: Event): seq<Row> {
    match Target(e.content)
    case None => rows
    case Some(item) =>
      match NextBody(BodyOf(rows, e.turn, item), e.content)
      case None => rows
      case Some(body) => Upserted(rows, e.turn, item, body, e.sequence)
  }

  // What `projectItem` refuses.
  predicate Refused(s: Session, turn: Id, c: Content) {
    match c
    case ItemUpsert(_, owner, body) =>
      || owner != turn
      || (body.Request? && !(body.request in s.requests && s.requests[body.request] == turn))
      || (body.Diff? && exists f :: f in body.files && !(f in s.files && s.files[f] == turn))
    case DiffFile(file, ours) => !ours || file in s.files
    case _ => false
  }

  // `appendEvent`: the next sequence, the stored event and the projection, all or nothing.
  function Append(s: Session, turn: Id, c: Content): Option<Session> {
    if Refused(s, turn, c) then None
    else
      var e := Event(s.last + 1, turn, c);
      Some(s.(last := s.last + 1, log := s.log + [e], timeline := Projected(s.timeline, e),
              files := if c.DiffFile? then s.files[c.file := turn] else s.files))
  }

  // The content is removed and the cursor moved past the last event.
  function Purge(s: Session): Session {
    s.(purged := true, earliest := s.last + 1, log := [], timeline := [], files := map[], requests := map[])
  }

  datatype Step = Write(turn: Id, content: Content) | Know(request: Id, turn: Id) | Clean

  // No handler appends to a purged session.
  function Apply(s: Session, step: Step): Session {
    match step
    case Write(turn, content) =>
      if s.purged then s else (match Append(s, turn, content) case Some(s') => s' case None => s)
    case Know(request, turn) => if s.purged || request in s.requests then s else s.(requests := s.requests[request := turn])
    case Clean => Purge(s)
  }

  function Run(s: Session, steps: seq<Step>): Session
    decreases |steps|
  {
    if steps == [] then s else Run(Apply(s, steps[0]), steps[1..])
  }

  const EMPTY := Session(false, 1, 0, [], [], map[], map[])

  // The timeline as a fold of the log.
  function Fold(log: seq<Event>): seq<Row> {
    if log == [] then [] else Projected(Fold(log[..|log| - 1]), log[|log| - 1])
  }

  // ----- checkpoints -----

  // A row as a client holds it.
  datatype Entry = Entry(turn: Id, item: Id, body: Body)

  datatype Checkpoint = Checkpoint(sequence: nat, items: seq<Entry>)

  function Entries(rows: seq<Row>): seq<Entry> {
    seq(|rows|, i requires 0 <= i < |rows| => Entry(rows[i].turn, rows[i].item, rows[i].body))
  }

  // `bytes` is the stored size of the bodies.
  function TakeCheckpoint(s: Session, bytes: nat): Option<Checkpoint> {
    if s.purged || |s.timeline| > CHECKPOINT_ITEMS || bytes > CHECKPOINT_BYTES then None
    else Some(Checkpoint(s.last, Entries(s.timeline)))
  }

  function FindEntry(items: seq<Entry>, turn: Id, item: Id): (k: nat)
    ensures k <= |items|
    ensures k < |items| ==> items[k].turn == turn && items[k].item == item
    ensures forall i :: 0 <= i < k ==> !(items[i].turn == turn && items[i].item == item)
  {
    if items == [] || (items[0].turn == turn && items[0].item == item) then 0 else 1 + FindEntry(items[1..], turn, item)
  }

  // One event on the client's side, which knows no sequences.
  function Replayed(items: seq<Entry>, e: Event): seq<Entry> {
    match Target(e.content)
    case None => items
    case Some(item) =>
      var k := FindEntry(items, e.turn, item);
      match NextBody(if k < |items| then Some(items[k].body) else None, e.content)
      case None => items
      case Some(body) => if k < |items| then items[k := items[k].(body := body)] else items + [Entry(e.turn, item, body)]
  }

  function Replay(items: seq<Entry>, events: seq<Event>): seq<Entry>
    decreases |events|
  {
    if events == [] then items else Replay(Replayed(items, events[0]), events[1..])
  }
}
