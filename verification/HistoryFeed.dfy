// The log that readers and the live push work on is the session's own: whatever is written,
// it has no holes and only grows, until a purge moves the cursor past everything.
module HistoryFeed {
  import opened Basics
  import Feed
  import H = History
  import HistoryTheorems
  import Paging

  // How an event is stored: its size and its encoding are given.
  function StoredLog(s: H.Session, size: H.Event -> nat, encode: H.Event -> Id): Feed.Log {
    Feed.Log(s.purged, s.earliest,
             seq(|s.log|, i requires 0 <= i < |s.log| => Paging.Stored(s.log[i].sequence, size(s.log[i]), encode(s.log[i]))))
  }

  lemma {:induction false} LogsGrow(s: H.Session, steps: seq<H.Step>, size: H.Event -> nat, encode: H.Event -> Id)
    requires HistoryTheorems.Ok(s)
    ensures var a, b := StoredLog(s, size, encode), StoredLog(H.Run(s, steps), size, encode);
      Feed.LogOk(b) && Feed.Last(b) == H.Run(s, steps).last && Feed.Grows(a, b)
    decreases |steps|
  {
    HistoryTheorems.RunOk(s, steps);
    if !H.Run(s, steps).purged {
      HistoryTheorems.LogGrows(s, steps);
    } else {
      LastGrows(s, steps);
    }
  }

  lemma {:induction false} LastGrows(s: H.Session, steps: seq<H.Step>)
    ensures s.last <= H.Run(s, steps).last
    decreases |steps|
  {
    if steps != [] { LastGrows(H.Apply(s, steps[0]), steps[1..]); }
  }
}
