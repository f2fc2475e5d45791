// The fixed-window limiter: a table of at most TABLE keys, and a bound on what one key is
// allowed in any interval, whatever the other keys do to the table.
module RateLimit {
  import opened Basics

  const TABLE := 10000
  // Times are nanoseconds.
  const MINUTE := 60000000000

  datatype Window = Window(until: int, count: nat)

  type Rates = map<Id, Window>

  datatype Call = Call(key: Id, limit: nat, now: int)

  function Live(rates: Rates, now: int): Rates {
    map k | k in rates && now < rates[k].until :: rates[k]
  }

  // `rate`: the new table, and whether the call is allowed.
  function Rate(rates: Rates, c: Call): (Rates, bool) {
    var w := if c.key in rates && c.now < rates[c.key].until then rates[c.key] else Window(c.now + MINUTE, 0);
    var kept := if |rates| >= TABLE then Live(rates, c.now) else rates;
    if |rates| >= TABLE && c.key !in kept && |kept| >= TABLE then (kept, false)
    else (kept[c.key := w.(count := w.count + 1)], w.count + 1 <= c.limit)
  }

  class Limiter {
    var rates: Rates

    constructor ()
      ensures rates == map[]
    {
      rates := map[];
    }

    method Allow(key: Id, limit: nat, now: int) returns (ok: bool)
      requires |rates| <= TABLE
      modifies this
      ensures |rates| <= TABLE && (rates, ok) == Rate(old(rates), Call(key, limit, now))
    {
      TableBounded(rates, Call(key, limit, now));
      var r := if key in rates then rates[key] else Window(now, 0);
      if r.until <= now { r := Window(now + MINUTE, 0); }
      if |rates| >= TABLE {
        var left := rates.Keys;
        ghost var was := rates;
        while left != {}
          invariant left <= was.Keys
          invariant rates == map k | k in was && (k in left || now < was[k].until) :: was[k]
          decreases |left|
        {
          var k :| k in left;
          left := left - {k};
          if rates[k].until <= now { rates := map j | j in rates && j != k :: rates[j]; }
        }
        assert rates == Live(was, now);
        if key !in rates && |rates| >= TABLE { return false; }
      }
      r := r.(count := r.count + 1);
      rates := rates[key := r];
      return r.count <= limit;
    }
  }

  lemma KeysBounded(a: Rates, b: Rates)
    requires a.Keys <= b.Keys
    ensures |a| <= |b| && (a.Keys != b.Keys ==> |a| < |b|)
  {
    SetBounded(a.Keys, b.Keys);
    assert |a| == |a.Keys| && |b| == |b.Keys|;
  }

  lemma {:induction false} SetBounded(a: set<Id>, b: set<Id>)
    requires a <= b
    ensures |a| <= |b| && (a != b ==> |a| < |b|)
  {
    assert b == a + (b - a);
    assert a != b ==> b - a != {};
  }

  lemma TableBounded(rates: Rates, c: Call)
    requires |rates| <= TABLE
    ensures |Rate(rates, c).0| <= TABLE
  {
    KeysBounded(Live(rates, c.now), rates);
    var kept := if |rates| >= TABLE then Live(rates, c.now) else rates;
    var after := Rate(rates, c).0;
    if c.key in kept { assert after.Keys == kept.Keys; } else { assert after.Keys <= kept.Keys + {c.key}; SetBounded(after.Keys, kept.Keys + {c.key}); }
  }

  // A key within its minute is allowed until its limit is used up, also from a full table.
  lemma WithinMinute(rates: Rates, c: Call)
    requires c.key in rates && c.now < rates[c.key].until
    ensures var (r, ok) := Rate(rates, c);
      && (ok <==> rates[c.key].count < c.limit)
      && c.key in r && r[c.key] == Window(rates[c.key].until, rates[c.key].count + 1)
  {
  }

  // A key whose minute is over, or that is new, begins a minute and is allowed, unless there is
  // no place for a new one.
  lemma NewMinute(rates: Rates, c: Call)
    requires c.key !in rates || rates[c.key].until <= c.now
    ensures var (r, ok) := Rate(rates, c);
      if |rates| < TABLE || |Live(rates, c.now)| < TABLE
      then (ok <==> c.limit > 0) && c.key in r && r[c.key] == Window(c.now + MINUTE, 1)
      else !ok && c.key !in r
  {
  }

  // Another key loses its entry only when its minute is over.
  lemma OthersKept(rates: Rates, c: Call, key: Id)
    requires key != c.key
    ensures var r := Rate(rates, c).0;
      && (key in r ==> key in rates && r[key] == rates[key])
      && (key in rates && key !in r ==> rates[key].until <= c.now && |rates| >= TABLE)
  {
  }

  // ----- runs -----

  // The clock never goes back, and this key always comes with this limit.
  predicate Fair(calls: seq<Call>, key: Id, limit: nat, since: int) {
    calls == [] || (since <= calls[0].now && (calls[0].key == key ==> calls[0].limit == limit) && Fair(calls[1..], key, limit, calls[0].now))
  }

  // How many calls of the key are allowed from a to b.
  function Allowed(rates: Rates, calls: seq<Call>, key: Id, a: int, b: int): nat
    decreases |calls|
  {
    if calls == [] then 0
    else
      var (rates', ok) := Rate(rates, calls[0]);
      (if ok && calls[0].key == key && a <= calls[0].now <= b then 1 else 0) + Allowed(rates', calls[1..], key, a, b)
  }

  // How many windows can begin from s to b.
  function Windows(s: int, b: int): nat {
    if s > b then 0 else (b - s) / MINUTE + 1
  }

  lemma WindowsFall(s: int, s': int, b: int)
    requires s <= s'
    ensures Windows(s', b) <= Windows(s, b)
    ensures s + MINUTE <= s' && s <= b ==> Windows(s', b) + 1 <= Windows(s, b)
  {
  }

  function Max(a: int, b: int): int {
    if a < b then b else a
  }

  // Where the key's next window can begin at the earliest.
  function NextStart(rates: Rates, key: Id, now: int): int {
    if key in rates then Max(rates[key].until, now) else now
  }

  // What is left of the key's current window.
  function Rest(rates: Rates, key: Id, limit: nat): nat {
    if key in rates && rates[key].count < limit then limit - rates[key].count else 0
  }

  // An upper bound of what can still be allowed from a to b.
  function Potential(rates: Rates, key: Id, limit: nat, now: int, a: int, b: int): nat {
    if now > b then 0
    else (if now < a then limit else Rest(rates, key, limit)) + limit * Windows(Max(NextStart(rates, key, now), a), b)
  }

  lemma OtherKey(rates: Rates, c: Call, key: Id)
    requires c.key != key
    ensures var r := Rate(rates, c).0;
      if key in r then key in rates && r[key] == rates[key] else key in rates ==> rates[key].until <= c.now
  {
  }

  lemma TimeUnit(x: nat, limit: nat, y: nat)
    requires x + 1 <= y
    ensures limit * x + limit <= limit * y
  {
    assert limit * (x + 1) <= limit * y;
  }

  lemma Monotone(limit: nat, x: nat, y: nat)
    requires x <= y
    ensures limit * x <= limit * y
  {
  }

  lemma StepOther(rates: Rates, c: Call, key: Id, limit: nat, now: int, a: int, b: int)
    requires c.key != key && now <= c.now
    ensures Potential(Rate(rates, c).0, key, limit, c.now, a, b) <= Potential(rates, key, limit, now, a, b)
  {
    var r := Rate(rates, c).0;
    OtherKey(rates, c, key);
    var s, s' := Max(NextStart(rates, key, now), a), Max(NextStart(r, key, c.now), a);
    WindowsFall(s, s', b);
    Monotone(limit, Windows(s', b), Windows(s, b));
  }

  lemma StepOwn(rates: Rates, c: Call, now: int, a: int, b: int)
    requires now <= c.now && a <= b
    ensures var (r, ok) := Rate(rates, c);
      (if ok && a <= c.now <= b then 1 else 0) + Potential(r, c.key, c.limit, c.now, a, b) <= Potential(rates, c.key, c.limit, now, a, b)
  {
    var (r, ok) := Rate(rates, c);
    var s, s' := Max(NextStart(rates, c.key, now), a), Max(NextStart(r, c.key, c.now), a);
    WindowsFall(s, s', b);
    Monotone(c.limit, Windows(s', b), Windows(s, b));
    var same := c.key in rates && c.now < rates[c.key].until;
    if !same && a <= c.now <= b && c.key in r {
      WindowsFall(s, c.now + MINUTE, b);
      TimeUnit(Windows(s', b), c.limit, Windows(s, b));
    }
  }

  lemma {:induction false} Bounded(rates: Rates, calls: seq<Call>, key: Id, limit: nat, now: int, a: int, b: int)
    requires Fair(calls, key, limit, now) && a <= b
    ensures Allowed(rates, calls, key, a, b) <= Potential(rates, key, limit, now, a, b)
    decreases |calls|
  {
    if calls != [] {
      var c := calls[0];
      var r := Rate(rates, c).0;
      Bounded(r, calls[1..], key, limit, c.now, a, b);
      if c.key == key { StepOwn(rates, c, now, a, b); } else { StepOther(rates, c, key, limit, now, a, b); }
    }
  }

  // From an empty table, in any interval, one key is allowed at most its limit times the
  // number of minutes begun, plus two; evictions by other keys do not loosen that.
  lemma AtMost(calls: seq<Call>, key: Id, limit: nat, start: int, a: int, b: int)
    requires Fair(calls, key, limit, start) && a <= b
    ensures Allowed(map[], calls, key, a, b) <= limit * ((b - a) / MINUTE + 2)
  {
    Bounded(map[], calls, key, limit, start, a, b);
    WindowsFall(a, Max(start, a), b);
    Monotone(limit, Windows(Max(start, a), b), Windows(a, b));
    TimeUnit(Windows(a, b), limit, (b - a) / MINUTE + 2);
  }
}
