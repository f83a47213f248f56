/**
 `GET /jobs/{id}?wait=` in a timed model: milliseconds, reads that take no time, and two functions of
 time standing for the rest of the system, namely what a read of the row would return and how often the
 change signal has been raised.
 */
module LongPoll {
  import opened Common
  import opened JobTable

  /** The part of a visible row a waiting client is told about. */
  datatype Seen = Seen(status: Status, progress: real)

  datatype Reply = NotFound(at: nat) | Found(seen: Seen, at: nat)

  const MAX_WAIT_SECONDS: nat := 30
  const FALLBACK_TICK: nat := 1000

  function Min(a: nat, b: nat): nat { if a < b then a else b }

  function Max(a: nat, b: nat): nat { if a < b then b else a }

  /** `timeout_at(until, events.changed())`: the first moment the counter differs from `last`, or `until`. */
  function NextWake(version: nat -> nat, last: nat, now: nat, until: nat): (t: nat)
    requires now <= until
    ensures now <= t <= until
    ensures forall u :: now <= u < t ==> version(u) == last
    ensures t < until ==> version(t) != last
    decreases until - now
  {
    if now == until || version(now) != last then now else NextWake(version, last, now + 1, until)
  }

  predicate Signals(version: nat -> nat, t: nat) { t > 0 && version(t - 1) != version(t) }

  /** A change made at `c`, not before `t0`, and still in force at every moment up to `to`. */
  predicate ChangedFrom(row: nat -> Option<Seen>, initial: Seen, t0: nat, c: nat, to: nat) {
    t0 <= c <= to && forall t: nat :: c <= t <= to ==> row(t) != Some(initial)
  }

  /** What a held request promises about its answer `r`. */
  ghost predicate IsTimely(row: nat -> Option<Seen>, version: nat -> nat, initial: Seen, t0: nat, subscribed: nat,
                           deadline: nat, r: Reply)
  {
    // it falls inside the window
    && subscribed <= r.at <= deadline
    // an unchanged answer means the window is over and the row is as it was
    && (r.Found? && r.seen == initial ==> r.at == deadline)
    // a change that persists is answered within a second, even if it is never signalled
    && (forall c: nat :: ChangedFrom(row, initial, t0, c, deadline) ==>
         r.at <= deadline && r.at <= (if c < subscribed then subscribed else c) + 1000 && r != Found(initial, r.at))
    // a signalled change is answered at once
    && (forall c: nat :: subscribed < c <= deadline && Signals(version, c) && row(c) != Some(initial) ==> r.at <= c)
  }

  /** The answer is what a read at that moment returns. */
  predicate IsCurrent(row: nat -> Option<Seen>, r: Reply) {
    if r.NotFound? then row(r.at).None? else row(r.at) == Some(r.seen)
  }

  /** Nothing changed at any moment the loop has looked, and it has looked at every signal. */
  ghost predicate Unchanged(row: nat -> Option<Seen>, version: nat -> nat, initial: Seen, subscribed: nat, now: nat) {
    && subscribed <= now
    && (now > subscribed ==> row(now) == Some(initial))
    && forall c: nat :: subscribed < c <= now && Signals(version, c) ==> row(c) == Some(initial)
  }

  lemma NoSignalBetween(version: nat -> nat, now: nat, until: nat)
    requires now < until
    ensures now < NextWake(version, version(now), now, until)
    ensures forall c: nat :: now < c < NextWake(version, version(now), now, until) ==> !Signals(version, c)
  {
    var woke := NextWake(version, version(now), now, until);
    forall c: nat | now < c < woke ensures !Signals(version, c) {
      assert version(c - 1) == version(now) && version(c) == version(now);
    }
  }

  lemma ChangeIsTimely(row: nat -> Option<Seen>, version: nat -> nat, initial: Seen, t0: nat, subscribed: nat,
                       deadline: nat, now: nat, r: Reply)
    requires t0 <= subscribed && Unchanged(row, version, initial, subscribed, now) && now < deadline
    requires r.at == NextWake(version, version(now), now, Min(now + FALLBACK_TICK, deadline))
    requires IsCurrent(row, r) && row(r.at) != Some(initial)
    ensures IsTimely(row, version, initial, t0, subscribed, deadline, r)
  {
    NoSignalBetween(version, now, Min(now + FALLBACK_TICK, deadline));
    forall c: nat | ChangedFrom(row, initial, t0, c, deadline)
      ensures r.at <= Max(c, subscribed) + FALLBACK_TICK
    {
      assert now > subscribed ==> c > now;
    }
  }

  lemma WindowIsTimely(row: nat -> Option<Seen>, version: nat -> nat, initial: Seen, t0: nat, subscribed: nat,
                         deadline: nat)
    requires t0 <= subscribed < deadline && Unchanged(row, version, initial, subscribed, deadline)
    ensures IsTimely(row, version, initial, t0, subscribed, deadline, Found(initial, deadline))
  {
  }

  /** The first read is at `t0`, the subscription at `subscribed`; a change may land in between. */
  method GetJob(row: nat -> Option<Seen>, version: nat -> nat, t0: nat, subscribed: nat, wait: Option<nat>)
    returns (r: Reply)
    requires t0 <= subscribed
    // the answer is what a read at that moment returns
    ensures r.NotFound? ==> row(r.at) == None
    ensures r.Found? ==> row(r.at) == Some(r.seen)
    // an absent or finished job, and a request that does not wait, are answered at once
    ensures row(t0) == None ==> r.at == t0
    ensures row(t0) != None && row(t0).value.status !in {Queued, Running} ==> r.at == t0
    ensures wait == None || wait == Some(0) ==> r.at == t0
    // an unfinished one is held for as long as the client asks, up to half a minute
    ensures row(t0) != None && row(t0).value.status in {Queued, Running} && wait != None && wait.value > 0 ==>
              IsTimely(row, version, row(t0).value, t0, subscribed,
                       subscribed + (if wait.value <= 30 then wait.value else 30) * 1000, r)
  {
    var first := row(t0);
    if first.None? { return NotFound(t0); }
    var initial := first.value;
    r := Found(initial, t0);
    var waitSecs := if wait.Some? then Min(wait.value, MAX_WAIT_SECONDS) else 0;
    if waitSecs > 0 && (initial.status.Queued? || initial.status.Running?) {
      var last := version(subscribed);
      var deadline := subscribed + waitSecs * 1000;
      var now := subscribed;
      while now < deadline
        invariant now <= deadline && last == version(now)
        invariant Unchanged(row, version, initial, subscribed, now)
        invariant now > subscribed ==> r == Found(initial, now)
        decreases deadline - now
      {
        var wakeBy := Min(now + FALLBACK_TICK, deadline);
        NoSignalBetween(version, now, wakeBy);
        var woke := NextWake(version, last, now, wakeBy);
        var current := row(woke);
        if current.None? {
          ChangeIsTimely(row, version, initial, t0, subscribed, deadline, now, NotFound(woke));
          return NotFound(woke);
        }
        if current.value != initial {
          ChangeIsTimely(row, version, initial, t0, subscribed, deadline, now, Found(current.value, woke));
          return Found(current.value, woke);
        }
        r := Found(initial, woke);
        now, last := woke, version(woke);
      }
      WindowIsTimely(row, version, initial, t0, subscribed, deadline);
    }
  }
}
