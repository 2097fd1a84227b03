/** The key-value store with time-to-live behind the login state (satoken/store.go). */
module MemoryStores {
  import opened Results

  const NEVER_EXPIRE := -1
  const NOT_VALUE_EXPIRE := -2
  const SECOND := 1_000_000_000
  /** The longest timeout in seconds that time.Duration holds. */
  const MAX_TIMEOUT := 9_223_372_036

  datatype Error =
    | NotFound
    | Cancelled
    | BlankLoginID
    | TokenSource
    | BadSession
    | NilSession

  datatype Deadline = Forever | At(t: int)

  /** A point in time, in nanoseconds, is past a deadline only when it is strictly later. */
  predicate Alive(d: Deadline, now: int) {
    d.Forever? || now <= d.t
  }

  datatype Entry = Entry(value: string, deadline: Deadline)

  function Wrap64(n: int): int {
    (n + 0x8000_0000_0000_0000) % 0x1_0000_0000_0000_0000 - 0x8000_0000_0000_0000
  }

  /** time.Duration(seconds) * time.Second, in 64-bit arithmetic. */
  function Nanos(seconds: int): int {
    Wrap64(seconds * SECOND)
  }

  predicate Effective(timeout: int) {
    !(timeout == 0 || timeout <= NOT_VALUE_EXPIRE)
  }

  function DeadlineAfter(timeout: int, now: int): Deadline {
    if timeout == NEVER_EXPIRE then Forever else At(now + Nanos(timeout))
  }

  lemma NanosInRange(timeout: int)
    requires 0 < timeout <= MAX_TIMEOUT
    ensures Nanos(timeout) == timeout * SECOND
  {
  }

  /** The entries a reader can still see. */
  function Visible(data: map<string, Entry>, now: int): map<string, Entry> {
    map k | k in data && Alive(data[k].deadline, now) :: data[k]
  }

  // ---- the store as a state machine: expired entries are removed only when read ----

  datatype Mem = Mem(data: map<string, Entry>, now: int)

  datatype Event =
    | SetEvent(key: string, value: string, timeout: int)
    | DeleteEvent(key: string)
    | GetEvent(key: string)
    | TickEvent(elapsed: nat)

  function Lazy(m: Mem, e: Event): Mem {
    match e
    case SetEvent(k, v, timeout) =>
      if Effective(timeout) then m.(data := m.data[k := Entry(v, DeadlineAfter(timeout, m.now))]) else m
    case DeleteEvent(k) => m.(data := m.data - {k})
    case GetEvent(k) =>
      if k in m.data && !Alive(m.data[k].deadline, m.now) then m.(data := m.data - {k}) else m
    case TickEvent(elapsed) => m.(now := m.now + elapsed)
  }

  function LazyRun(start: int, events: seq<Event>): Mem {
    if events == [] then Mem(map[], start)
    else Lazy(LazyRun(start, events[..|events| - 1]), events[|events| - 1])
  }

  /** What Get answers. */
  function Observe(m: Mem, key: string): Result<string, Error> {
    if key in m.data && Alive(m.data[key].deadline, m.now) then Ok(m.data[key].value) else Err(NotFound)
  }

  // ---- the ideal: the latest effective write, judged by its own deadline ----

  function Clock(start: int, events: seq<Event>): int {
    if events == [] then start
    else
      var e := events[|events| - 1];
      Clock(start, events[..|events| - 1]) + if e.TickEvent? then e.elapsed else 0
  }

  /** The latest Set or Delete of the key that had an effect; None when it was a Delete or there was none. */
  function LatestWrite(start: int, events: seq<Event>, key: string): Option<Entry> {
    if events == [] then None
    else
      var before, e := events[..|events| - 1], events[|events| - 1];
      if e.SetEvent? && e.key == key && Effective(e.timeout) then
        Some(Entry(e.value, DeadlineAfter(e.timeout, Clock(start, before))))
      else if e.DeleteEvent? && e.key == key then None
      else LatestWrite(start, before, key)
  }

  function IdealGet(start: int, events: seq<Event>, key: string): Result<string, Error> {
    match LatestWrite(start, events, key)
    case Some(e) => if Alive(e.deadline, Clock(start, events)) then Ok(e.value) else Err(NotFound)
    case None => Err(NotFound)
  }

  lemma {:induction false} LazyTracksIdeal(start: int, events: seq<Event>, key: string)
    ensures LazyRun(start, events).now == Clock(start, events)
    ensures key in LazyRun(start, events).data ==>
              LatestWrite(start, events, key) == Some(LazyRun(start, events).data[key])
    ensures key !in LazyRun(start, events).data && LatestWrite(start, events, key).Some? ==>
              !Alive(LatestWrite(start, events, key).value.deadline, Clock(start, events))
  {
    if events != [] {
      LazyTracksIdeal(start, events[..|events| - 1], key);
    }
  }

  /** Reaping expired entries at read time cannot be told apart from never reaping them: after any
      trace, a read answers the latest effective Set that no Delete followed and whose deadline has
      not passed. */
  lemma LazyDeletionUnobservable(start: int, events: seq<Event>, key: string)
    ensures Observe(LazyRun(start, events), key) == IdealGet(start, events, key)
  {
    LazyTracksIdeal(start, events, key);
  }

  /** What a reader sees of a key some time after a Set. */
  function ReadAfterSet(start: int, events: seq<Event>, key: string, value: string,
                        timeout: int, elapsed: nat): Result<string, Error>
  {
    IdealGet(start, events + [SetEvent(key, value, timeout)] + [TickEvent(elapsed)], key)
  }

  /** The documented timeouts: -1 keeps the value for ever, 0 and anything from -2 down leave the key as
      it was, and a positive number of seconds keeps the value until it has fully elapsed. */
  function DocumentedRead(start: int, events: seq<Event>, key: string, value: string,
                          timeout: int, elapsed: nat): Result<string, Error>
  {
    if timeout == NEVER_EXPIRE then Ok(value)
    else if timeout <= 0 then IdealGet(start, events + [TickEvent(elapsed)], key)
    else if elapsed <= timeout * SECOND then Ok(value)
    else Err(NotFound)
  }

  /** The code multiplies the seconds in 64 bits. */
  lemma ReadAfterSetComputes(start: int, events: seq<Event>, key: string, value: string, timeout: int, elapsed: nat)
    ensures ReadAfterSet(start, events, key, value, timeout, elapsed) ==
            if timeout <= 0 then DocumentedRead(start, events, key, value, timeout, elapsed)
            else if elapsed <= Nanos(timeout) then Ok(value)
            else Err(NotFound)
  {
    var writing := events + [SetEvent(key, value, timeout)];
    var all := writing + [TickEvent(elapsed)];
    var skipped := events + [TickEvent(elapsed)];
    assert all[..|all| - 1] == writing && writing[..|writing| - 1] == events && skipped[..|skipped| - 1] == events;
    assert LatestWrite(start, all, key) == LatestWrite(start, writing, key);
    assert Clock(start, all) == Clock(start, writing) + elapsed == Clock(start, events) + elapsed;
  }

  /** A timeout does what is documented, at any later time, exactly when its nanoseconds fit 64 bits; any
      longer positive one wraps around and ends the value early. */
  lemma TimeoutsAsDocumented(start: int, events: seq<Event>, key: string, value: string, timeout: int)
    ensures (forall elapsed: nat :: ReadAfterSet(start, events, key, value, timeout, elapsed)
                                    == DocumentedRead(start, events, key, value, timeout, elapsed))
            <==> timeout <= MAX_TIMEOUT
  {
    hide IdealGet, ReadAfterSet;
    if timeout <= MAX_TIMEOUT {
      if timeout > 0 {
        NanosInRange(timeout);
      }
      forall elapsed: nat ensures ReadAfterSet(start, events, key, value, timeout, elapsed)
                                  == DocumentedRead(start, events, key, value, timeout, elapsed) {
        ReadAfterSetComputes(start, events, key, value, timeout, elapsed);
      }
    } else {
      var elapsed: nat := if Nanos(timeout) < 0 then 0 else Nanos(timeout) + 1;
      ReadAfterSetComputes(start, events, key, value, timeout, elapsed);
      assert ReadAfterSet(start, events, key, value, timeout, elapsed) != DocumentedRead(start, events, key, value, timeout, elapsed);
    }
  }

  /** An expired entry never comes back by waiting. */
  lemma VisibleShrinks(data: map<string, Entry>, now: int, later: int)
    requires now <= later
    ensures Visible(Visible(data, now), later) == Visible(data, later)
  {
  }

  // ---- the class ----

  /** A context.Context: some other goroutine cancels it after checksLeft more calls of Err. */
  class Context {
    var checksLeft: nat

    constructor (checksLeft: nat)
      ensures this.checksLeft == checksLeft
    {
      this.checksLeft := checksLeft;
    }

    method Err() returns (cancelled: bool)
      modifies this
      ensures cancelled == (old(checksLeft) == 0)
      ensures checksLeft == if cancelled then 0 else old(checksLeft) - 1
    {
      cancelled := checksLeft == 0;
      if !cancelled {
        checksLeft := checksLeft - 1;
      }
    }
  }

  /** A write that reached the store. */
  datatype StoreWrite = Stored(key: string, value: string, timeout: int) | Removed(key: string)

  class MemoryStore {
    var data: map<string, Entry>
    var now: int
    ghost var writes: seq<StoreWrite>

    function State(): Mem
      reads this
    {
      Mem(data, now)
    }

    function View(): map<string, Entry>
      reads this
    {
      Visible(data, now)
    }

    constructor (start: int)
      ensures State() == LazyRun(start, [])
      ensures writes == []
    {
      data := map[];
      now := start;
      writes := [];
    }

    /** Time passing, which the source reads from the clock. */
    method Tick(elapsed: nat)
      modifies this
      ensures State() == Lazy(old(State()), TickEvent(elapsed))
      ensures View() == Visible(old(View()), now)
      ensures writes == old(writes)
    {
      VisibleShrinks(data, now, now + elapsed);
      now := now + elapsed;
    }

    method Get(ctx: Context, key: string) returns (r: Result<string, Error>)
      modifies this, ctx
      ensures old(ctx.checksLeft) == 0 ==> r == Err(Cancelled) && State() == old(State()) && ctx.checksLeft == 0
      ensures old(ctx.checksLeft) > 0 ==>
                r == Observe(old(State()), key) && State() == Lazy(old(State()), GetEvent(key))
      ensures View() == old(View()) && now == old(now) && writes == old(writes)
    {
      var cancelled := ctx.Err();
      if cancelled {
        return Err(Cancelled);
      }
      if key !in data {
        return Err(NotFound);
      }
      var entry := data[key];
      if !entry.deadline.Forever? && now > entry.deadline.t {
        data := data - {key};
        return Err(NotFound);
      }
      return Ok(entry.value);
    }

    method Set(ctx: Context, key: string, value: string, timeout: int) returns (r: Result<(), Error>)
      modifies this, ctx
      ensures old(ctx.checksLeft) == 0 ==>
                r == Err(Cancelled) && State() == old(State()) && writes == old(writes) && ctx.checksLeft == 0
      ensures old(ctx.checksLeft) > 0 ==>
                && r == Ok(())
                && State() == Lazy(old(State()), SetEvent(key, value, timeout))
                && writes == if Effective(timeout) then old(writes) + [Stored(key, value, timeout)] else old(writes)
    {
      var cancelled := ctx.Err();
      if cancelled {
        return Err(Cancelled);
      }
      if timeout == 0 || timeout <= NOT_VALUE_EXPIRE {
        return Ok(());
      }
      var deadline: Deadline;
      if timeout == NEVER_EXPIRE {
        deadline := Forever;
      } else {
        deadline := At(now + Nanos(timeout));
      }
      data := data[key := Entry(value, deadline)];
      writes := writes + [Stored(key, value, timeout)];
      return Ok(());
    }

    method Delete(ctx: Context, key: string) returns (r: Result<(), Error>)
      modifies this, ctx
      ensures old(ctx.checksLeft) == 0 ==>
                r == Err(Cancelled) && State() == old(State()) && writes == old(writes) && ctx.checksLeft == 0
      ensures old(ctx.checksLeft) > 0 ==>
                && r == Ok(())
                && State() == Lazy(old(State()), DeleteEvent(key))
                && writes == old(writes) + [Removed(key)]
    {
      var cancelled := ctx.Err();
      if cancelled {
        return Err(Cancelled);
      }
      data := data - {key};
      writes := writes + [Removed(key)];
      return Ok(());
    }
  }
}
