/** The reload debouncer. Every call of Debounce bumps a generation counter
    and schedules a continuation that carries the new value as its ticket;
    when the continuation fires after the wait, the action runs only if the
    ticket is still the current generation and the debouncer has not been
    disposed. The timer and the thread pool are replaced by explicit Fire
    events, one per scheduled continuation, in any order. */
module Debouncing {

  const MaxInt32: int := 0x7FFF_FFFF

  /** The debouncer as a value: the generation counter, whether Dispose was
      called, the tickets whose continuation has not fired yet, and the
      tickets whose action ran, in the order they ran. */
  datatype DebounceState = DebounceState(counter: int, disposed: bool, pending: set<int>, executed: seq<int>)

  const Initial: DebounceState := DebounceState(0, false, {}, [])

  datatype Event = Debounce | Fire(ticket: int) | Dispose

  /** The check a firing continuation makes. */
  predicate Runs(s: DebounceState, ticket: int)
  {
    ticket == s.counter && !s.disposed
  }

  function AfterDebounce(s: DebounceState): DebounceState
    requires s.counter < MaxInt32
  {
    s.(counter := s.counter + 1, pending := s.pending + {s.counter + 1})
  }

  function AfterFire(s: DebounceState, ticket: int): DebounceState
    requires ticket in s.pending
  {
    s.(pending := s.pending - {ticket},
       executed := if Runs(s, ticket) then s.executed + [ticket] else s.executed)
  }

  function AfterDispose(s: DebounceState): DebounceState
  {
    s.(disposed := true)
  }

  /** An event can happen: the counter does not overflow, and only a
      scheduled continuation fires, once. */
  predicate Enabled(s: DebounceState, e: Event)
  {
    match e
    case Debounce => s.counter < MaxInt32
    case Fire(t) => t in s.pending
    case Dispose => true
  }

  function Step(s: DebounceState, e: Event): DebounceState
    requires Enabled(s, e)
  {
    match e
    case Debounce => AfterDebounce(s)
    case Fire(t) => AfterFire(s, t)
    case Dispose => AfterDispose(s)
  }

  predicate Legal(s: DebounceState, events: seq<Event>)
    decreases |events|
  {
    events == [] || (Enabled(s, events[0]) && Legal(Step(s, events[0]), events[1..]))
  }

  function Run(s: DebounceState, events: seq<Event>): DebounceState
    requires Legal(s, events)
    decreases |events|
  {
    if events == [] then s else Run(Step(s, events[0]), events[1..])
  }

  /** A trace split in two runs as its halves one after the other. */
  lemma {:induction false} RunAppend(s: DebounceState, a: seq<Event>, b: seq<Event>)
    ensures Legal(s, a + b) <==> Legal(s, a) && Legal(Run(s, a), b)
    ensures Legal(s, a + b) ==> Legal(s, a) && Run(s, a + b) == Run(Run(s, a), b)
    decreases |a|
  {
    if a == [] {
      assert a + b == b;
    } else {
      assert (a + b)[0] == a[0];
      assert (a + b)[1..] == a[1..] + b;
      if Enabled(s, a[0]) {
        RunAppend(Step(s, a[0]), a[1..], b);
      }
    }
  }

  /** Neither firing nor disposing changes the counter, and Debounce only
      raises it: the counter never decreases. */
  lemma {:induction false} CounterNeverDecreases(s: DebounceState, events: seq<Event>)
    requires Legal(s, events)
    ensures Run(s, events).counter >= s.counter
    ensures Debounce !in events ==> Run(s, events).counter == s.counter
    decreases |events|
  {
    if events != [] {
      CounterNeverDecreases(Step(s, events[0]), events[1..]);
      assert Debounce !in events ==> Debounce !in events[1..] && events[0] != Debounce;
    }
  }

  /** Once a later Debounce has happened, an earlier ticket's action never
      runs, whatever follows. */
  lemma {:induction false} StaleTicketNeverRuns(s: DebounceState, events: seq<Event>, ticket: int)
    requires Legal(s, events) && ticket < s.counter
    ensures |Run(s, events).executed| >= |s.executed| && Run(s, events).executed[..|s.executed|] == s.executed
    ensures ticket !in Run(s, events).executed[|s.executed|..]
    decreases |events|
  {
    if events != [] {
      var next := Step(s, events[0]);
      assert next.counter >= s.counter;
      StaleTicketNeverRuns(next, events[1..], ticket);
      var final := Run(s, events).executed;
      assert final == Run(next, events[1..]).executed;
      assert next.executed == s.executed || next.executed == s.executed + [s.counter];
      assert final[|s.executed|..] == next.executed[|s.executed|..] + final[|next.executed|..];
    }
  }

  /** After Dispose no action runs. */
  lemma {:induction false} DisposedRunsNothing(s: DebounceState, events: seq<Event>)
    requires Legal(s, events) && s.disposed
    ensures Run(s, events).executed == s.executed
    ensures Run(s, events).disposed
    decreases |events|
  {
    if events != [] {
      DisposedRunsNothing(Step(s, events[0]), events[1..]);
    }
  }

  /** Without Debounce, a retired ticket cannot fire again. */
  lemma {:induction false} RetiredTicketNeverFires(s: DebounceState, events: seq<Event>, ticket: int)
    requires Legal(s, events) && Debounce !in events && ticket !in s.pending && ticket > s.counter - 1
    ensures Fire(ticket) !in events
    decreases |events|
  {
    if events != [] {
      assert events[0] != Debounce && events[0] != Fire(ticket);
      assert Debounce !in events[1..];
      RetiredTicketNeverFires(Step(s, events[0]), events[1..], ticket);
      assert events == [events[0]] + events[1..];
    }
  }

  /** With no further Debounce and no Dispose, the current ticket's action
      runs once if its continuation fires, and no other action runs. */
  lemma {:induction false} OnlyLastTicketRuns(s: DebounceState, events: seq<Event>)
    requires Legal(s, events) && Debounce !in events && Dispose !in events && !s.disposed
    ensures Run(s, events).executed ==
      s.executed + (if Fire(s.counter) in events then [s.counter] else [])
    decreases |events|
  {
    if events != [] {
      var e := events[0];
      var next := Step(s, e);
      assert Debounce !in events[1..] && Dispose !in events[1..];
      assert events == [e] + events[1..];
      OnlyLastTicketRuns(next, events[1..]);
      if e == Fire(s.counter) {
        RetiredTicketNeverFires(next, events[1..], s.counter);
      }
    }
  }

  /** n Debounce calls in a row. */
  function Debounces(n: nat): (events: seq<Event>)
    ensures |events| == n && forall i :: 0 <= i < n ==> events[i] == Debounce
  {
    if n == 0 then [] else Debounces(n - 1) + [Debounce]
  }

  /** The continuations of the tickets from + 1 .. from + n firing in order. */
  function Fires(from: int, n: nat): (events: seq<Event>)
    ensures |events| == n && forall i :: 0 <= i < n ==> events[i] == Fire(from + i + 1)
  {
    if n == 0 then [] else Fires(from, n - 1) + [Fire(from + n)]
  }

  /** The tickets from + 1 .. from + n. */
  function TicketRange(from: int, n: nat): (tickets: set<int>)
    ensures forall t :: t in tickets <==> from < t <= from + n
  {
    if n == 0 then {} else TicketRange(from, n - 1) + {from + n}
  }

  /** n Debounce calls issue the tickets counter + 1 .. counter + n. */
  lemma {:induction false} DebouncesIssueTickets(s: DebounceState, n: nat)
    requires s.counter + n <= MaxInt32
    ensures Legal(s, Debounces(n))
    ensures Run(s, Debounces(n)) ==
      s.(counter := s.counter + n, pending := s.pending + TicketRange(s.counter, n))
  {
    if n > 0 {
      DebouncesIssueTickets(s, n - 1);
      var mid := Run(s, Debounces(n - 1));
      assert Legal(mid, [Debounce]) && Run(mid, [Debounce]) == AfterDebounce(mid);
      RunAppend(s, Debounces(n - 1), [Debounce]);
    }
  }

  /** Firing the tickets from + 1 .. from + n in order is legal when all are
      scheduled, and it leaves the other continuations scheduled. */
  lemma {:induction false} FiresAreLegal(s: DebounceState, from: int, n: nat)
    requires TicketRange(from, n) <= s.pending
    ensures Legal(s, Fires(from, n))
    ensures Run(s, Fires(from, n)).pending == s.pending - TicketRange(from, n)
  {
    if n > 0 {
      FiresAreLegal(s, from, n - 1);
      var mid := Run(s, Fires(from, n - 1));
      assert from + n in mid.pending;
      var last := [Fire(from + n)];
      assert last[0] == Fire(from + n) && last[1..] == [];
      assert Step(mid, Fire(from + n)) == AfterFire(mid, from + n);
      assert Legal(mid, last);
      assert Run(mid, last) == Run(AfterFire(mid, from + n), []);
      assert Run(mid, last) == AfterFire(mid, from + n);
      RunAppend(s, Fires(from, n - 1), last);
      assert (s.pending - TicketRange(from, n - 1)) - {from + n} == s.pending - TicketRange(from, n);
    }
  }

  /** A burst of n >= 1 reload notifications whose continuations all fire
      afterwards applies exactly one action: that of the last notification. */
  lemma BurstRunsLastOnce(s: DebounceState, n: nat)
    requires 1 <= n && s.counter + n <= MaxInt32 && !s.disposed
    ensures Legal(s, Debounces(n) + Fires(s.counter, n))
    ensures Run(s, Debounces(n) + Fires(s.counter, n)).executed == s.executed + [s.counter + n]
  {
    DebouncesIssueTickets(s, n);
    var burst := Run(s, Debounces(n));
    FiresAreLegal(burst, s.counter, n);
    RunAppend(s, Debounces(n), Fires(s.counter, n));
    var fires := Fires(s.counter, n);
    assert fires[n - 1] == Fire(burst.counter);
    forall e | e in fires
      ensures e != Debounce && e != Dispose
    {
    }
    OnlyLastTicketRuns(burst, fires);
  }

  class Debouncer {
    /** The wait before a continuation fires, in milliseconds. */
    const waitTime: int
    var counter: int
    /** Whether cancellation was requested. */
    var disposed: bool
    ghost var pending: set<int>
    ghost var executed: seq<int>

    ghost function State(): DebounceState
      reads this
    {
      DebounceState(counter, disposed, pending, executed)
    }

    constructor (waitTime: int)
      ensures this.waitTime == waitTime && State() == Initial
    {
      this.waitTime := waitTime;
      counter := 0;
      disposed := false;
      pending := {};
      executed := [];
    }

    /** Takes the next generation as the ticket of a newly scheduled
        continuation. */
    method Debounce() returns (ticket: int)
      requires counter < MaxInt32
      modifies this
      ensures State() == AfterDebounce(old(State()))
      ensures ticket == counter == old(counter) + 1
    {
      counter := counter + 1;
      ticket := counter;
      pending := pending + {ticket};
    }

    /** The continuation for ticket fires; ran tells whether its action ran. */
    method Fire(ticket: int) returns (ran: bool)
      requires ticket in pending
      modifies this
      ensures ran == Runs(old(State()), ticket)
      ensures State() == AfterFire(old(State()), ticket)
    {
      ran := ticket == counter && !disposed;
      if ran {
        executed := executed + [ticket];
      }
      pending := pending - {ticket};
    }

    method Dispose()
      modifies this
      ensures State() == AfterDispose(old(State()))
    {
      disposed := true;
    }
  }
}
