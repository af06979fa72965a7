/** The client's reconnection run (webapp/src/websocket.ts). Times are in milliseconds. */
module WebSocketClient {
  const MIN_RETRY := 1000
  const INCREMENT := 500
  const TIMEOUT := 30000

  /** The one socket of the client, or the timer that will open the next. */
  datatype Socket = Open | Connecting | Waiting(fireAt: nat) | Gone

  /** `attempts` counts the sockets opened since the connection was last up. */
  datatype State = State(now: nat, lastDisconnect: nat, retryTime: nat, closed: bool, socket: Socket, attempts: nat)

  datatype Event =
    | CloseEvent(now: nat)
    | Fire(now: nat)
    | OpenEvent(now: nat)
    | CloseCall

  predicate Enabled(c: State, e: Event) {
    match e
    case CloseEvent(now) => now >= c.now > 0 && (c.socket.Open? || c.socket.Connecting?)
    case Fire(now) => now >= c.now && c.socket.Waiting? && now >= c.socket.fireAt
    case OpenEvent(now) => now >= c.now && c.socket.Connecting? && !c.closed
    case CloseCall => true
  }

  /** reconnect. */
  function Reconnected(c: State): State {
    var last := if c.lastDisconnect == 0 then c.now else c.lastDisconnect;
    if c.now - last >= TIMEOUT then c.(lastDisconnect := last, closed := true, socket := Gone)
    else c.(lastDisconnect := last, socket := Waiting(c.now + c.retryTime), retryTime := c.retryTime + INCREMENT)
  }

  function Next(c: State, e: Event): State
    requires Enabled(c, e)
  {
    match e
    case CloseEvent(now) => if c.closed then c.(now := now, socket := Gone) else Reconnected(c.(now := now))
    case Fire(now) =>
      if c.closed then c.(now := now, socket := Gone) else c.(now := now, socket := Connecting, attempts := c.attempts + 1)
    case OpenEvent(now) => c.(now := now, socket := Open, lastDisconnect := 0, retryTime := MIN_RETRY, attempts := 0)
    case CloseCall => c.(closed := true)
  }

  /** The object, with its handlers. */
  class Client {
    var lastDisconnect: nat
    var reconnectRetryTime: nat
    var closed: bool
    var socket: Socket
    ghost var now: nat
    ghost var attempts: nat

    ghost function Value(): State
      reads this
    {
      State(now, lastDisconnect, reconnectRetryTime, closed, socket, attempts)
    }

    constructor (time: nat)
      ensures Value() == State(time, 0, MIN_RETRY, false, Open, 0)
    {
      lastDisconnect, reconnectRetryTime, closed, socket, now, attempts := 0, MIN_RETRY, false, Open, time, 0;
    }

    method Reconnect(time: nat)
      requires time == now
      modifies this
      ensures Value() == Reconnected(old(Value()))
    {
      if lastDisconnect == 0 { lastDisconnect := time; }
      if time - lastDisconnect >= TIMEOUT {
        closed, socket := true, Gone;
        return;
      }
      socket := Waiting(time + reconnectRetryTime);
      reconnectRetryTime := reconnectRetryTime + INCREMENT;
    }

    method CloseHandler(time: nat)
      requires Enabled(Value(), CloseEvent(time))
      modifies this
      ensures Value() == Next(old(Value()), CloseEvent(time))
    {
      now := time;
      if closed { socket := Gone; } else { Reconnect(time); }
    }

    method TimerFires(time: nat) returns (inits: bool)
      requires Enabled(Value(), Fire(time))
      modifies this
      ensures Value() == Next(old(Value()), Fire(time))
      ensures inits <==> Value().socket == Connecting
    {
      now := time;
      inits := !closed;
      if inits { socket, attempts := Connecting, attempts + 1; } else { socket := Gone; }
    }

    method Close()
      modifies this
      ensures Value() == Next(old(Value()), CloseCall)
    {
      closed := true;
    }

    method OnReopen(time: nat)
      requires Enabled(Value(), OpenEvent(time))
      modifies this
      ensures Value() == Next(old(Value()), OpenEvent(time))
    {
      lastDisconnect, reconnectRetryTime, socket, now, attempts := 0, MIN_RETRY, Open, time, 0;
    }
  }

  // ----- runs -----

  ghost predicate ValidRun(c: State, events: seq<Event>)
    decreases |events|
  {
    events == [] || (Enabled(c, events[0]) && ValidRun(Next(c, events[0]), events[1..]))
  }

  ghost function Run(c: State, events: seq<Event>): State
    requires ValidRun(c, events)
    decreases |events|
  {
    if events == [] then c else Run(Next(c, events[0]), events[1..])
  }

  /** The least time from the first disconnection to the opening of the n-th socket after it: 1000 + 1500 + ... */
  function Elapsed(n: nat): nat {
    if n == 0 then 0 else Elapsed(n - 1) + MIN_RETRY + INCREMENT * (n - 1)
  }

  lemma {:induction false} ElapsedBound(n: nat)
    ensures Elapsed(n) < TIMEOUT <==> n < 10
  {
    if n > 10 {
      ElapsedBound(n - 1);
    } else {
      assert Elapsed(2) == 2500;
      assert Elapsed(4) == 7000;
      assert Elapsed(6) == 13500;
      assert Elapsed(8) == 22000;
      assert Elapsed(10) == 32500;
    }
  }

  /** How many sockets were opened or will be once the timer fires. */
  function Scheduled(c: State): nat {
    if c.socket.Waiting? then c.attempts + 1 else c.attempts
  }

  ghost predicate Inv(c: State) {
    && c.now > 0
    && (!c.closed ==> c.retryTime == MIN_RETRY + INCREMENT * Scheduled(c))
    && (!c.closed ==> !c.socket.Gone? && (c.lastDisconnect == 0 <==> Scheduled(c) == 0))
    && Scheduled(c) <= 10
    && (!c.closed && c.socket.Waiting? ==> c.lastDisconnect <= c.now && c.socket.fireAt >= c.lastDisconnect + Elapsed(Scheduled(c)))
    && (!c.closed && c.socket.Connecting? ==> 0 < c.lastDisconnect && c.now >= c.lastDisconnect + Elapsed(c.attempts))
    && (c.socket.Open? ==> c.attempts == 0)
  }

  lemma StepKeeps(c: State, e: Event)
    requires Inv(c) && Enabled(c, e)
    ensures Inv(Next(c, e))
    ensures c.closed ==> Next(c, e).closed && Next(c, e).attempts == c.attempts
  {
    ElapsedBound(c.attempts);
  }

  lemma {:induction false} RunKeeps(c: State, events: seq<Event>)
    requires Inv(c) && ValidRun(c, events)
    ensures Inv(Run(c, events))
    ensures c.closed ==> Run(c, events).closed && Run(c, events).attempts == c.attempts
    decreases |events|
  {
    if events != [] {
      StepKeeps(c, events[0]);
      RunKeeps(Next(c, events[0]), events[1..]);
    }
  }

  function Connected(time: nat): State {
    State(time, 0, MIN_RETRY, false, Open, 0)
  }

  /** Whatever the clock and the network do, no more than ten sockets are tried before the connection is up again or the
      client is closed. */
  lemma AtMostTenAttempts(time: nat, events: seq<Event>)
    requires time > 0 && ValidRun(Connected(time), events)
    ensures Run(Connected(time), events).attempts <= 10
  {
    RunKeeps(Connected(time), events);
  }

  /** The attempt that may be the last: when the tenth socket closes too, the client closes for good and opens no
      socket afterwards. */
  lemma TenthFailureCloses(c: State, now: nat, events: seq<Event>)
    requires Inv(c) && c.attempts == 10 && c.socket.Connecting? && Enabled(c, CloseEvent(now))
    requires ValidRun(Next(c, CloseEvent(now)), events)
    ensures var c' := Run(Next(c, CloseEvent(now)), events); c'.closed && c'.attempts == 10
  {
    ElapsedBound(10);
    StepKeeps(c, CloseEvent(now));
    RunKeeps(Next(c, CloseEvent(now)), events);
  }

  /** Ten is reached: with sockets that fail at once the tenth is still tried, 27 seconds into the outage. */
  lemma TenAttemptsHappen(c: State)
    requires Inv(c) && !c.closed && c.socket.Connecting? && c.attempts == 9 && c.now == c.lastDisconnect + Elapsed(9)
    ensures Enabled(c, CloseEvent(c.now))
    ensures var c1 := Next(c, CloseEvent(c.now));
            c1.socket == Waiting(c.lastDisconnect + Elapsed(10)) && Next(c1, Fire(c.lastDisconnect + Elapsed(10))).attempts == 10
  {
    ElapsedBound(9);
  }

  /** A socket that opens ends the outage: the client is as it was when first connected. */
  lemma ReopenResets(c: State, now: nat)
    requires Inv(c) && Enabled(c, OpenEvent(now))
    ensures Next(c, OpenEvent(now)) == Connected(now)
  {
  }

  predicate NoReopen(events: seq<Event>) {
    forall i :: 0 <= i < |events| ==> !events[i].OpenEvent?
  }

  function Progress(c: State): nat
    requires Scheduled(c) <= 10
  {
    if c.socket.Gone? then 0
    else if c.closed then 1
    else 2 * (10 - Scheduled(c)) + (if c.socket.Waiting? then 2 else 1)
  }

  /** Without a successful reopen the run ends: at most ten sockets open and eleven close, and then nothing happens any
      more. The application's own close calls, which only cut it short, are not counted. */
  lemma {:induction false} OutageEnds(c: State, events: seq<Event>)
    requires Inv(c) && ValidRun(c, events) && NoReopen(events)
    requires forall i :: 0 <= i < |events| ==> !events[i].CloseCall?
    ensures |events| <= Progress(c) <= 21
    decreases |events|
  {
    if events != [] {
      StepKeeps(c, events[0]);
      OutageEnds(Next(c, events[0]), events[1..]);
    }
  }
}
