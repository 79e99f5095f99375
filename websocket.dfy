/** The browser's notification socket client: connecting, authenticating on
    open, filtering incoming frames, and reconnecting with capped exponential
    back-off after an abnormal close. Timers are a list of pending delays; a
    `TimerFired` event is the browser running one of them. */
module NotificationSocket {
  import opened Common

  const MaxReconnectAttempts: nat := 5
  const BaseDelayMs: nat := 1000
  const MaxDelayMs: nat := 30000

  function Pow2(k: nat): (r: nat)
    ensures r >= 1
  {
    if k == 0 then 1 else 2 * Pow2(k - 1)
  }

  lemma {:induction false} Pow2Monotone(j: nat, k: nat)
    requires j <= k
    ensures Pow2(j) <= Pow2(k)
  {
    if j < k {
      Pow2Monotone(j, k - 1);
    }
  }

  /** `Math.min(1000 * 2 ** attempts, 30000)`. */
  function ReconnectDelay(attempts: nat): (r: nat)
    ensures BaseDelayMs <= r <= MaxDelayMs
  {
    Min(BaseDelayMs * Pow2(attempts), MaxDelayMs)
  }

  /** The delay never shrinks as attempts grow, and each one doubles the
      previous until the cap. */
  lemma DelayMonotone(j: nat, k: nat)
    requires j <= k
    ensures ReconnectDelay(j) <= ReconnectDelay(k)
    ensures ReconnectDelay(j + 1) == Min(2 * ReconnectDelay(j), MaxDelayMs)
  {
    Pow2Monotone(j, k);
  }

  lemma DelaySchedule()
    ensures ReconnectDelay(0) == 1000 && ReconnectDelay(1) == 2000 && ReconnectDelay(2) == 4000
    ensures ReconnectDelay(3) == 8000 && ReconnectDelay(4) == 16000 && ReconnectDelay(5) == 30000
  {
  }

  /** A decoded frame: a JSON object. */
  type Frame = map<string, Json>

  /** Only frames whose `type` is the string "notification" reach the callback. */
  predicate IsNotification(f: Frame) {
    "type" in f && f["type"] == JStr("notification")
  }

  /** `null`, a socket still connecting, an open one, or the closed one the
      client still holds after its close event. */
  datatype SocketState = NoSocket | Connecting | Open | Closed

  datatype Outgoing = Authenticate(userId: int)

  datatype Channel = Channel(
    userId: int,
    socket: SocketState,
    attempts: nat,
    pending: seq<nat>,
    sent: seq<Outgoing>,
    delivered: seq<Frame>)

  function Init(userId: int): (c: Channel)
    ensures c.socket == NoSocket && c.attempts == 0 && c.pending == [] && c.sent == [] && c.delivered == []
  {
    Channel(userId, NoSocket, 0, [], [], [])
  }

  /** `connect()`: a new socket replaces whatever the client held. */
  function ConnectStep(c: Channel): (r: Channel)
    ensures r.socket == Connecting && r == c.(socket := Connecting)
  {
    c.(socket := Connecting)
  }

  /** `onopen`: the counter is reset and exactly one authentication frame
      carrying the user id goes out. */
  function OpenStep(c: Channel): (r: Channel)
    ensures r.attempts == 0 && r.sent == c.sent + [Authenticate(c.userId)]
    ensures r.socket == Open && r.pending == c.pending && r.delivered == c.delivered
  {
    c.(socket := Open, attempts := 0, sent := c.sent + [Authenticate(c.userId)])
  }

  /** `onmessage`: the frame is delivered exactly when it is a notification. */
  function MessageStep(c: Channel, f: Frame): (r: Channel)
    ensures IsNotification(f) ==> r.delivered == c.delivered + [f]
    ensures !IsNotification(f) ==> r.delivered == c.delivered
    ensures r.(delivered := c.delivered) == c
  {
    if IsNotification(f) then c.(delivered := c.delivered + [f]) else c
  }

  /** `onclose`: a reconnection is scheduled exactly when the close was not
      clean and fewer than five attempts have been made. */
  function CloseStep(c: Channel, wasClean: bool): (r: Channel)
    ensures r.socket == Closed && r.attempts == c.attempts
    ensures !wasClean && c.attempts < MaxReconnectAttempts ==> r.pending == c.pending + [ReconnectDelay(c.attempts)]
    ensures wasClean || c.attempts >= MaxReconnectAttempts ==> r.pending == c.pending
    ensures r.sent == c.sent && r.delivered == c.delivered
  {
    var closed := c.(socket := Closed);
    if !wasClean && c.attempts < MaxReconnectAttempts then
      closed.(pending := c.pending + [ReconnectDelay(c.attempts)])
    else closed
  }

  /** The `setTimeout` callback: count the attempt, then `connect()`. */
  function FireStep(c: Channel, i: nat): (r: Channel)
    requires i < |c.pending|
    ensures r.attempts == c.attempts + 1 && r.socket == Connecting
    ensures r.pending == c.pending[..i] + c.pending[i + 1..]
  {
    ConnectStep(c.(attempts := c.attempts + 1, pending := c.pending[..i] + c.pending[i + 1..]))
  }

  /** `disconnect()` drops the socket; a timer already scheduled stays. */
  function DisconnectStep(c: Channel): (r: Channel)
    ensures r.socket == NoSocket && r.pending == c.pending && r.attempts == c.attempts
  {
    c.(socket := NoSocket)
  }

  // ------------------------------------------------------------ event traces

  datatype Event = ConnectCalled | Opened | Received(frame: Frame) | ClosedBy(wasClean: bool) | TimerFired(index: nat) | DisconnectCalled

  /** The events the browser can deliver in a state, from the current socket. */
  predicate Enabled(c: Channel, e: Event) {
    match e
    case ConnectCalled => true
    case Opened => c.socket == Connecting
    case Received(_) => c.socket == Open
    case ClosedBy(_) => c.socket == Connecting || c.socket == Open
    case TimerFired(i) => i < |c.pending|
    case DisconnectCalled => true
  }

  function Apply(c: Channel, e: Event): Channel
    requires Enabled(c, e)
  {
    match e
    case ConnectCalled => ConnectStep(c)
    case Opened => OpenStep(c)
    case Received(f) => MessageStep(c, f)
    case ClosedBy(clean) => CloseStep(c, clean)
    case TimerFired(i) => FireStep(c, i)
    case DisconnectCalled => DisconnectStep(c)
  }

  /** Runs a trace; an event that cannot occur in the current state is skipped. */
  function Run(c: Channel, es: seq<Event>): Channel
    decreases |es|
  {
    if es == [] then c
    else Run(if Enabled(c, es[0]) then Apply(c, es[0]) else c, es[1..])
  }

  /** How many reconnections a trace performs. */
  function Reconnects(c: Channel, es: seq<Event>): nat
    decreases |es|
  {
    if es == [] then 0
    else
      var fired := if Enabled(c, es[0]) && es[0].TimerFired? then 1 else 0;
      fired + Reconnects(if Enabled(c, es[0]) then Apply(c, es[0]) else c, es[1..])
  }

  /** No successful open (which resets the counter) and no manual `connect()`. */
  predicate NeverOpens(es: seq<Event>) {
    forall k :: 0 <= k < |es| ==> !es[k].Opened? && !es[k].ConnectCalled?
  }

  /** At most one timer is pending, only while the socket is not live, and the
      attempts made plus the timers pending never exceed five. */
  predicate BackoffInv(c: Channel) {
    && |c.pending| <= 1
    && (c.pending != [] ==> c.socket == Closed || c.socket == NoSocket)
    && c.attempts + |c.pending| <= MaxReconnectAttempts
  }

  lemma StartIsBackoffInv(userId: int)
    ensures BackoffInv(ConnectStep(Init(userId)))
  {
  }

  lemma BackoffInvStep(c: Channel, e: Event)
    requires BackoffInv(c) && Enabled(c, e) && !e.Opened? && !e.ConnectCalled?
    ensures BackoffInv(Apply(c, e))
    ensures Apply(c, e).attempts == c.attempts + (if e.TimerFired? then 1 else 0)
  {
  }

  /** Without a successful open the client reconnects at most five times in
      all, whatever the sequence of closes, timers and disconnects. */
  lemma {:induction false} ReconnectsBounded(c: Channel, es: seq<Event>)
    requires BackoffInv(c) && NeverOpens(es)
    ensures BackoffInv(Run(c, es))
    ensures Run(c, es).attempts == c.attempts + Reconnects(c, es)
    ensures Reconnects(c, es) <= MaxReconnectAttempts - c.attempts
    decreases |es|
  {
    if es != [] {
      var next := if Enabled(c, es[0]) then Apply(c, es[0]) else c;
      if Enabled(c, es[0]) {
        BackoffInvStep(c, es[0]);
      }
      assert NeverOpens(es[1..]) by {
        forall k | 0 <= k < |es[1..]| ensures !es[1..][k].Opened? && !es[1..][k].ConnectCalled? {
          assert es[1..][k] == es[k + 1];
        }
      }
      ReconnectsBounded(next, es[1..]);
    }
  }

  /** `n` rounds of an abnormal close followed by the timer it scheduled. */
  function Rounds(n: nat): seq<Event>
  {
    if n == 0 then [] else [ClosedBy(false), TimerFired(0)] + Rounds(n - 1)
  }

  /** Each round performs one reconnection and ends connecting again. */
  lemma {:induction false} RunRounds(c: Channel, n: nat)
    requires c.attempts + n <= MaxReconnectAttempts && c.socket == Connecting && c.pending == []
    ensures Run(c, Rounds(n)) == c.(attempts := c.attempts + n)
    decreases n
  {
    if n > 0 {
      var round := [ClosedBy(false), TimerFired(0)];
      var next := c.(attempts := c.attempts + 1);
      assert Run(c, round) == next by {
        assert round[1..] == [TimerFired(0)] && round[1..][1..] == [];
      }
      RunConcat(c, round, Rounds(n - 1));
      RunRounds(next, n - 1);
    }
  }

  /** Five abnormal closes in a row, each followed by its timer, leave the
      counter at five; the sixth abnormal close schedules nothing. */
  lemma FiveAttemptsThenGiveUp(userId: int)
    ensures var c5 := Run(ConnectStep(Init(userId)), Rounds(5));
            c5.attempts == 5 && c5.socket == Connecting && CloseStep(c5, false).pending == []
  {
    RunRounds(ConnectStep(Init(userId)), 5);
  }

  lemma {:induction false} RunConcat(c: Channel, a: seq<Event>, b: seq<Event>)
    ensures Run(c, a + b) == Run(Run(c, a), b)
    decreases |a|
  {
    if a != [] {
      assert (a + b)[0] == a[0] && (a + b)[1..] == a[1..] + b;
      RunConcat(if Enabled(c, a[0]) then Apply(c, a[0]) else c, a[1..], b);
    } else {
      assert a + b == b;
    }
  }

  /** The client object; each handler updates the fields as its step function
      says. */
  class NotificationWebSocket {
    const userId: int
    const maxReconnectAttempts: nat := 5
    var socket: SocketState
    var reconnectAttempts: nat
    var pendingDelays: seq<nat>
    var sent: seq<Outgoing>
    var delivered: seq<Frame>

    function State(): Channel
      reads this
    {
      Channel(userId, socket, reconnectAttempts, pendingDelays, sent, delivered)
    }

    constructor(userId: int)
      ensures State() == Init(userId)
    {
      this.userId := userId;
      socket := NoSocket;
      reconnectAttempts := 0;
      pendingDelays := [];
      sent := [];
      delivered := [];
    }

    method Connect()
      modifies this
      ensures State() == ConnectStep(old(State()))
    {
      socket := Connecting;
    }

    method OnOpen()
      requires socket == Connecting
      modifies this
      ensures State() == OpenStep(old(State()))
    {
      socket := Open;
      reconnectAttempts := 0;
      sent := sent + [Authenticate(userId)];
    }

    method OnMessage(f: Frame)
      requires socket == Open
      modifies this
      ensures State() == MessageStep(old(State()), f)
    {
      if "type" in f && f["type"] == JStr("notification") {
        delivered := delivered + [f];
      }
    }

    method OnClose(wasClean: bool)
      requires socket == Connecting || socket == Open
      modifies this
      ensures State() == CloseStep(old(State()), wasClean)
    {
      socket := Closed;
      if !wasClean && reconnectAttempts < maxReconnectAttempts {
        var delay := Min(1000 * Pow2(reconnectAttempts), 30000);
        pendingDelays := pendingDelays + [delay];
      }
    }

    method OnTimer(i: nat)
      requires i < |pendingDelays|
      modifies this
      ensures State() == FireStep(old(State()), i)
    {
      pendingDelays := pendingDelays[..i] + pendingDelays[i + 1..];
      reconnectAttempts := reconnectAttempts + 1;
      Connect();
    }

    method Disconnect()
      modifies this
      ensures State() == DisconnectStep(old(State()))
    {
      if socket != NoSocket {
        socket := NoSocket;
      }
    }
  }
}
