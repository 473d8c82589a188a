/**
 * PostgresWatcher: one database connection, the background listener that
 * polls it for notifications, NOTIFY on the same connection, and close.
 *
 * The database is not modelled: each call that reaches it takes its outcome
 * as a parameter, and the statements that reach the server are recorded in
 * `effects`. The listener thread is modelled by its loop alone: a schedule
 * says, for each check of the `running` flag, what value the thread reads
 * and what the poll it then issues returns.
 */
module Pg {
  import opened Wrappers
  import SqlNotify

  /** An SQLException. */
  datatype SqlError = SqlError

  /** The `conn` field: never assigned, open, or closed. */
  datatype ConnState = NoConnection | Open | Closed

  /** What the watcher does to the outside world, in order. */
  datatype Effect =
    | Executed(sql: string)
    | ThreadJoined
    | ConnectionClosed
    | StackTracePrinted

  /** A PGNotification: channel name, sending backend, payload. */
  datatype Notification = Notification(name: string, pid: int, parameter: string)

  /** What one `getNotifications(1000)` call does: return an array, null, or throw. */
  datatype PollResult = Batch(notifications: Option<seq<Notification>>) | PollError

  /** One check of `while (running)`: the value read, and the result of the poll it leads to. */
  datatype Tick = Tick(running: bool, poll: PollResult)

  /**
   * How the background task ends: it saw `running` false, it died of an
   * exception, or the schedule ran out while it was still running.
   */
  datatype TaskExit = Stopped | Died | StillRunning

  /** The parameters the callback received, the polls issued, and how the task ended. */
  datatype ListenerRun = ListenerRun(delivered: seq<string>, polls: nat, exit: TaskExit)

  /** The payloads of a batch, in batch order. */
  function Parameters(ns: seq<Notification>): (ps: seq<string>)
    ensures |ps| == |ns|
    ensures forall i :: 0 <= i < |ns| ==> ps[i] == ns[i].parameter
    decreases |ns|
  {
    if ns == [] then [] else Parameters(ns[..|ns| - 1]) + [ns[|ns| - 1].parameter]
  }

  /** The payloads a poll result hands to the callback: none for null or an exception. */
  function PollParameters(p: PollResult): seq<string> {
    match p
    case Batch(Some(ns)) => Parameters(ns)
    case _ => []
  }

  /** The payloads of polls i up to j, poll after poll. */
  function Delivered(schedule: seq<Tick>, i: nat, j: nat): seq<string>
    requires i <= j <= |schedule|
    decreases j - i
  {
    if i == j then [] else PollParameters(schedule[i].poll) + Delivered(schedule, i + 1, j)
  }

  /** A run that first delivers `delivered` over `polls` polls, then goes on as `rest`. */
  function Then(delivered: seq<string>, polls: nat, rest: ListenerRun): ListenerRun {
    ListenerRun(delivered + rest.delivered, polls + rest.polls, rest.exit)
  }

  /** The listener from the i-th check of `running` on. */
  function ListenerFrom(schedule: seq<Tick>, i: nat): ListenerRun
    requires i <= |schedule|
    decreases |schedule| - i
  {
    if i == |schedule| then ListenerRun([], 0, StillRunning)
    else if !schedule[i].running then ListenerRun([], 0, Stopped)
    else
      match schedule[i].poll
      case PollError => ListenerRun([], 1, Died)
      case Batch(_) => Then(PollParameters(schedule[i].poll), 1, ListenerFrom(schedule, i + 1))
  }

  /** The background task of `listen` after its LISTEN succeeded, run on a schedule. */
  function Listener(schedule: seq<Tick>): ListenerRun {
    ListenerFrom(schedule, 0)
  }

  /** The polls and the exit of ListenerMeaning, from the i-th check on. */
  lemma {:induction false} ListenerFromPolls(schedule: seq<Tick>, i: nat)
    requires i <= |schedule|
    ensures var r := ListenerFrom(schedule, i);
            && i + r.polls <= |schedule|
            && (forall j :: i <= j < i + r.polls ==> schedule[j].running)
            && (forall j :: i <= j < i + r.polls - 1 ==> schedule[j].poll.Batch?)
            && (r.exit == Stopped ==>
                  i + r.polls < |schedule| && !schedule[i + r.polls].running
                  && (r.polls == 0 || schedule[i + r.polls - 1].poll.Batch?))
            && (r.exit == Died ==> r.polls > 0 && schedule[i + r.polls - 1].poll.PollError?)
            && (r.exit == StillRunning ==>
                  i + r.polls == |schedule| && (r.polls == 0 || schedule[i + r.polls - 1].poll.Batch?))
    decreases |schedule| - i
  {
    if i < |schedule| && schedule[i].running && schedule[i].poll.Batch? {
      ListenerFromPolls(schedule, i + 1);
      assert ListenerFrom(schedule, i).polls == ListenerFrom(schedule, i + 1).polls + 1;
      assert ListenerFrom(schedule, i).exit == ListenerFrom(schedule, i + 1).exit;
    }
  }

  /** The payloads of ListenerMeaning, from the i-th check on. */
  lemma {:induction false} ListenerFromDelivered(schedule: seq<Tick>, i: nat)
    requires i <= |schedule|
    ensures var r := ListenerFrom(schedule, i);
            i + r.polls <= |schedule| && r.delivered == Delivered(schedule, i, i + r.polls)
    decreases |schedule| - i
  {
    if i < |schedule| && schedule[i].running {
      match schedule[i].poll
      case PollError =>
        assert Delivered(schedule, i, i + 1) == [] + Delivered(schedule, i + 1, i + 1);
      case Batch(_) =>
        ListenerFromDelivered(schedule, i + 1);
    }
  }

  /**
   * What the listener does: a poll is issued only after a check that read
   * `running` as true; every poll before the last returned normally; the
   * callback receives the payloads of those polls, each exactly once, batch
   * by batch in order, nothing for a null batch; and the task ends as the
   * schedule dictates.
   */
  lemma ListenerMeaning(schedule: seq<Tick>)
    ensures var r := Listener(schedule);
            && r.polls <= |schedule|
            && (forall i :: 0 <= i < r.polls ==> schedule[i].running)
            && (forall i :: 0 <= i < r.polls - 1 ==> schedule[i].poll.Batch?)
            && r.delivered == Delivered(schedule, 0, r.polls)
            && (r.exit == Stopped ==>
                  r.polls < |schedule| && !schedule[r.polls].running
                  && (r.polls == 0 || schedule[r.polls - 1].poll.Batch?))
            && (r.exit == Died ==> r.polls > 0 && schedule[r.polls - 1].poll.PollError?)
            && (r.exit == StillRunning ==>
                  r.polls == |schedule| && (r.polls == 0 || schedule[r.polls - 1].poll.Batch?))
  {
    ListenerFromPolls(schedule, 0);
    ListenerFromDelivered(schedule, 0);
  }

  /** One pass of the loop body after a normal poll. */
  lemma LoopStep(schedule: seq<Tick>, i: nat, delivered: seq<string>)
    requires i < |schedule| && schedule[i].running && schedule[i].poll.Batch?
    ensures Then(delivered, i, ListenerFrom(schedule, i))
            == Then(delivered + PollParameters(schedule[i].poll), i + 1, ListenerFrom(schedule, i + 1))
  {
    var rest := ListenerFrom(schedule, i + 1);
    assert delivered + (PollParameters(schedule[i].poll) + rest.delivered)
           == (delivered + PollParameters(schedule[i].poll)) + rest.delivered;
  }

  lemma ThenEnd(delivered: seq<string>, polls: nat, exit: TaskExit)
    ensures Then(delivered, polls, ListenerRun([], 0, exit)) == ListenerRun(delivered, polls, exit)
  {
    assert delivered + [] == delivered;
  }

  lemma ParametersStep(ns: seq<Notification>, k: nat)
    requires k < |ns|
    ensures Parameters(ns[..k + 1]) == Parameters(ns[..k]) + [ns[k].parameter]
  {
    assert ns[..k + 1][..k] == ns[..k];
  }

  /** The `for` over a non-null batch: each payload to the callback, in batch order. */
  method DeliverBatch(delivered: seq<string>, ns: seq<Notification>) returns (d: seq<string>)
    ensures d == delivered + Parameters(ns)
  {
    d := delivered;
    for k := 0 to |ns|
      invariant d == delivered + Parameters(ns[..k])
    {
      ParametersStep(ns, k);
      d := d + [ns[k].parameter];
    }
    assert ns[..|ns|] == ns;
  }

  /**
   * The loop body of the thread started by `listen`: while `running`, poll
   * once and hand each payload of a non-null batch to the callback, in
   * batch order; an exception ends the loop.
   */
  method PollLoop(schedule: seq<Tick>) returns (r: ListenerRun)
    ensures r == Listener(schedule)
  {
    var delivered: seq<string> := [];
    var i := 0;
    while i < |schedule| && schedule[i].running
      invariant 0 <= i <= |schedule|
      invariant Listener(schedule) == Then(delivered, i, ListenerFrom(schedule, i))
      decreases |schedule| - i
    {
      match schedule[i].poll
      case PollError =>
        ThenEnd(delivered, i + 1, Died);
        return ListenerRun(delivered, i + 1, Died);
      case Batch(b) =>
        LoopStep(schedule, i, delivered);
        if b.Some? {
          delivered := DeliverBatch(delivered, b.value);
        } else {
          assert delivered + PollParameters(schedule[i].poll) == delivered;
        }
        i := i + 1;
    }
    var exit := if i == |schedule| then StillRunning else Stopped;
    ThenEnd(delivered, i, exit);
    r := ListenerRun(delivered, i, exit);
  }

  class PostgresWatcher {
    const url: string
    const user: string
    const password: string
    var conn: ConnState
    /** `listenThread != null`. */
    var hasListenThread: bool
    var running: bool
    /** The channel the thread started by `listen` subscribes to. */
    var listenChannel: string
    var effects: seq<Effect>

    constructor (url: string, user: string, password: string)
      ensures this.url == url && this.user == user && this.password == password
      ensures conn == NoConnection && !hasListenThread && !running && effects == []
    {
      this.url := url;
      this.user := user;
      this.password := password;
      conn := NoConnection;
      hasListenThread := false;
      running := false;
      listenChannel := "";
      effects := [];
    }

    /** `conn = DriverManager.getConnection(url, props)`; `ok` is whether the driver connects. */
    method Connect(ok: bool) returns (o: Outcome<SqlError>)
      modifies this
      ensures o.Pass? <==> ok
      ensures conn == (if ok then Open else old(conn))
      ensures hasListenThread == old(hasListenThread) && running == old(running)
      ensures listenChannel == old(listenChannel) && effects == old(effects)
    {
      if ok {
        conn := Open;
        o := Pass;
      } else {
        o := Fail(SqlError);
      }
    }

    /** Raise the flag, then start the background task for `channel`. */
    method Listen(channel: string)
      modifies this
      ensures running && hasListenThread && listenChannel == channel
      ensures conn == old(conn) && effects == old(effects)
    {
      running := true;
      listenChannel := channel;
      hasListenThread := true;
    }

    /**
     * The whole background task: LISTEN on the connection, then the poll
     * loop. `subscribeOk` is whether the server accepts the LISTEN; an
     * exception on either step prints a stack trace and ends the task.
     */
    method ListenTask(subscribeOk: bool, schedule: seq<Tick>) returns (r: ListenerRun)
      requires hasListenThread
      modifies this`effects
      ensures old(conn) == Open && subscribeOk ==> r == Listener(schedule)
      ensures !(old(conn) == Open && subscribeOk) ==> r == ListenerRun([], 0, Died)
      ensures effects == old(effects)
                         + (if conn == Open && subscribeOk then [Executed("LISTEN " + listenChannel)] else [])
                         + (if r.exit == Died then [StackTracePrinted] else [])
    {
      if conn != Open || !subscribeOk {
        effects := effects + [StackTracePrinted];
        return ListenerRun([], 0, Died);
      }
      effects := effects + [Executed("LISTEN " + listenChannel)];
      r := PollLoop(schedule);
      if r.exit == Died {
        effects := effects + [StackTracePrinted];
      }
    }

    /**
     * NOTIFY with the payload as an SQL literal, every quote doubled.
     * `accepted` is whether the server runs the statement; a closed
     * connection refuses it. A missing connection is a caller error.
     */
    method Notify(channel: string, message: string, accepted: bool) returns (o: Outcome<SqlError>)
      requires conn != NoConnection
      modifies this`effects
      ensures o.Pass? <==> conn == Open && accepted
      ensures effects == old(effects)
                         + (if o.Pass? then [Executed(SqlNotify.NotifyCommand(channel, message))] else [])
    {
      var sql := SqlNotify.NotifyCommand(channel, message);
      if conn == Open && accepted {
        effects := effects + [Executed(sql)];
        o := Pass;
      } else {
        o := Fail(SqlError);
      }
    }

    /**
     * Lower the flag, join the thread if there is one, then close the
     * connection if there is one; every exception is printed and swallowed.
     * An interrupted join skips the close of the connection.
     */
    method Close(joinInterrupted: bool, closeFails: bool)
      modifies this
      ensures !running
      ensures hasListenThread == old(hasListenThread) && listenChannel == old(listenChannel)
      ensures var joins := old(hasListenThread) && !joinInterrupted;
              var reachesClose := !old(hasListenThread) || !joinInterrupted;
              var closes := reachesClose && old(conn) != NoConnection;
              && conn == (if closes && !closeFails then Closed else old(conn))
              && effects == old(effects)
                            + (if joins then [ThreadJoined] else [])
                            + (if !reachesClose then [StackTracePrinted] else [])
                            + (if closes then (if closeFails then [StackTracePrinted] else [ConnectionClosed]) else [])
    {
      running := false;
      if hasListenThread {
        if joinInterrupted {
          effects := effects + [StackTracePrinted];
          return;
        }
        effects := effects + [ThreadJoined];
      }
      if conn != NoConnection {
        if closeFails {
          effects := effects + [StackTracePrinted];
        } else {
          conn := Closed;
          effects := effects + [ConnectionClosed];
        }
      }
    }
  }
}
