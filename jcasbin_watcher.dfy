/**
 * JCasbinPostgresWatcher: the policy-change operations, each of which sends
 * a `{method, params}` message tagged with this instance's id, and the
 * receiving side, which drops its own messages and hands the others to the
 * registered callbacks.
 *
 * The JSON serialiser is the function `toJson`, which may fail; registered
 * callbacks are known by an identity, and what they are called with is
 * appended, with the log lines, to `trace`.
 */
module Watcher {
  import opened Wrappers
  import Codec
  import SqlNotify
  import Messages
  import Config
  import Uuid
  import Pg

  /** The identity of a registered callback object. */
  type CallbackId = nat

  /** What the watcher does that its embedding application can observe. */
  datatype Event =
    | Accepted(callback: CallbackId, message: string)
    | Ran(callback: CallbackId)
    | OwnMessageIgnored(localId: string)
    | SerializationFailed
    | SendFailed

  /** The callback calls for a delivered message: the string callback first, then the runnable. */
  function Calls(consumer: Option<CallbackId>, runnable: Option<CallbackId>, message: string): seq<Event> {
    (if consumer.Some? then [Accepted(consumer.value, message)] else [])
    + (if runnable.Some? then [Ran(runnable.value)] else [])
  }

  /** No callback is called in events. */
  predicate NoCallbacks(events: seq<Event>) {
    forall i :: 0 <= i < |events| ==> !events[i].Accepted? && !events[i].Ran?
  }

  /** What onMessageReceived does with one raw payload. */
  function Dispatch(localId: string, verbose: bool, consumer: Option<CallbackId>,
                    runnable: Option<CallbackId>, raw: string): seq<Event>
  {
    match Codec.Receive(localId, raw)
    case Suppressed => if verbose then [OwnMessageIgnored(localId)] else []
    case Deliver(message) => Calls(consumer, runnable, message)
  }

  /** What onMessageReceived does with each of a sequence of payloads, in order. */
  function DispatchAll(localId: string, verbose: bool, consumer: Option<CallbackId>,
                       runnable: Option<CallbackId>, raws: seq<string>): seq<Event>
    decreases |raws|
  {
    if raws == [] then []
    else DispatchAll(localId, verbose, consumer, runnable, raws[..|raws| - 1])
         + Dispatch(localId, verbose, consumer, runnable, raws[|raws| - 1])
  }

  /** The trace after one more payload, given the trace before it. */
  lemma DispatchAllStep(localId: string, verbose: bool, consumer: Option<CallbackId>,
                        runnable: Option<CallbackId>, raws: seq<string>, i: nat,
                        before: seq<Event>, t: seq<Event>, after: seq<Event>)
    requires i < |raws|
    requires t == before + DispatchAll(localId, verbose, consumer, runnable, raws[..i])
    requires after == t + Dispatch(localId, verbose, consumer, runnable, raws[i])
    ensures after == before + DispatchAll(localId, verbose, consumer, runnable, raws[..i + 1])
  {
    assert raws[..i + 1][..i] == raws[..i];
  }

  /**
   * A suppressed payload calls no callback; a delivered one calls each
   * registered callback exactly once, the string callback first and with the
   * delivered message, and skips an unregistered one.
   */
  lemma DispatchCallsEachOnce(localId: string, verbose: bool, consumer: Option<CallbackId>,
                              runnable: Option<CallbackId>, raw: string)
    ensures var events := Dispatch(localId, verbose, consumer, runnable, raw);
            match Codec.Receive(localId, raw)
            case Suppressed => NoCallbacks(events) && |events| <= 1
            case Deliver(m) =>
              && |events| == (if consumer.Some? then 1 else 0) + (if runnable.Some? then 1 else 0)
              && (consumer.Some? ==> events[0] == Accepted(consumer.value, m))
              && (runnable.Some? ==> events[|events| - 1] == Ran(runnable.value))
  {
  }

  /** The log entries and statements that sending one message produces. */
  datatype SendResult = SendResult(effects: seq<Pg.Effect>, log: seq<Event>)

  /**
   * sendMessage: serialise the message; on failure log it and send nothing;
   * otherwise NOTIFY the tagged payload, logging a refused statement.
   * Neither failure reaches the caller.
   */
  function Send(localId: string, channel: string, toJson: Messages.Value -> Option<string>,
                message: Messages.Value, connOpen: bool, accepted: bool): SendResult
  {
    match toJson(message)
    case None => SendResult([], [SerializationFailed])
    case Some(json) =>
      if connOpen && accepted
      then SendResult([Pg.Executed(SqlNotify.NotifyCommand(channel, Codec.Frame(localId, json)))], [])
      else SendResult([], [SendFailed])
  }

  /**
   * A send either issues exactly one NOTIFY, on `channel`, whose literal the
   * server reads as exactly the tagged JSON, or issues nothing and logs
   * exactly one failure.
   */
  lemma SendIssuesOneNotifyOrLogs(localId: string, channel: string, toJson: Messages.Value -> Option<string>,
                                  message: Messages.Value, connOpen: bool, accepted: bool)
    ensures var r := Send(localId, channel, toJson, message, connOpen, accepted);
            && (r.effects == [] <==> |r.log| == 1)
            && (toJson(message).None? ==> r.effects == [] && r.log == [SerializationFailed])
            && |r.effects| <= 1
            && (r.effects != [] ==>
                  && toJson(message).Some? && connOpen && accepted
                  && r.effects[0].Executed?
                  && var sql := r.effects[0].sql;
                     var n := |SqlNotify.CommandPrefix(channel)|;
                     && sql[..n] == "NOTIFY " + channel + ", '"
                     && SqlNotify.ReadLiteral(sql[n..])
                        == Some((localId + "::" + toJson(message).value, "")))
  {
    match toJson(message)
    case None =>
    case Some(json) =>
      SqlNotify.NotifyCommandCarriesMessage(channel, Codec.Frame(localId, json));
  }

  /**
   * Two instances on one channel, the sender's id safe: the payload the
   * server reads from the sender's NOTIFY makes the other instance call its
   * callbacks with exactly the JSON, while the sender itself calls none.
   * If that JSON parses back to the message map, the receiver recovers the
   * policy change with every field in order.
   */
  lemma CrossInstanceEndToEnd(sender: string, receiver: string, channel: string,
                              toJson: Messages.Value -> Option<string>,
                              fromJson: string -> Option<Messages.Value>,
                              change: Messages.PolicyChange, verbose: bool,
                              consumer: Option<CallbackId>, runnable: Option<CallbackId>)
    requires Codec.SafeId(sender) && receiver != sender
    requires toJson(Messages.MessageOf(change)).Some?
    ensures var json := toJson(Messages.MessageOf(change)).value;
            var sql := SqlNotify.NotifyCommand(channel, Codec.Frame(sender, json));
            var payload := SqlNotify.ReadLiteral(sql[|SqlNotify.CommandPrefix(channel)|..]);
            && Send(sender, channel, toJson, Messages.MessageOf(change), true, true).effects == [Pg.Executed(sql)]
            && payload == Some((Codec.Frame(sender, json), ""))
            && Dispatch(receiver, verbose, consumer, runnable, payload.value.0) == Calls(consumer, runnable, json)
            && NoCallbacks(Dispatch(sender, verbose, consumer, runnable, payload.value.0))
            && (fromJson(json) == Some(Messages.MessageOf(change)) ==>
                  fromJson(json).value.Obj? && Messages.ChangeOf(fromJson(json).value) == Some(change))
  {
    var json := toJson(Messages.MessageOf(change)).value;
    SqlNotify.NotifyCommandCarriesMessage(channel, Codec.Frame(sender, json));
    Codec.CrossInstanceDelivery(sender, receiver, json);
    Codec.SelfSuppression(sender, json);
    Messages.ChangeOfMessageOf(change);
  }

  class JCasbinPostgresWatcher {
    const pg: Pg.PostgresWatcher
    var runnableCallback: Option<CallbackId>
    var consumerCallback: Option<CallbackId>
    const channel: string
    const localId: string
    const verbose: bool
    /** Jackson's `writeValueAsString`, which may throw. */
    const toJson: Messages.Value -> Option<string>
    var trace: seq<Event>

    /** The connection was opened before the watcher was built. */
    ghost predicate Valid()
      reads this, pg
    {
      pg.conn != Pg.NoConnection
    }

    /** The field assignments of the constructor, after `connect` succeeded. */
    constructor (pg: Pg.PostgresWatcher, config: Config.WatcherConfig, toJson: Messages.Value -> Option<string>)
      requires pg.conn == Pg.Open
      ensures Valid()
      ensures this.pg == pg && this.toJson == toJson
      ensures channel == config.GetChannel() && localId == config.GetLocalId() && verbose == config.IsVerbose()
      ensures runnableCallback.None? && consumerCallback.None? && trace == []
    {
      this.pg := pg;
      this.toJson := toJson;
      channel := config.GetChannel();
      localId := config.GetLocalId();
      verbose := config.IsVerbose();
      runnableCallback := None;
      consumerCallback := None;
      trace := [];
    }

    /** onMessageReceived. */
    method OnMessageReceived(raw: string)
      modifies this`trace
      ensures trace == old(trace) + Dispatch(localId, verbose, consumerCallback, runnableCallback, raw)
    {
      var parts := Codec.SplitFirst(raw);
      if |parts| == 2 && parts[0] == localId {
        if verbose {
          trace := trace + [OwnMessageIgnored(localId)];
        }
        return;
      }
      var message := if |parts| == 2 then parts[1] else raw;
      if consumerCallback.Some? {
        trace := trace + [Accepted(consumerCallback.value, message)];
      }
      if runnableCallback.Some? {
        trace := trace + [Ran(runnableCallback.value)];
      }
    }

    /** onMessageReceived for each payload in turn, as the listener's callback. */
    method DispatchEach(raws: seq<string>)
      modifies this`trace
      ensures trace == old(trace) + DispatchAll(localId, verbose, consumerCallback, runnableCallback, raws)
    {
      var consumer, runnable := consumerCallback, runnableCallback;
      ghost var before := trace;
      var i := 0;
      while i < |raws|
        invariant 0 <= i <= |raws|
        invariant consumerCallback == consumer && runnableCallback == runnable
        invariant trace == before + DispatchAll(localId, verbose, consumer, runnable, raws[..i])
      {
        ghost var t := trace;
        OnMessageReceived(raws[i]);
        DispatchAllStep(localId, verbose, consumer, runnable, raws, i, before, t, trace);
        i := i + 1;
      }
      assert raws[..i] == raws;
    }

    /**
     * The background task started in the constructor, with this instance's
     * onMessageReceived as its callback: every payload the listener delivers
     * goes through the self filter, in delivery order.
     */
    method RunListener(subscribeOk: bool, schedule: seq<Pg.Tick>) returns (r: Pg.ListenerRun)
      requires pg.hasListenThread
      modifies this`trace, pg`effects
      ensures old(pg.conn) == Pg.Open && subscribeOk ==> r == Pg.Listener(schedule)
      ensures !(old(pg.conn) == Pg.Open && subscribeOk) ==> r == Pg.ListenerRun([], 0, Pg.Died)
      ensures trace == old(trace) + DispatchAll(localId, verbose, consumerCallback, runnableCallback, r.delivered)
      ensures pg.effects == old(pg.effects)
                            + (if old(pg.conn) == Pg.Open && subscribeOk then [Pg.Executed("LISTEN " + pg.listenChannel)] else [])
                            + (if r.exit == Pg.Died then [Pg.StackTracePrinted] else [])
    {
      r := pg.ListenTask(subscribeOk, schedule);
      DispatchEach(r.delivered);
    }

    /** setUpdateCallback(Runnable): replaces the runnable callback only. */
    method SetRunnableCallback(callback: Option<CallbackId>)
      modifies this`runnableCallback
      ensures runnableCallback == callback && consumerCallback == old(consumerCallback)
    {
      runnableCallback := callback;
    }

    /** setUpdateCallback(Consumer<String>): replaces the string callback only. */
    method SetConsumerCallback(callback: Option<CallbackId>)
      modifies this`consumerCallback
      ensures consumerCallback == callback && runnableCallback == old(runnableCallback)
    {
      consumerCallback := callback;
    }

    /** sendMessage: `accepted` is whether the server runs the NOTIFY. */
    method SendMessage(methodName: string, params: map<string, Messages.Value>, accepted: bool)
      requires Valid()
      modifies this`trace, pg`effects
      ensures Valid()
      ensures var r := Send(localId, channel, toJson, Messages.Envelope(methodName, params),
                            pg.conn == Pg.Open, accepted);
              pg.effects == old(pg.effects) + r.effects && trace == old(trace) + r.log
    {
      var messageMap: map<string, Messages.Value> := map[];
      messageMap := messageMap["method" := Messages.Str(methodName)];
      messageMap := messageMap["params" := Messages.Obj(params)];
      assert Messages.Obj(messageMap) == Messages.Envelope(methodName, params);
      var jsonMessage := toJson(Messages.Obj(messageMap));
      match jsonMessage
      case None =>
        trace := trace + [SerializationFailed];
      case Some(json) =>
        var fullMessage := localId + "::" + json;
        var o := pg.Notify(channel, fullMessage, accepted);
        if o.Fail? {
          trace := trace + [SendFailed];
        }
    }

    /** What sending the message of `change` does, for the ensures of the operations. */
    ghost predicate Sent(change: Messages.PolicyChange, accepted: bool, oldEffects: seq<Pg.Effect>, oldTrace: seq<Event>)
      reads this, pg
    {
      var r := Send(localId, channel, toJson, Messages.MessageOf(change), pg.conn == Pg.Open, accepted);
      pg.effects == oldEffects + r.effects && trace == oldTrace + r.log
    }

    method Update(accepted: bool)
      requires Valid()
      modifies this`trace, pg`effects
      ensures Valid() && Sent(Messages.Reload, accepted, old(pg.effects), old(trace))
    {
      SendMessage("update", map[], accepted);
    }

    method UpdateForAddPolicy(sec: string, ptype: string, params: seq<string>, accepted: bool)
      requires Valid()
      modifies this`trace, pg`effects
      ensures Valid() && Sent(Messages.AddPolicy(sec, ptype, params), accepted, old(pg.effects), old(trace))
    {
      var msg: map<string, Messages.Value> := map[];
      msg := msg["sec" := Messages.Str(sec)];
      msg := msg["ptype" := Messages.Str(ptype)];
      msg := msg["params" := Messages.StrArray(params)];
      assert msg == Messages.Params(Messages.AddPolicy(sec, ptype, params));
      SendMessage("updateForAddPolicy", msg, accepted);
    }

    method UpdateForRemovePolicy(sec: string, ptype: string, params: seq<string>, accepted: bool)
      requires Valid()
      modifies this`trace, pg`effects
      ensures Valid() && Sent(Messages.RemovePolicy(sec, ptype, params), accepted, old(pg.effects), old(trace))
    {
      var msg: map<string, Messages.Value> := map[];
      msg := msg["sec" := Messages.Str(sec)];
      msg := msg["ptype" := Messages.Str(ptype)];
      msg := msg["params" := Messages.StrArray(params)];
      assert msg == Messages.Params(Messages.RemovePolicy(sec, ptype, params));
      SendMessage("updateForRemovePolicy", msg, accepted);
    }

    method UpdateForRemoveFilteredPolicy(sec: string, ptype: string, fieldIndex: Messages.Int32,
                                         fieldValues: seq<string>, accepted: bool)
      requires Valid()
      modifies this`trace, pg`effects
      ensures Valid()
      ensures Sent(Messages.RemoveFilteredPolicy(sec, ptype, fieldIndex, fieldValues), accepted, old(pg.effects), old(trace))
    {
      var msg: map<string, Messages.Value> := map[];
      msg := msg["sec" := Messages.Str(sec)];
      msg := msg["ptype" := Messages.Str(ptype)];
      msg := msg["fieldIndex" := Messages.Int(fieldIndex)];
      msg := msg["fieldValues" := Messages.StrArray(fieldValues)];
      assert msg == Messages.Params(Messages.RemoveFilteredPolicy(sec, ptype, fieldIndex, fieldValues));
      SendMessage("updateForRemoveFilteredPolicy", msg, accepted);
    }

    /** The policy model argument is ignored: receivers reload everything. */
    method UpdateForSavePolicy(accepted: bool)
      requires Valid()
      modifies this`trace, pg`effects
      ensures Valid() && Sent(Messages.SavePolicy, accepted, old(pg.effects), old(trace))
    {
      SendMessage("updateForSavePolicy", map[], accepted);
    }

    method UpdateForAddPolicies(sec: string, ptype: string, rules: seq<seq<string>>, accepted: bool)
      requires Valid()
      modifies this`trace, pg`effects
      ensures Valid() && Sent(Messages.AddPolicies(sec, ptype, rules), accepted, old(pg.effects), old(trace))
    {
      var msg: map<string, Messages.Value> := map[];
      msg := msg["sec" := Messages.Str(sec)];
      msg := msg["ptype" := Messages.Str(ptype)];
      msg := msg["rules" := Messages.RuleList(rules)];
      assert msg == Messages.Params(Messages.AddPolicies(sec, ptype, rules));
      SendMessage("updateForAddPolicies", msg, accepted);
    }

    method UpdateForRemovePolicies(sec: string, ptype: string, rules: seq<seq<string>>, accepted: bool)
      requires Valid()
      modifies this`trace, pg`effects
      ensures Valid() && Sent(Messages.RemovePolicies(sec, ptype, rules), accepted, old(pg.effects), old(trace))
    {
      var msg: map<string, Messages.Value> := map[];
      msg := msg["sec" := Messages.Str(sec)];
      msg := msg["ptype" := Messages.Str(ptype)];
      msg := msg["rules" := Messages.RuleList(rules)];
      assert msg == Messages.Params(Messages.RemovePolicies(sec, ptype, rules));
      SendMessage("updateForRemovePolicies", msg, accepted);
    }

    /** close: stops the listener and closes the connection; never throws. */
    method Close(joinInterrupted: bool, closeFails: bool)
      requires Valid()
      modifies pg
      ensures Valid() && !pg.running
      ensures pg.conn == Pg.Closed || pg.conn == old(pg.conn)
    {
      pg.Close(joinInterrupted, closeFails);
    }
  }

  /** createDefaultConfig: a fresh config with only the channel set. */
  method CreateDefaultConfig(channel: string, random: seq<Uuid.Byte>) returns (config: Config.WatcherConfig)
    requires |random| == 16
    ensures fresh(config)
    ensures config.GetChannel() == channel && !config.IsVerbose()
    ensures config.GetLocalId() == Uuid.RandomUuidString(random)
  {
    config := new Config.WatcherConfig(random);
    config.SetChannel(channel);
  }

  /**
   * The constructor taking a config: create the PostgresWatcher, connect
   * (`connectOk` is whether the driver connects; a failure is thrown to the
   * caller and no watcher exists), copy the settings, start listening.
   */
  method Open(url: string, user: string, password: string, config: Config.WatcherConfig,
              toJson: Messages.Value -> Option<string>, connectOk: bool)
    returns (r: Result<JCasbinPostgresWatcher, Pg.SqlError>)
    ensures r.Success? <==> connectOk
    ensures r.Success? ==>
              var w := r.value;
              && fresh(w) && fresh(w.pg) && w.Valid()
              && w.pg.url == url && w.pg.user == user && w.pg.password == password
              && w.channel == config.GetChannel() && w.localId == config.GetLocalId()
              && w.verbose == config.IsVerbose() && w.toJson == toJson
              && w.pg.running && w.pg.hasListenThread && w.pg.listenChannel == w.channel
              && w.pg.conn == Pg.Open && w.pg.effects == []
              && w.runnableCallback.None? && w.consumerCallback.None? && w.trace == []
  {
    var pg := new Pg.PostgresWatcher(url, user, password);
    var o := pg.Connect(connectOk);
    if o.Fail? {
      return Failure(o.error);
    }
    var w := new JCasbinPostgresWatcher(pg, config, toJson);
    pg.Listen(w.channel);
    r := Success(w);
  }

  /** The constructor taking a channel name: a default config with that channel. */
  method OpenOnChannel(url: string, user: string, password: string, channel: string,
                       toJson: Messages.Value -> Option<string>, random: seq<Uuid.Byte>, connectOk: bool)
    returns (r: Result<JCasbinPostgresWatcher, Pg.SqlError>)
    requires |random| == 16
    ensures r.Success? <==> connectOk
    ensures r.Success? ==>
              var w := r.value;
              && fresh(w) && fresh(w.pg) && w.Valid()
              && w.pg.url == url && w.pg.user == user && w.pg.password == password
              && w.channel == channel && !w.verbose && w.toJson == toJson
              && w.localId == Uuid.RandomUuidString(random)
              && Codec.SafeId(w.localId)
              && w.pg.running && w.pg.hasListenThread && w.pg.listenChannel == channel
              && w.pg.conn == Pg.Open && w.pg.effects == []
              && w.runnableCallback.None? && w.consumerCallback.None? && w.trace == []
  {
    var config := CreateDefaultConfig(channel, random);
    r := Open(url, user, password, config, toJson, connectOk);
    Config.DefaultLocalIdIsSafe(random);
  }
}
