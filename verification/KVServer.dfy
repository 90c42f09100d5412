/** internal/server/kv_server.go: the server that applies commands and answers the clients waiting for them. */
module Server {
  import opened Types
  import opened KeyValue

  datatype OpResult = OpResult(err: Option<OpError>)

  /** raft.ApplyMsg as it comes over the channel, with its two flags. */
  datatype Delivery = Delivery(commandValid: bool, snapshotValid: bool, msg: ApplyMsg)

  /** The committed entries among what came over the channel. */
  function CommandsIn(ds: seq<Delivery>): seq<ApplyMsg> {
    if |ds| == 0 then []
    else (if ds[0].commandValid && !ds[0].snapshotValid then [ds[0].msg] else []) + CommandsIn(ds[1..])
  }

  lemma FoldOneMore(decode: Decoder, kv: KV, ds: seq<Delivery>, k: nat)
    requires k < |ds|
    ensures CommandsIn(ds[k..]) == CommandsIn([ds[k]]) + CommandsIn(ds[k + 1..])
    ensures Fold(decode, kv, CommandsIn(ds[k..])) ==
            Fold(decode, if ds[k].commandValid && !ds[k].snapshotValid then ApplyOne(decode, kv, ds[k].msg) else kv,
                 CommandsIn(ds[k + 1..]))
  {
    var rest := CommandsIn(ds[k + 1..]);
    assert ds[k..][1..] == ds[k + 1..];
    assert CommandsIn([ds[k]][1..]) == [];
    if ds[k].commandValid && !ds[k].snapshotValid {
      assert CommandsIn(ds[k..]) == [ds[k].msg] + rest;
      assert ([ds[k].msg] + rest)[1..] == rest;
    } else {
      assert CommandsIn(ds[k..]) == rest;
    }
  }

  lemma FoldNone(decode: Decoder, kv: KV, ds: seq<Delivery>)
    ensures CommandsIn(ds[|ds|..]) == [] && Fold(decode, kv, CommandsIn(ds[|ds|..])) == kv
  {
  }

  /** The message decodes to a command with request ID r. */
  predicate Carries(decode: Decoder, msg: ApplyMsg, r: int) {
    var c := CommandOf(decode, msg);
    c.Some? && c.value.requestId == r
  }

  predicate NoCarrier(decode: Decoder, msgs: seq<ApplyMsg>, from: int, to: int, r: int) {
    0 <= from <= to <= |msgs| && forall k :: from <= k < to ==> !Carries(decode, msgs[k], r)
  }

  /** Of the messages from position `from` on, the one at k is the first that carries r. */
  predicate FirstCarrier(decode: Decoder, msgs: seq<ApplyMsg>, from: int, k: int, r: int) {
    NoCarrier(decode, msgs, from, k, r) && k < |msgs| && Carries(decode, msgs[k], r)
  }

  /** One more message changes nothing about the carriers among the earlier ones. */
  lemma CarriersKept(decode: Decoder, msgs: seq<ApplyMsg>, msg: ApplyMsg, from: int, r: int)
    ensures NoCarrier(decode, msgs, from, |msgs|, r) && !Carries(decode, msg, r) ==>
              NoCarrier(decode, msgs + [msg], from, |msgs| + 1, r)
    ensures NoCarrier(decode, msgs, from, |msgs|, r) && Carries(decode, msg, r) ==>
              FirstCarrier(decode, msgs + [msg], from, |msgs|, r)
    ensures forall k :: FirstCarrier(decode, msgs, from, k, r) ==> FirstCarrier(decode, msgs + [msg], from, k, r)
  {
  }

  class KVServer {
    const decode: Decoder
    /** The durable key-value data. */
    var data: KV
    /** The request IDs with a registered result channel. */
    var pendingOps: set<int>
    /** The buffer of each result channel ever made; it holds at most one result. */
    var channels: map<int, Option<OpResult>>
    var nextRequestID: int

    /** The command registered under each request ID of this incarnation. */
    ghost var registered: map<int, Command>
    /** How many messages had been handled when it was registered. */
    ghost var registeredAt: map<int, nat>
    /** Every committed entry handled by this incarnation, in order. */
    ghost var handled: seq<ApplyMsg>
    /** Which of them took the channel of a request ID from the table. */
    ghost var takenBy: map<int, nat>
    /** The requests that were cancelled, or closed by Stop, while they were pending. */
    ghost var givenUp: set<int>

    ghost predicate Valid()
      reads this
    {
      && 0 <= nextRequestID
      && registered.Keys == channels.Keys == registeredAt.Keys
      && pendingOps <= channels.Keys && takenBy.Keys <= channels.Keys && givenUp <= channels.Keys
      && forall r :: r in channels ==> RequestOk(r)
    }

    /** A request is pending, with an empty channel and no carrier handled since its registration; or one
        message took its channel; or it was cancelled, or closed by Stop. */
    ghost predicate RequestOk(r: int)
      reads this
      requires r in channels && registered.Keys == channels.Keys == registeredAt.Keys
    {
      && 1 <= r <= nextRequestID && registered[r].requestId == r
      && (r in pendingOps ==>
            channels[r] == None && r !in takenBy && NoCarrier(decode, handled, registeredAt[r], |handled|, r))
      && (r in takenBy ==> Taken(r))
      && (r in givenUp <==> r !in pendingOps && r !in takenBy)
      && (r !in takenBy ==> channels[r] == None || channels[r] == Some(Closed()))
    }

    static function Closed(): OpResult {
      OpResult(Some(ServerClosed))
    }

    /** The three known kinds succeed. */
    static function ResultOf(c: Command): OpResult {
      OpResult(if 0 <= c.kind <= 2 then None else Some(UnknownCommandType))
    }

    /** The message that took r is the first one handled since the registration that carries r, and its result
        is what the channel received. */
    ghost predicate Taken(r: int)
      reads this
      requires r in takenBy && r in channels && r in registeredAt
    {
      && FirstCarrier(decode, handled, registeredAt[r], takenBy[r], r)
      && channels[r] == Some(ResultOf(CommandOf(decode, handled[takenBy[r]]).value))
    }

    constructor (durable: KV, decoder: Decoder)
      ensures Valid() && decode == decoder && data == durable
      ensures pendingOps == {} && handled == [] && nextRequestID == 0 && registered == map[] && channels == map[] && givenUp == {}
    {
      decode := decoder;
      data := durable;
      pendingOps, channels, nextRequestID := {}, map[], 0;
      registered, registeredAt, handled, takenBy, givenUp := map[], map[], [], map[], {};
    }

    /** The first half of propose: the channel is registered before the command can reach the log. */
    method Register(c: Command) returns (tagged: Command)
      requires Valid()
      modifies this`pendingOps, this`channels, this`nextRequestID, this`registered, this`registeredAt
      ensures Valid()
      ensures tagged == c.(requestId := nextRequestID) && nextRequestID == old(nextRequestID) + 1
      ensures pendingOps == old(pendingOps) + {nextRequestID}
      ensures registered == old(registered)[nextRequestID := tagged]
      ensures registeredAt == old(registeredAt)[nextRequestID := |handled|]
      ensures nextRequestID !in old(channels) && channels == old(channels)[nextRequestID := None]
    {
      nextRequestID := nextRequestID + 1;
      tagged := c.(requestId := nextRequestID);
      channels := channels[nextRequestID := None];
      pendingOps := pendingOps + {nextRequestID};
      registered := registered[nextRequestID := tagged];
      registeredAt := registeredAt[nextRequestID := |handled|];
    }

    /** Giving up on a request: a failed proposal, a timeout or a cancelled context. */
    method Cancel(requestID: int)
      requires Valid()
      modifies this`pendingOps, this`givenUp
      ensures Valid()
      ensures pendingOps == old(pendingOps) - {requestID}
      ensures givenUp == old(givenUp) + old(pendingOps) * {requestID}
    {
      givenUp := givenUp + pendingOps * {requestID};
      pendingOps := pendingOps - {requestID};
    }

    method DoCommand(c: Command) returns (result: OpResult)
      modifies this`data
      ensures data == ApplyCommand(old(data), c).0
      ensures result == ResultOf(c)
    {
      if c.kind == PUT {
        data := data[c.key := c.value];
        return OpResult(None);
      } else if c.kind == DELETE {
        data := data - {c.key};
        return OpResult(None);
      } else if c.kind == NOOP {
        return OpResult(None);
      }
      return OpResult(Some(UnknownCommandType));
    }

    /** The table, the channels and the record of messages, after msg was handled in the given state. */
    ghost predicate Notified(pending: set<int>, chans: map<int, Option<OpResult>>, before: seq<ApplyMsg>, taken: map<int, nat>, msg: ApplyMsg)
      reads this
    {
      && handled == before + [msg]
      && match CommandOf(decode, msg)
         case None => pendingOps == pending && channels == chans && takenBy == taken
         case Some(c) =>
           && pendingOps == pending - {c.requestId}
           && channels == (if c.requestId in pending then chans[c.requestId := Some(ResultOf(c))] else chans)
           && takenBy == (if c.requestId in pending then taken[c.requestId := |before|] else taken)
    }

    /** handleApplyMsg: a snapshot, or a message without a command, changes nothing. A command moves the data,
        and the channel of its request, if still in the table, is taken out of it and receives the result. */
    method HandleApplyMsg(d: Delivery)
      requires Valid()
      modifies this`data, this`pendingOps, this`channels, this`handled, this`takenBy
      ensures Valid()
      ensures d.snapshotValid || !d.commandValid ==> unchanged(this)
      ensures handled == old(handled) + CommandsIn([d])
      ensures !d.snapshotValid && d.commandValid ==>
                && data == ApplyOne(decode, old(data), d.msg)
                && Notified(old(pendingOps), old(channels), old(handled), old(takenBy), d.msg)
    {
      if d.snapshotValid {
        return;
      }
      if !d.commandValid {
        return;
      }
      var command := if |d.msg.command| > 0 then decode(d.msg.command) else None;
      if command.Some? {
        var result := DoCommand(command.value);
        Notify(d.msg, command.value.requestId, result);
      } else {
        handled := handled + [d.msg];
      }
    }

    /** Hands the result to the channel of the request, if still registered. */
    method Notify(ghost msg: ApplyMsg, requestID: int, result: OpResult)
      requires Valid()
      requires CommandOf(decode, msg).Some? && CommandOf(decode, msg).value.requestId == requestID
      requires result == ResultOf(CommandOf(decode, msg).value)
      modifies this`pendingOps, this`channels, this`handled, this`takenBy
      ensures Valid()
      ensures Notified(old(pendingOps), old(channels), old(handled), old(takenBy), msg)
    {
      hide ApplyCommand, CommandOf, NoCarrier;
      ghost var before := handled;
      handled := handled + [msg];
      if requestID != 0 && requestID in pendingOps {
        pendingOps := pendingOps - {requestID};
        takenBy := takenBy[requestID := |handled| - 1];
        channels := channels[requestID := Some(result)];
      }
      forall r | r in channels
        ensures RequestOk(r)
      {
        assert old(RequestOk(r));
        CarriersKept(decode, before, msg, registeredAt[r], r);
      }
    }

    /** applyLoop: messages are handled in the order in which they come, so that the data is their fold. */
    method ApplyAll(ds: seq<Delivery>)
      requires Valid()
      modifies this`data, this`pendingOps, this`channels, this`handled, this`takenBy
      ensures Valid()
      ensures data == Fold(decode, old(data), CommandsIn(ds))
      ensures handled == old(handled) + CommandsIn(ds)
    {
      hide Notified, RequestOk, Fold, CommandsIn, ApplyOne;
      var k := 0;
      assert ds[0..] == ds;
      while k < |ds|
        invariant 0 <= k <= |ds|
        invariant Valid()
        invariant Fold(decode, data, CommandsIn(ds[k..])) == Fold(decode, old(data), CommandsIn(ds))
        invariant handled + CommandsIn(ds[k..]) == old(handled) + CommandsIn(ds)
      {
        FoldOneMore(decode, data, ds, k);
        HandleApplyMsg(ds[k]);
        k := k + 1;
      }
      FoldNone(decode, data, ds);
    }

    /** Stop: every pending channel gets an error and the table is emptied. */
    method Stop()
      requires Valid()
      modifies this`pendingOps, this`channels, this`givenUp
      ensures Valid()
      ensures pendingOps == {} && givenUp == old(givenUp) + old(pendingOps)
      ensures channels.Keys == old(channels).Keys
      ensures forall r :: r in channels ==>
                channels[r] == if r in old(pendingOps) then Some(Closed()) else old(channels)[r]
    {
      var rest := pendingOps;
      while rest != {}
        invariant rest <= pendingOps == old(pendingOps) && givenUp == old(givenUp)
        invariant channels.Keys == old(channels).Keys
        invariant forall r :: r in channels ==>
                    channels[r] == if r in old(pendingOps) && r !in rest then Some(Closed()) else old(channels)[r]
        decreases rest
      {
        var r := Pick(rest);
        channels := channels[r := Some(Closed())];
        rest := rest - {r};
      }
      givenUp := givenUp + pendingOps;
      pendingOps := {};
    }

    /** The last half of propose: what the waiting client gets once its channel has a result. A nil error
        means that the first message since the registration that carries this request ID was applied; and unless
        the request was given up, that message's result is what the client gets. */
    method Receive(requestID: int) returns (result: Option<OpResult>)
      requires Valid()
      requires requestID in registered
      ensures result == channels[requestID]
      ensures result == Some(OpResult(None)) ==>
                exists k :: && FirstCarrier(decode, handled, registeredAt[requestID], k, requestID)
                            && ResultOf(CommandOf(decode, handled[k]).value) == OpResult(None)
      ensures requestID !in givenUp ==>
                forall k :: FirstCarrier(decode, handled, registeredAt[requestID], k, requestID) ==>
                  result == Some(ResultOf(CommandOf(decode, handled[k]).value))
      ensures requestID in pendingOps ==> result == None
    {
      hide CommandOf;
      result := channels[requestID];
      assert RequestOk(requestID);
      if result == Some(OpResult(None)) {
        assert requestID in takenBy && Taken(requestID);
      }
    }

    /** Get: what Raft says about leadership and progress is given. The guard applies to linearizable reads only. */
    method Get(key: string, linearizable: bool, leads: bool, commitIndex: int, lastApplied: int) returns (result: ReadResult)
      ensures result == NotTheLeader <==> linearizable && !leads
      ensures result == NotYetApplied <==> linearizable && leads && lastApplied < commitIndex
      ensures !linearizable || (leads && lastApplied >= commitIndex) ==>
                result == if key in data then KeyFound(data[key]) else KeyMissing
    {
      if linearizable {
        if !leads {
          return NotTheLeader;
        }
        if lastApplied < commitIndex {
          return NotYetApplied;
        }
      }
      if key !in data {
        return KeyMissing;
      }
      return KeyFound(data[key]);
    }
  }

  /** A nil error need not mean that the client's own command was applied: another server, or this one before
      it restarted, may have logged a different command under the same request ID. */
  method ForeignCommandAcknowledged(decode: Decoder, mine: Command, foreign: Command, bytes: Bytes, index: int, term: int)
    returns (result: Option<OpResult>, kv: KVServer)
    requires |bytes| > 0 && decode(bytes) == Some(foreign)
    requires foreign.requestId == 1 && foreign.kind == PUT && foreign != mine.(requestId := 1)
    ensures result == Some(OpResult(None))
    ensures kv.decode == decode && 1 in kv.registered && kv.registered[1] == mine.(requestId := 1)
    ensures forall k :: 0 <= k < |kv.handled| ==> CommandOf(decode, kv.handled[k]) != Some(kv.registered[1])
  {
    kv := new KVServer(map[], decode);
    var tagged := kv.Register(mine);
    kv.HandleApplyMsg(Delivery(true, false, ApplyMsg(bytes, index, term)));
    result := kv.Receive(1);
  }
}
