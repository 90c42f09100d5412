/** The state machine above Raft: commands folded into a map, and what replaying a log over a map that is
    already durable does to it. */
module KeyValue {
  import opened Types
  import opened Steps
  import opened Clusters
  import opened Safety

  /** raft.Command; kinds 0, 1 and 2 are put, delete and no-op. */
  datatype Command = Command(kind: int, key: string, value: Bytes, requestId: int)

  const PUT := 0
  const DELETE := 1
  const NOOP := 2

  type KV = map<string, Bytes>

  /** Decoding is a pure function of the bytes; which one is left open. */
  type Decoder = Bytes -> Option<Command>

  datatype OpError = NilCommand | UnknownCommandType | ServerClosed

  datatype ReadResult = NotTheLeader | NotYetApplied | KeyMissing | KeyFound(value: Bytes)

  /** applyCommand: the new map and the error, if any. */
  function ApplyCommand(kv: KV, c: Command): (KV, Option<OpError>) {
    if c.kind == PUT then (kv[c.key := c.value], None)
    else if c.kind == DELETE then (kv - {c.key}, None)
    else if c.kind == NOOP then (kv, None)
    else (kv, Some(UnknownCommandType))
  }

  /** What one command does: only puts and deletes change the map, and only at their key; nothing but an unknown
      kind is an error, and it changes nothing. */
  lemma CommandEffect(kv: KV, c: Command, key: string)
    ensures var (kv', err) := ApplyCommand(kv, c);
            && (err == None <==> 0 <= c.kind <= 2) && (err != None ==> err == Some(UnknownCommandType) && kv' == kv)
            && (c.kind == 0 && key == c.key ==> key in kv' && kv'[key] == c.value)
            && (c.kind == 1 && key == c.key ==> key !in kv')
            && (c.kind == 2 ==> kv' == kv)
            && (key != c.key ==> (key in kv' <==> key in kv) && (key in kv ==> kv'[key] == kv[key]))
  {
  }

  /** The command of an entry: none when the entry is empty or does not decode. */
  function CommandOf(decode: Decoder, msg: ApplyMsg): Option<Command> {
    if |msg.command| > 0 then decode(msg.command) else None
  }

  function ApplyOne(decode: Decoder, kv: KV, msg: ApplyMsg): KV {
    match CommandOf(decode, msg)
    case None => kv
    case Some(c) => ApplyCommand(kv, c).0
  }

  /** The map after a stream of messages. */
  function Fold(decode: Decoder, kv: KV, stream: seq<ApplyMsg>): KV
    decreases |stream|
  {
    if |stream| == 0 then kv else Fold(decode, ApplyOne(decode, kv, stream[0]), stream[1..])
  }

  /** The map after several incarnations, each of which starts its stream from the beginning again while the
      map itself is durable. */
  function FoldAll(decode: Decoder, kv: KV, streams: seq<seq<ApplyMsg>>): KV {
    if |streams| == 0 then kv else Fold(decode, FoldAll(decode, kv, streams[..|streams| - 1]), streams[|streams| - 1])
  }

  /** All messages of several incarnations, one after the other. */
  function Joined(streams: seq<seq<ApplyMsg>>): seq<ApplyMsg> {
    if |streams| == 0 then [] else Joined(streams[..|streams| - 1]) + streams[|streams| - 1]
  }

  lemma {:induction false} FoldJoins(decode: Decoder, kv: KV, a: seq<ApplyMsg>, b: seq<ApplyMsg>)
    ensures Fold(decode, kv, a + b) == Fold(decode, Fold(decode, kv, a), b)
    decreases |a|
  {
    if |a| == 0 {
      assert a + b == b;
    } else {
      assert (a + b)[1..] == a[1..] + b;
      FoldJoins(decode, ApplyOne(decode, kv, a[0]), a[1..], b);
    }
  }

  /** The durable map is the fold of every message ever received, repeated ones included. */
  lemma {:induction false} FoldAllIsFold(decode: Decoder, kv: KV, streams: seq<seq<ApplyMsg>>)
    ensures FoldAll(decode, kv, streams) == Fold(decode, kv, Joined(streams))
  {
    if |streams| > 0 {
      FoldAllIsFold(decode, kv, streams[..|streams| - 1]);
      FoldJoins(decode, kv, Joined(streams[..|streams| - 1]), streams[|streams| - 1]);
    }
  }

  /** The keys that a message writes or deletes. */
  function Touches(decode: Decoder, msg: ApplyMsg): set<string> {
    match CommandOf(decode, msg)
    case None => {}
    case Some(c) => if c.kind == PUT || c.kind == DELETE then {c.key} else {}
  }

  function Touched(decode: Decoder, stream: seq<ApplyMsg>): set<string> {
    if |stream| == 0 then {} else Touches(decode, stream[0]) + Touched(decode, stream[1..])
  }

  /** The maps hold the same outside the given keys. */
  ghost predicate SameOutside(a: KV, b: KV, keys: set<string>) {
    forall k :: k !in keys ==> (k in a <==> k in b) && (k in a ==> a[k] == b[k])
  }

  /** The command in the message, if it puts or deletes the key. */
  function WriteTo(decode: Decoder, msg: ApplyMsg, key: string): Option<Command> {
    if |msg.command| == 0 then None
    else
      match decode(msg.command)
      case None => None
      case Some(c) => if (c.kind == PUT || c.kind == DELETE) && c.key == key then Some(c) else None
  }

  /** The last command of the stream that writes or deletes the key. */
  function LastWrite(decode: Decoder, stream: seq<ApplyMsg>, key: string): Option<Command> {
    if |stream| == 0 then None
    else
      var last := WriteTo(decode, stream[|stream| - 1], key);
      if last.Some? then last else LastWrite(decode, stream[..|stream| - 1], key)
  }

  lemma {:induction false} FoldNext(decode: Decoder, kv: KV, stream: seq<ApplyMsg>)
    requires |stream| > 0
    ensures Fold(decode, kv, stream) ==
            ApplyOne(decode, Fold(decode, kv, stream[..|stream| - 1]), stream[|stream| - 1])
    decreases |stream|
  {
    if |stream| > 1 {
      FoldNext(decode, ApplyOne(decode, kv, stream[0]), stream[1..]);
      assert stream[1..][..|stream| - 2] == stream[..|stream| - 1][1..];
    }
  }

  /** The last write wins: the map holds a key's last put, lacks it if that was a delete, and keeps what it
      had if there was neither. */
  lemma {:induction false} LastWriteWins(decode: Decoder, kv: KV, stream: seq<ApplyMsg>, key: string)
    ensures var kv' := Fold(decode, kv, stream);
            match LastWrite(decode, stream, key)
            case None => (key in kv' <==> key in kv) && (key in kv ==> kv'[key] == kv[key])
            case Some(c) => c.key == key && (key in kv' <==> c.kind == PUT) && (c.kind == PUT ==> kv'[key] == c.value)
  {
    if |stream| > 0 {
      FoldNext(decode, kv, stream);
      LastWriteWins(decode, kv, stream[..|stream| - 1], key);
    }
  }

  /** Two maps that differ only in keys the stream touches are made equal by it. */
  lemma {:induction false} FoldForgets(decode: Decoder, a: KV, b: KV, stream: seq<ApplyMsg>)
    requires SameOutside(a, b, Touched(decode, stream))
    ensures Fold(decode, a, stream) == Fold(decode, b, stream)
    decreases |stream|
  {
    if |stream| == 0 {
      assert a.Keys == b.Keys by {
        assert forall k :: k in a <==> k in b;
      }
      assert a == b;
    } else {
      var a', b' := ApplyOne(decode, a, stream[0]), ApplyOne(decode, b, stream[0]);
      assert SameOutside(a', b', Touched(decode, stream[1..]));
      FoldForgets(decode, a', b', stream[1..]);
    }
  }

  /** A stream adds no keys but those it touches. */
  lemma {:induction false} FoldKeys(decode: Decoder, kv: KV, stream: seq<ApplyMsg>)
    ensures Fold(decode, kv, stream).Keys <= kv.Keys + Touched(decode, stream)
    decreases |stream|
  {
    if |stream| > 0 {
      FoldKeys(decode, ApplyOne(decode, kv, stream[0]), stream[1..]);
    }
  }

  lemma {:induction false} TouchedPrefix(decode: Decoder, a: seq<ApplyMsg>, b: seq<ApplyMsg>)
    requires a <= b
    ensures Touched(decode, a) <= Touched(decode, b)
  {
    if |a| > 0 {
      TouchedPrefix(decode, a[1..], b[1..]);
    }
  }

  lemma {:induction false} FoldAllKeys(decode: Decoder, streams: seq<seq<ApplyMsg>>, longest: seq<ApplyMsg>)
    requires forall j :: 0 <= j < |streams| ==> streams[j] <= longest
    ensures FoldAll(decode, map[], streams).Keys <= Touched(decode, longest)
  {
    if |streams| > 0 {
      var before := streams[..|streams| - 1];
      FoldAllKeys(decode, before, longest);
      FoldKeys(decode, FoldAll(decode, map[], before), streams[|streams| - 1]);
      TouchedPrefix(decode, streams[|streams| - 1], longest);
    }
  }

  /** Restart replay converges: whatever earlier incarnations left in the durable map, one that has applied
      at least as much as each of them holds exactly the map obtained from empty. */
  lemma ReplayConverges(decode: Decoder, earlier: seq<seq<ApplyMsg>>, stream: seq<ApplyMsg>)
    requires forall j :: 0 <= j < |earlier| ==> earlier[j] <= stream
    ensures FoldAll(decode, map[], earlier + [stream]) == Fold(decode, map[], stream)
  {
    var durable := FoldAll(decode, map[], earlier);
    FoldAllKeys(decode, earlier, stream);
    assert (earlier + [stream])[..|earlier + [stream]| - 1] == earlier;
    assert SameOutside(durable, map[], Touched(decode, stream));
    FoldForgets(decode, durable, map[], stream);
  }

  // ------------------------------------------------------------------ replicas

  /** What node p's state machine has received since it last booted. */
  function Received(s: Cluster, p: Id): seq<ApplyMsg>
    requires p in s.nodes
  {
    ReceivedBy(s.nodes[p])
  }

  function Earlier(s: Cluster, p: Id): seq<seq<ApplyMsg>> {
    if p in s.h.past then s.h.past[p] else []
  }

  /** The durable map of node p. */
  function Store(decode: Decoder, s: Cluster, p: Id): KV
    requires p in s.nodes
  {
    FoldAll(decode, map[], Earlier(s, p) + [Received(s, p)])
  }

  /** Node p has received at least as much as in any earlier incarnation. */
  ghost predicate Recovered(s: Cluster, p: Id)
    requires p in s.nodes
  {
    forall j :: 0 <= j < |Earlier(s, p)| ==> |Earlier(s, p)[j]| <= |Received(s, p)|
  }

  /** Once recovered, a replica's map depends on nothing but the messages received since its last boot. */
  lemma RecoveredStore(decode: Decoder, run: seq<Cluster>, i: nat, p: Id)
    requires IsRun(run) && i < |run| && p in run[i].nodes
    requires Recovered(run[i], p)
    ensures Store(decode, run[i], p) == Fold(decode, map[], Received(run[i], p))
  {
    hide IsRun, Fold, FoldAll;
    var s := run[i];
    forall j | 0 <= j < |Earlier(s, p)|
      ensures Earlier(s, p)[j] <= Received(s, p)
    {
      assert IsStream(s, p, Earlier(s, p)[j]);
      assert IsStream(s, p, s.nodes[p].emitted);
      ApplyStreamsAgree(run, i, i, p, p, Earlier(s, p)[j], s.nodes[p].emitted);
    }
    ReplayConverges(decode, Earlier(s, p), Received(s, p));
  }

  /** Replicas that have received equally many messages since they booted, each at least as many as ever
      before, hold equal maps, at whatever times of the run they are looked at. */
  lemma ReplicasConverge(decode: Decoder, run: seq<Cluster>, i: nat, j: nat, p: Id, q: Id)
    requires IsRun(run) && i < |run| && j < |run|
    requires p in run[i].nodes && q in run[j].nodes
    requires Recovered(run[i], p) && Recovered(run[j], q)
    requires |Received(run[i], p)| == |Received(run[j], q)|
    ensures Store(decode, run[i], p) == Store(decode, run[j], q)
  {
    hide IsRun, Fold, FoldAll, Recovered, Store;
    RecoveredStore(decode, run, i, p);
    RecoveredStore(decode, run, j, q);
    ApplyStreamsAgree(run, i, j, p, q, run[i].nodes[p].emitted, run[j].nodes[q].emitted);
    assert Received(run[i], p) == Received(run[j], q);
  }
}
