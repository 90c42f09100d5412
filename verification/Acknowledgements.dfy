/** What an acknowledgement says about the log: the server's table seen together with a run of the cluster. */
module Acknowledgements {
  import opened Types
  import opened Steps
  import opened Histories
  import opened Clusters
  import opened Invariant
  import opened Safety
  import opened KeyValue
  import opened Server

  /** In step i of the run, Propose accepts the command at node p and returns this index and term. */
  ghost predicate ProposedAt(run: seq<Cluster>, i: nat, p: Id, command: Bytes, index: int, term: int) {
    && i < |run| - 1 && p in run[i].nodes
    && NextBy(run[i], Proposal(p, command), run[i + 1])
    && Propose(run[i].nodes[p], command).1 == Proposed(index, term)
  }

  /** The message received for an index is the entry that the log holds there. */
  lemma ReceivedFromLog(s: Cluster, p: Id, k: int)
    requires Inv(s) && p in s.nodes && 0 <= k < |Received(s, p)|
    ensures k < |s.nodes[p].log| && Received(s, p)[k] == ToApply(s.nodes[p].log[k])
    ensures Received(s, p)[k].index == k + 1
  {
    hide HistoryOk, NetOk;
    assert NodeOk(s.ids, s.h, s.nodes[p]);
    assert EntryIn(s.h, s.nodes[p].log, k);
  }

  lemma ReceivedWithinLog(s: Cluster, p: Id)
    requires Inv(s) && p in s.nodes
    ensures |Received(s, p)| <= |s.nodes[p].log|
  {
    if |Received(s, p)| > 0 {
      ReceivedFromLog(s, p, |Received(s, p)| - 1);
    }
  }

  /** A message with the index and term that Propose returned is the proposed command. */
  lemma ReceivedIsProposal(run: seq<Cluster>, i: nat, j: nat, p: Id, command: Bytes, index: int, term: int, q: Id)
    requires IsRun(run) && j < |run| && ProposedAt(run, i, p, command, index, term)
    requires q in run[j].nodes && 1 <= index <= |Received(run[j], q)| && Received(run[j], q)[index - 1].term == term
    ensures Received(run[j], q)[index - 1] == ApplyMsg(command, index, term)
  {
    hide IsRun, Inv, NextBy;
    RunOk(run, j);
    ReceivedFromLog(run[j], q, index - 1);
    ProposalIdentified(run, i, j, p, command, q, index, term);
  }

  /** Whose apply acknowledges a request: the server of node p had handled `from` messages when it registered
      request r, and p proposed it no sooner than that. Then the message that takes r's channel is the
      proposed entry exactly if that entry was received at its place and no message before it, since the
      registration, carries r. */
  lemma AcknowledgedByProposal(decode: Decoder, run: seq<Cluster>, i: nat, j: nat, p: Id, command: Bytes,
                               index: int, term: int, r: int, from: nat, k: int)
    requires IsRun(run) && j < |run| && ProposedAt(run, i, p, command, index, term)
    requires p in run[j].nodes && from <= |Received(run[i], p)|
    requires Carries(decode, ApplyMsg(command, index, term), r)
    requires FirstCarrier(decode, Received(run[j], p), from, k, r)
    ensures Received(run[j], p)[k] == ApplyMsg(command, index, term) <==>
            && index <= |Received(run[j], p)| && Received(run[j], p)[index - 1].term == term
            && NoCarrier(decode, Received(run[j], p), from, index - 1, r)
  {
    hide IsRun, Inv, CommandOf;
    RunOk(run, i);
    RunOk(run, j);
    ReceivedWithinLog(run[i], p);
    ReceivedFromLog(run[j], p, k);
    var got := Received(run[j], p);
    if index <= |got| && got[index - 1].term == term {
      ReceivedIsProposal(run, i, j, p, command, index, term, p);
    }
  }

  /** No entry of the log carries r, but the one at this index and term. */
  ghost predicate OnlyCarrier(decode: Decoder, log: Log, r: int, index: int, term: int) {
    forall x :: 0 <= x < |log| && Carries(decode, ToApply(log[x]), r) ==> x + 1 == index && log[x].term == term
  }

  /** Of the messages received from a log with a single carrier, it is the first carrier wherever one starts. */
  lemma SoleCarrier(decode: Decoder, s: Cluster, p: Id, r: int, index: int, term: int, from: int)
    requires Inv(s) && p in s.nodes && OnlyCarrier(decode, s.nodes[p].log, r, index, term)
    ensures forall k :: FirstCarrier(decode, Received(s, p), from, k, r) ==> k + 1 == index && Received(s, p)[k].term == term
    ensures 0 <= from < index <= |Received(s, p)| && Carries(decode, Received(s, p)[index - 1], r) ==>
              FirstCarrier(decode, Received(s, p), from, index - 1, r)
  {
    hide Inv, CommandOf;
    forall k | 0 <= k < |Received(s, p)| && Carries(decode, Received(s, p)[k], r)
      ensures k + 1 == index && Received(s, p)[k].term == term
    {
      ReceivedFromLog(s, p, k);
    }
  }

  /** What propose returns, with request IDs unique in the log. The server of node p registered request r and p
      then proposed it, at this index and term. A nil result means that the very entry that was proposed has been
      applied, after the request was registered. And once that entry is applied, a client that has not given up
      gets nil if the command is of a known kind, and the error otherwise. */
  method Acknowledge(kv: KVServer, r: int, ghost c: Command, ghost run: seq<Cluster>, ghost i: nat, ghost j: nat, ghost p: Id,
                     ghost command: Bytes, ghost index: int, ghost term: int)
    returns (result: Option<OpResult>)
    requires kv.Valid() && r in kv.registered
    requires IsRun(run) && j < |run| && ProposedAt(run, i, p, command, index, term)
    requires CommandOf(kv.decode, ApplyMsg(command, index, term)) == Some(c) && c.requestId == r
    requires p in run[j].nodes && kv.handled == Received(run[j], p) && kv.registeredAt[r] <= |Received(run[i], p)|
    requires OnlyCarrier(kv.decode, run[j].nodes[p].log, r, index, term)
    ensures result == kv.channels[r]
    ensures result == Some(OpResult(None)) ==>
              && kv.registeredAt[r] < index <= |kv.handled|
              && kv.handled[index - 1] == ApplyMsg(command, index, term)
    ensures r !in kv.givenUp && ApplyMsg(command, index, term) in kv.handled ==>
              result == Some(OpResult(if 0 <= c.kind <= 2 then None else Some(UnknownCommandType)))
  {
    hide IsRun, Inv, CommandOf, NextBy;
    result := kv.Receive(r);
    RunOk(run, i);
    RunOk(run, j);
    ReceivedWithinLog(run[i], p);
    SoleCarrier(kv.decode, run[j], p, r, index, term, kv.registeredAt[r]);
    if result == Some(OpResult(None)) {
      ghost var k :| FirstCarrier(kv.decode, kv.handled, kv.registeredAt[r], k, r)
                     && KVServer.ResultOf(CommandOf(kv.decode, kv.handled[k]).value) == OpResult(None);
      ReceivedIsProposal(run, i, j, p, command, index, term, p);
    }
    ghost var msg := ApplyMsg(command, index, term);
    if msg in kv.handled {
      ghost var k :| 0 <= k < |kv.handled| && kv.handled[k] == msg;
      ReceivedFromLog(run[j], p, k);
      assert FirstCarrier(kv.decode, kv.handled, kv.registeredAt[r], k, r);
    }
  }
}
