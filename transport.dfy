/**
 * The radio transport the demo drives (openant's Node and Channel), kept
 * abstract: every operation only appends a record of itself to the node's
 * trace, so that the order of the calls the demo makes can be stated and proved.
 */
module Transport {
  import opened Encoder

  /** The channel type the demo asks for (a master that transmits). */
  datatype ChannelType = BidirectionalTransmit

  /** One call made to the transport. */
  datatype Call =
    | SetNetworkKey(network: nat, key: seq<Byte>)
    | NewChannel(kind: ChannelType, network: nat, extendedAssignment: nat)
    | SetId(deviceNumber: nat, deviceType: nat, transmissionType: nat)
    | SetPeriod(period: nat)
    | SetRfFreq(frequency: nat)
    | RegisterTxCallback
    | Open
    | Start
    | SendBroadcastData(data: seq<Byte>)
    | Close
    | Stop

  /** A radio node: the owner of the channels and of the run loop. */
  class Node {
    /** Every call made to this node or to one of its channels, oldest first. */
    var trace: seq<Call>

    constructor ()
      ensures trace == []
    {
      trace := [];
    }

    method SetNetworkKey(network: nat, key: seq<Byte>)
      modifies this
      ensures trace == old(trace) + [Call.SetNetworkKey(network, key)]
    {
      trace := trace + [Call.SetNetworkKey(network, key)];
    }

    method NewChannel(kind: ChannelType, network: nat, extendedAssignment: nat) returns (channel: Channel)
      modifies this
      ensures fresh(channel) && channel.node == this
      ensures trace == old(trace) + [Call.NewChannel(kind, network, extendedAssignment)]
    {
      channel := new Channel(this);
      trace := trace + [Call.NewChannel(kind, network, extendedAssignment)];
    }

    /** Enters the run loop; the ticks it delivers are driven by the caller. */
    method Start()
      modifies this
      ensures trace == old(trace) + [Call.Start]
    {
      trace := trace + [Call.Start];
    }

    method Stop()
      modifies this
      ensures trace == old(trace) + [Call.Stop]
    {
      trace := trace + [Call.Stop];
    }
  }

  /** A channel of a node; its calls are recorded in the node's trace. */
  class Channel {
    const node: Node

    constructor (node: Node)
      ensures this.node == node
    {
      this.node := node;
    }

    method SetId(deviceNumber: nat, deviceType: nat, transmissionType: nat)
      modifies node
      ensures node.trace == old(node.trace) + [Call.SetId(deviceNumber, deviceType, transmissionType)]
    {
      node.trace := node.trace + [Call.SetId(deviceNumber, deviceType, transmissionType)];
    }

    method SetPeriod(period: nat)
      modifies node
      ensures node.trace == old(node.trace) + [Call.SetPeriod(period)]
    {
      node.trace := node.trace + [Call.SetPeriod(period)];
    }

    method SetRfFreq(frequency: nat)
      modifies node
      ensures node.trace == old(node.trace) + [Call.SetRfFreq(frequency)]
    {
      node.trace := node.trace + [Call.SetRfFreq(frequency)];
    }

    /** Installs the per-tick transmit callback (the on_broadcast_tx_data attribute). */
    method RegisterTxCallback()
      modifies node
      ensures node.trace == old(node.trace) + [Call.RegisterTxCallback]
    {
      node.trace := node.trace + [Call.RegisterTxCallback];
    }

    method Open()
      modifies node
      ensures node.trace == old(node.trace) + [Call.Open]
    {
      node.trace := node.trace + [Call.Open];
    }

    /** Broadcasts one page; the transport reads the buffer's contents at the call. */
    method SendBroadcastData(data: seq<Byte>)
      modifies node
      ensures node.trace == old(node.trace) + [Call.SendBroadcastData(data)]
    {
      node.trace := node.trace + [Call.SendBroadcastData(data)];
    }

    method Close()
      modifies node
      ensures node.trace == old(node.trace) + [Call.Close]
    {
      node.trace := node.trace + [Call.Close];
    }
  }

  /** How many times `c` occurs in the trace `t`. */
  function Count(t: seq<Call>, c: Call): (n: nat) {
    if t == [] then 0
    else (if t[0] == c then 1 else 0) + Count(t[1..], c)
  }

  /** A call that does not occur in a trace is counted there zero times, and conversely. */
  lemma {:induction false} CountZero(t: seq<Call>, c: Call)
    ensures Count(t, c) == 0 <==> c !in t
  {
    if t != [] {
      CountZero(t[1..], c);
      assert t == [t[0]] + t[1..];
    }
  }

  lemma {:induction false} CountAppend(a: seq<Call>, b: seq<Call>, c: Call)
    ensures Count(a + b, c) == Count(a, c) + Count(b, c)
  {
    if a == [] {
      assert a + b == b;
    } else {
      assert (a + b)[1..] == a[1..] + b;
      CountAppend(a[1..], b, c);
    }
  }

  /** A call that is not repeated around it occurs exactly once. */
  lemma CountOnce(a: seq<Call>, c: Call, b: seq<Call>)
    requires c !in a && c !in b
    ensures Count(a + [c] + b, c) == 1
  {
    CountAppend(a + [c], b, c);
    CountAppend(a, [c], c);
    CountZero(a, c);
    CountZero(b, c);
  }

  /** The payloads broadcast in the trace `t`, in the order they were sent. */
  function SentPayloads(t: seq<Call>): (sent: seq<seq<Byte>>)
    ensures |sent| <= |t|
  {
    if t == [] then []
    else (if t[0].SendBroadcastData? then [t[0].data] else []) + SentPayloads(t[1..])
  }

  lemma {:induction false} SentPayloadsAppend(a: seq<Call>, b: seq<Call>)
    ensures SentPayloads(a + b) == SentPayloads(a) + SentPayloads(b)
  {
    if a == [] {
      assert a + b == b;
    } else {
      var head := if a[0].SendBroadcastData? then [a[0].data] else [];
      calc {
        SentPayloads(a + b);
        head + SentPayloads((a + b)[1..]);
        { assert (a + b)[1..] == a[1..] + b; }
        head + SentPayloads(a[1..] + b);
        { SentPayloadsAppend(a[1..], b); }
        head + (SentPayloads(a[1..]) + SentPayloads(b));
        head + SentPayloads(a[1..]) + SentPayloads(b);
      }
    }
  }

  /** A trace with no broadcast in it sent nothing. */
  lemma {:induction false} SentPayloadsNone(t: seq<Call>)
    requires forall i :: 0 <= i < |t| ==> !t[i].SendBroadcastData?
    ensures SentPayloads(t) == []
  {
    if t != [] {
      SentPayloadsNone(t[1..]);
    }
  }
}
