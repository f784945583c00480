/**
 * The broadcasting device of the demo (main.py, class AntSendDemo): a message
 * counter and the 8-byte payload buffer it overwrites in place on every
 * transmit tick, the tick handler that builds and sends one page, and the
 * channel lifecycle that configures, opens and runs the transport.
 */
module Demo {
  import opened Wrappers
  import opened Encoder
  import opened Transport
  import opened Lifecycle

  /** Why building a page raised: the fetch failed, so the weather label was never bound. */
  datatype PageError = WeatherUnbound

  class AntSendDemo {
    /** The number of pages requested so far (ANTMessageCount). */
    var messageCount: nat
    /** The payload buffer (ANTMessagePayload); the same buffer is rewritten on every page. */
    const payload: array<Byte>
    /** The transport node and channel, set by OpenChannel. */
    var node: Node?
    var channel: Channel?

    /** The buffer holds eight bytes whose six reserved ones are zero, and the channel belongs to the node. */
    ghost predicate Valid()
      reads this, payload
    {
      && payload.Length == 8
      && (forall i :: 0 <= i < 6 ==> payload[i] == 0)
      && (channel != null ==> channel.node == node)
    }

    /** A new device: no page built yet and an all-zero payload. */
    constructor ()
      ensures Valid() && fresh(payload)
      ensures messageCount == 0 && payload[..] == [0, 0, 0, 0, 0, 0, 0, 0]
      ensures node == null && channel == null
    {
      messageCount := 0;
      payload := new Byte[8](_ => 0);
      node := null;
      channel := null;
    }

    /**
     * Builds the next data page in the payload buffer from the fetched weather
     * and returns that buffer. The counter is incremented first, so it also
     * counts a page whose fetch failed; that page raises before any byte of
     * the buffer is written.
     */
    method CreateNextDataPage(fetched: Option<WeatherSnapshot>) returns (r: Result<array<Byte>, PageError>)
      requires Valid()
      requires fetched.Some? ==> ValidSnapshot(fetched.value)
      modifies this`messageCount, payload
      ensures Valid()
      ensures messageCount == old(messageCount) + 1
      // The reserved bytes are never disturbed, whichever way the call ends.
      ensures payload[..6] == old(payload[..6])
      ensures fetched.None? ==> r == Err(WeatherUnbound) && payload[..] == old(payload[..])
      ensures fetched.Some? ==> r == Ok(payload) && payload[..] == DataPage(fetched.value)
    {
      messageCount := messageCount + 1;
      if fetched.None? {
        return Err(WeatherUnbound);
      }
      var snapshot := fetched.value;
      var code := ConditionCode(snapshot.weather);
      var temperature := ToUnsignedByte(snapshot.temperature);
      payload[0] := 0;
      payload[1] := 0;
      payload[2] := 0;
      payload[3] := 0;
      payload[4] := 0;
      payload[5] := 0;
      payload[6] := temperature;
      payload[7] := code;
      r := Ok(payload);
    }

    /**
     * A page request cut short by the keyboard interrupt while the weather
     * fetch blocks: the counter has already gone up, and no byte of the
     * buffer is written.
     */
    method InterruptedDataPage()
      requires Valid()
      modifies this`messageCount
      ensures Valid()
      ensures messageCount == old(messageCount) + 1
    {
      messageCount := messageCount + 1;
    }

    /** One transmit tick: build a page, then broadcast the payload buffer once. */
    method OnEventTx(fetched: Option<WeatherSnapshot>) returns (r: Result<(), PageError>)
      requires Valid() && channel != null
      requires fetched.Some? ==> ValidSnapshot(fetched.value)
      modifies this`messageCount, payload, node
      ensures Valid()
      ensures messageCount == old(messageCount) + 1
      ensures fetched.Some? ==>
                && r.Ok?
                && payload[..] == DataPage(fetched.value)
                && node.trace == old(node.trace) + [SendBroadcastData(DataPage(fetched.value))]
      ensures fetched.None? ==>
                && r == Err(WeatherUnbound)
                && payload[..] == old(payload[..])
                && node.trace == old(node.trace)
    {
      var page := CreateNextDataPage(fetched);
      if page.Err? {
        return Err(page.error);
      }
      channel.SendBroadcastData(payload[..]);
      r := Ok(());
    }

    /**
     * The ticks of the running node: the tick handler runs once per reading in
     * `ticks`, in order, each time with a fetch that succeeded.
     */
    method RunTicks(ticks: seq<WeatherSnapshot>)
      requires Valid() && channel != null && ValidSnapshots(ticks)
      modifies this`messageCount, payload, node
      ensures Valid()
      ensures node.trace == old(node.trace) + Broadcasts(DataPages(ticks))
      ensures messageCount == old(messageCount) + |ticks|
      ensures payload[..] == if ticks == [] then old(payload[..]) else DataPage(ticks[|ticks| - 1])
    {
      var i := 0;
      while i < |ticks|
        invariant 0 <= i <= |ticks|
        invariant Valid()
        invariant node.trace == old(node.trace) + Broadcasts(DataPages(ticks[..i]))
        invariant messageCount == old(messageCount) + i
        invariant payload[..] == if i == 0 then old(payload[..]) else DataPage(ticks[i - 1])
      {
        var _ := OnEventTx(Some(ticks[i]));
        BroadcastsOfPrefix(old(node.trace), ticks, i);
        i := i + 1;
      }
      assert ticks[..i] == ticks;
    }

    /**
     * The channel configuration of OpenChannel: network key, a new transmit
     * channel, its identity, period and frequency, then the tick handler.
     */
    static method ConfigureChannel(n: Node) returns (ch: Channel)
      requires n.trace == []
      modifies n
      ensures fresh(ch) && ch.node == n
      ensures n.trace == ConfigurationCalls()
    {
      n.SetNetworkKey(0, NetworkKey);
      ch := n.NewChannel(BidirectionalTransmit, 0, 0);
      ch.SetId(DeviceNumber, DeviceType, 1);
      ch.SetPeriod(ChannelPeriod);
      ch.SetRfFreq(ChannelFrequency);
      ch.RegisterTxCallback();
    }

    /**
     * Opens the channel and runs it: configure the node and channel, register
     * the tick handler, open, start the run loop, and on an interrupt close the
     * channel, then stop the node.
     */
    method OpenChannel(ticks: seq<WeatherSnapshot>, intr: Interruption)
      requires Valid() && ValidSnapshots(ticks)
      modifies this, payload
      ensures Valid() && fresh(node) && fresh(channel)
      ensures node != null && node.trace == LifecycleTrace(DataPages(ticks), intr)
      ensures messageCount == old(messageCount) + TicksStarted(|ticks|, intr)
      ensures payload[..] == if intr.InterruptDuringOpen? || ticks == [] then old(payload[..])
                             else DataPage(ticks[|ticks| - 1])
    {
      var n := new Node();
      node := n;
      var ch := ConfigureChannel(n);
      channel := ch;
      ch.Open();
      if intr.InterruptDuringOpen? {
        ch.Close();
        n.Stop();
        return;
      }
      n.Start();
      RunTicks(ticks);
      if intr.InterruptDuringTick? {
        InterruptedDataPage();
      }
      if Interrupted(intr) {
        ch.Close();
        n.Stop();
      }
    }
  }

  /** A run of the demo: a new device whose channel is opened and run over `ticks`. */
  method BroadcastSession(ticks: seq<WeatherSnapshot>, intr: Interruption) returns (demo: AntSendDemo)
    requires ValidSnapshots(ticks)
    ensures fresh(demo) && demo.Valid() && demo.node != null
    ensures demo.messageCount == TicksStarted(|ticks|, intr)
    ensures demo.node.trace == LifecycleTrace(DataPages(ticks), intr)
  {
    demo := new AntSendDemo();
    demo.OpenChannel(ticks, intr);
  }
}
