# ANT+ weather broadcast demo, modelled in Dafny

The demo (`main.py`) makes an ANT+ node act as a transmitting device. Each
transmit tick it builds one 8-byte data page from the current weather and
broadcasts it. The page holds six reserved zero bytes, then the temperature
in whole degrees Celsius as a two's-complement byte, then a weather-condition
code from 0 to 10. The class `AntSendDemo` keeps a message counter and an
8-byte payload buffer that every tick overwrites in place.

The model has five modules:

- `Wrappers` (`wrappers.dfy`): the `Option` and `Result` types.
- `Encoder` (`encoder.dfy`), pure. It covers:
  - the condition-label table;
  - the signed-to-unsigned byte reinterpretation that the source does with a
    `ctypes.Union`, and its inverse;
  - the data page as a function of one weather reading;
  - a receiver-side decoder, used as the page's partner.
- `Transport` (`transport.dfy`): openant's `Node` and `Channel`, kept
  abstract. Each call appends a record of itself to the node's `trace`.
  The module also counts calls and lists broadcast payloads in a trace.
- `Lifecycle` (`lifecycle.dfy`): the channel constants and `LifecycleTrace`.
  `LifecycleTrace` is the exact call sequence of one `OpenChannel`.
  The module's lemmas give the order and number of those calls.
- `Demo` (`ant_send_demo.dfy`): the class `AntSendDemo` with its counter, its
  payload `array` and its methods. Each method is proved against the
  `Encoder` and `Lifecycle` functions.

The weather fetch is an input of type `Option<WeatherSnapshot>`.
`None` stands for the fetch returning `None`. In that case the source
increments the counter (line 41), then fails at `match weather` (line 54)
because `weather` was never bound. The model returns `Err(WeatherUnbound)`
after the increment. It writes no byte and sends nothing. No fallback reading
is made up.

The blocking run loop that `node.start()` enters is modelled inside
`OpenChannel`. After `Start`, the tick handler runs once per reading in
`ticks`. A keyboard interrupt (`Interruption`) can arrive at three points
inside the `try` of main.py:134-140:
- while the channel opens;
- while the loop waits between ticks;
- inside a tick, while its weather fetch blocks, after that tick has already
  incremented the counter.

In each case the handler at main.py:137-140 closes the channel, then stops
the node. An interrupt during the configuration (main.py:118-132) is outside
that `try`, so only `main()` catches it (main.py:189). That path is not
modelled; see "Left out".

## Model

| member | source | states |
|---|---|---|
| Encoder.ConditionCode | main.py:52-74 | The code is at most 10. It is 0 exactly when the label is not one of the ten known labels. Otherwise the code `k` names `Labels[k-1]`, so Clear→1, Few Clouds→2, …, Mist→9, Clouds→10. |
| Encoder.ConditionLabel | main.py:52-74 | The inverse of the table: it names a label exactly for codes 1..10, and that label encodes back to the same code. |
| Encoder.ConditionLabelRoundTrip | main.py:52-74 | Decoding the code of a label gives back that label if it is known, and nothing otherwise. |
| Encoder.ConditionCodeInjective | main.py:52-74 | Two known labels get the same code if and only if they are the same label. |
| Encoder.ToUnsignedByte | main.py:78-84 | The unsigned byte shares the signed byte's low eight bits. It is below 128 exactly when the temperature is not negative. |
| Encoder.ToSignedByte | main.py:78-84 | The receiver's reverse reinterpretation lands in -128..127, keeps the low eight bits and keeps the sign. |
| Encoder.SignedRoundTrip | main.py:78-84 | Reading byte 6 back as signed gives the temperature exactly. |
| Encoder.UnsignedRoundTrip | main.py:78-84 | Every byte value is the conversion of its own signed reading, so no byte value is unreachable. |
| Encoder.UnsignedByteIsLowBits | main.py:78-84 | The conversion equals the temperature modulo 256: -1 becomes 255 and 20 stays 20. |
| Encoder.UnsignedByteInjective | main.py:78-84 | Two temperatures give the same byte if and only if they are equal. |
| Encoder.DataPage | main.py:85-92 | A page has 8 bytes. Bytes 0-5 are zero. Byte 6 decodes to the temperature. Byte 7 is the condition code, at most 10. |
| Encoder.DataPages | main.py:98-104 | A run of readings gives one page per reading. |
| Encoder.DataPagesAt | main.py:98-104 | Page `i` of a run is the page of reading `i`. |
| Encoder.DecodeDataPage | main.py:85-92 | A receiver accepts exactly the 8-byte pages with zero reserved bytes and a code of at most 10. It returns the signed temperature and the code. |
| Encoder.DecodeDataPageRoundTrip | main.py:78-92 | Decoding the page of a reading gives back its temperature and its label's code. |
| Encoder.DataPageOfDecoded | main.py:85-92 | Every page the receiver accepts is exactly the encoding of what it decodes to. |
| Encoder.RainBelowZeroPage | main.py:65-66 | Rain at -1 °C encodes as `[0,0,0,0,0,0,255,6]`. |
| Encoder.ClearWarmPage | main.py:55-56 | Clear at 20 °C encodes as `[0,0,0,0,0,0,20,1]`. |
| Encoder.UnknownLabelPage | main.py:52-54 | An unknown label at 0 °C encodes as the all-zero page. |
| Transport.Node.constructor | main.py:118 | A new node has made no call. |
| Transport.Node.SetNetworkKey | main.py:121 | Appends exactly one network-key call to the trace. |
| Transport.Node.NewChannel | main.py:122-124 | Returns a new channel of this node and appends exactly one channel-creation call. |
| Transport.Channel.SetId | main.py:125-127 | Appends exactly one channel-id call. |
| Transport.Channel.SetPeriod | main.py:128 | Appends exactly one period call. |
| Transport.Channel.SetRfFreq | main.py:129 | Appends exactly one frequency call. |
| Transport.Channel.RegisterTxCallback | main.py:132 | Appends exactly one record of the tick handler being installed. |
| Transport.Channel.Open | main.py:135 | Appends exactly one open call. |
| Transport.Node.Start | main.py:136 | Appends exactly one start call. |
| Transport.Channel.SendBroadcastData | main.py:102-104 | Appends exactly one broadcast of the given bytes. |
| Transport.Channel.Close | main.py:139 | Appends exactly one close call. |
| Transport.Node.Stop | main.py:140 | Appends exactly one stop call. |
| Lifecycle.ConfigurationCalls | main.py:121-132 | The configuration is six calls long. |
| Lifecycle.Broadcasts | main.py:98-104 | A run makes one broadcast per tick. |
| Lifecycle.BroadcastAt | main.py:98-104 | The `i`-th broadcast of a run sends the `i`-th page. |
| Lifecycle.OnlySendsInBroadcasts | main.py:98-104 | A tick makes no transport call other than the broadcast. |
| Lifecycle.LifecyclePhases | main.py:116-142 | The trace is the configuration and open, then the run, then the interrupt cleanup. |
| Lifecycle.BroadcastsOfPrefix | main.py:98-104 | Each extra tick appends its own page's broadcast at the end of the trace. |
| Lifecycle.LifecycleOrder | main.py:116-142 | The trace length, the six configuration calls in source order, and open at position 6. On an interrupt the last two calls are close, then stop. |
| Lifecycle.LifecycleRunOrder | main.py:134-136 | Unless the interrupt came while opening, start comes right after open. Then page `k` is broadcast at position `8+k`. |
| Lifecycle.RegisterAndOpenOnce | main.py:132-135 | The tick handler is registered once and the channel is opened once. |
| Lifecycle.StartOnce | main.py:135-137 | Start is called once, or never when the interrupt came while opening. |
| Lifecycle.CloseAndStopOnce | main.py:137-140 | Close and stop are each called exactly once on an interrupt, and never otherwise. |
| Lifecycle.SentPayloadsOfBroadcasts | main.py:98-104 | The payloads a run broadcasts are exactly its pages, in order. |
| Lifecycle.LifecycleSends | main.py:116-142 | The whole channel lifecycle broadcasts exactly the run's pages, each once and in order. It broadcasts nothing if the interrupt came while opening. |
| Lifecycle.CounterMatchesSends | main.py:39-140 | The number of page requests equals the number of pages broadcast. The one exception is an interrupt inside a tick: that request is counted and never sent. |
| Demo.AntSendDemo.constructor | main.py:31-34 | A new device has counter 0 and payload `[0,0,0,0,0,0,0,0]`. |
| Demo.AntSendDemo.CreateNextDataPage | main.py:39-95 | The counter goes up by one on every call, even one whose fetch failed. Bytes 0-5 stay zero. On a reading, the buffer is overwritten in place with that reading's `DataPage` and the buffer itself is returned. On a failed fetch the call fails with `WeatherUnbound` and leaves the buffer untouched. |
| Demo.AntSendDemo.InterruptedDataPage | main.py:41-43 | A page request cut short while the fetch blocks still counts: the counter goes up by one and the buffer is left as it was. |
| Demo.AntSendDemo.OnEventTx | main.py:98-104 | Builds one page, then broadcasts the buffer's contents once. When building fails, nothing is sent. |
| Demo.AntSendDemo.RunTicks | main.py:98-104 | After the ticks of a run, the trace has gained one broadcast per reading in order and the counter has gone up by the number of ticks. The buffer holds the last page. |
| Demo.AntSendDemo.ConfigureChannel | main.py:118-132 | A fresh node's trace becomes exactly the configuration calls, and the channel belongs to that node. |
| Demo.AntSendDemo.OpenChannel | main.py:116-142 | The node's trace is exactly `LifecycleTrace` of the run's pages. The counter goes up by `TicksStarted`: one per completed tick, plus one for a tick the interrupt cut short, and nothing if the interrupt came while opening. The buffer holds the last completed page. |
| Demo.BroadcastSession | main.py:185-188 | A new device whose channel is opened and run. Its counter equals `TicksStarted` for the run and its trace is the lifecycle trace. |

## Left out

- `get_calgary_weather` (main.py:146-176) is not modelled, because it does an HTTP request and floating-point Kelvin-to-Celsius rounding. Its result is an input of type `Option<WeatherSnapshot>`.
- The `time.time()` timestamps (main.py:36-37, 100) and every `print` and `format_list` line are left out. They change no state that the model observes.
- openant's internals (the USB driver, message framing, the event loop thread) are not part of this model. `Node` and `Channel` only record the calls the demo makes, in order.
- Encoder.ToUnsignedByte: requires the temperature to lie in -128..127. Outside that range `ctypes.c_byte` silently keeps the low eight bits, and the model does not cover that wrap-around.
- Encoder.DataPage: requires a temperature in -128..127, for the same reason.
- Demo.AntSendDemo.CreateNextDataPage: the guard `self.ANTMessageCount != None` (main.py:76) is always true, so the model writes the payload without testing it.
- Demo.AntSendDemo.RunTicks: only ticks whose fetch succeeded are modelled. A failed fetch inside the run loop raises out of the tick handler into openant's loop, and what openant then does is not part of this model. The failure of a single tick is modelled by `OnEventTx`.
- Demo.AntSendDemo.OpenChannel: close and stop are assumed to succeed. If close raised, the source would skip stop, and that path is not modelled.
- Demo.AntSendDemo.OpenChannel: an interrupt during the configuration calls (main.py:118-132) is not modelled. It escapes `OpenChannel` without close or stop and is caught by `main()` (main.py:189).
- Demo.AntSendDemo.OpenChannel: an interrupt inside a tick is modelled only while the fetch blocks (main.py:43). An interrupt between the byte writes of main.py:85-92, which would leave a page half old and half new, or during the send, is not modelled.
- Transport.Channel.SendBroadcastData: the transport is assumed to read the buffer during the call, so the trace records a copy of its contents. The source passes the list itself (main.py:102-104). If openant kept that list, the next tick's in-place writes (main.py:85-92) would change what it sends.
- Installing the tick handler is an attribute assignment (main.py:132). The model records it as a `RegisterTxCallback` call so that its place in the order can be stated.
- `main()` after the session (main.py:189-208: its own interrupt handler, logging shutdown, the extra weather test) is left out. Only the device construction and `OpenChannel` (main.py:185-188) are modelled.
- A fetch failure has no fallback reading and no retry, because the source has none.
- An interrupt that escapes `close()` or `stop()` is not modelled; the source has no best-effort cleanup either.
