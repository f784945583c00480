/**
 * The channel lifecycle of the demo (main.py, OpenChannel and the run loop it
 * starts): the calls the demo makes to the transport, as one trace, and the
 * order and multiplicity of those calls.
 */
module Lifecycle {
  import opened Encoder
  import opened Transport

  /** The channel configuration constants of the demo. */
  const NetworkKey: seq<Byte> := [0, 0, 0, 0, 0, 0, 0, 0]
  const DeviceType: nat := 123
  const DeviceNumber: nat := 12345
  const ChannelPeriod: nat := 8134
  const ChannelFrequency: nat := 57

  /** Where the keyboard interrupt, if any, reaches the demo. */
  datatype Interruption =
    | NoInterrupt          // the run loop returns on its own
    | InterruptDuringOpen  // raised while the channel is being opened
    | InterruptDuringRun   // raised while the run loop waits between ticks
    | InterruptDuringTick  // raised inside a tick, while its weather fetch blocks

  predicate Interrupted(intr: Interruption) {
    !intr.NoInterrupt?
  }

  /**
   * How many page requests the tick handler starts in a run of `ticks`
   * readings: none if the interrupt came while opening, one more than the
   * completed ticks if it came inside a tick.
   */
  function TicksStarted(ticks: nat, intr: Interruption): nat {
    match intr
    case InterruptDuringOpen => 0
    case InterruptDuringTick => ticks + 1
    case _ => ticks
  }

  /** The configuration calls, in the order the demo makes them, up to the callback registration. */
  function ConfigurationCalls(): (calls: seq<Call>)
    ensures |calls| == 6
  {
    [ Call.SetNetworkKey(0, NetworkKey),
      Call.NewChannel(BidirectionalTransmit, 0, 0),
      Call.SetId(DeviceNumber, DeviceType, 1),
      Call.SetPeriod(ChannelPeriod),
      Call.SetRfFreq(ChannelFrequency),
      Call.RegisterTxCallback ]
  }

  /** The broadcasts of a run: one send per page, in the order the pages were built. */
  function Broadcasts(pages: seq<seq<Byte>>): (calls: seq<Call>)
    ensures |calls| == |pages|
  {
    if pages == [] then []
    else Broadcasts(pages[..|pages| - 1]) + [SendBroadcastData(pages[|pages| - 1])]
  }

  /** The broadcast of page `i` sends that page. */
  lemma {:induction false} BroadcastAt(pages: seq<seq<Byte>>, i: nat)
    requires i < |pages|
    ensures Broadcasts(pages)[i] == SendBroadcastData(pages[i])
  {
    var n := |pages| - 1;
    if i < n {
      BroadcastAt(pages[..n], i);
    }
  }

  /** A broadcast run holds no call but sends. */
  lemma OnlySendsInBroadcasts(pages: seq<seq<Byte>>, c: Call)
    requires !c.SendBroadcastData?
    ensures c !in Broadcasts(pages)
  {
    if c in Broadcasts(pages) {
      var i :| 0 <= i < |pages| && Broadcasts(pages)[i] == c;
      BroadcastAt(pages, i);
    }
  }

  /** The run phase: nothing if the interrupt came while opening, else start and one broadcast per page. */
  function RunCalls(pages: seq<seq<Byte>>, intr: Interruption): (calls: seq<Call>) {
    if intr.InterruptDuringOpen? then [] else [Call.Start] + Broadcasts(pages)
  }

  /** The cleanup of the interrupt handler: close, then stop. */
  function Shutdown(intr: Interruption): (calls: seq<Call>) {
    if Interrupted(intr) then [Call.Close, Call.Stop] else []
  }

  /**
   * The whole trace of one OpenChannel whose run loop builds `pages`:
   * configuration, open, then (unless the interrupt comes while opening) start
   * and one broadcast per page, and on an interrupt close followed by stop.
   */
  function LifecycleTrace(pages: seq<seq<Byte>>, intr: Interruption): (trace: seq<Call>) {
    var prologue := ConfigurationCalls() + [Call.Open];
    match intr
    case InterruptDuringOpen => prologue + [Call.Close] + [Call.Stop]
    case InterruptDuringRun | InterruptDuringTick => prologue + [Call.Start] + Broadcasts(pages) + [Call.Close] + [Call.Stop]
    case NoInterrupt => prologue + [Call.Start] + Broadcasts(pages)
  }

  /** The trace in three phases: the configuration and open, the run, the cleanup. */
  lemma LifecyclePhases(pages: seq<seq<Byte>>, intr: Interruption)
    ensures LifecycleTrace(pages, intr)
         == ConfigurationCalls() + [Call.Open] + RunCalls(pages, intr) + Shutdown(intr)
  {
    var prologue, b := ConfigurationCalls() + [Call.Open], Broadcasts(pages);
    match intr
    case InterruptDuringOpen =>
      assert prologue + [Call.Close] + [Call.Stop] == prologue + [] + [Call.Close, Call.Stop];
    case InterruptDuringRun | InterruptDuringTick =>
      assert prologue + [Call.Start] + b + [Call.Close] + [Call.Stop]
          == prologue + ([Call.Start] + b) + [Call.Close, Call.Stop];
    case NoInterrupt =>
      assert prologue + [Call.Start] + b == prologue + ([Call.Start] + b) + [];
  }

  /**
   * One more reading adds its page's broadcast at the end of whatever trace
   * `before` preceded the run.
   */
  lemma BroadcastsOfPrefix(before: seq<Call>, ticks: seq<WeatherSnapshot>, i: nat)
    requires ValidSnapshots(ticks) && i < |ticks|
    ensures ValidSnapshots(ticks[..i]) && ValidSnapshots(ticks[..i + 1])
    ensures before + Broadcasts(DataPages(ticks[..i + 1]))
         == before + Broadcasts(DataPages(ticks[..i])) + [SendBroadcastData(DataPage(ticks[i]))]
  {
    var prefix := ticks[..i + 1];
    assert prefix[..i] == ticks[..i];
    assert DataPages(prefix) == DataPages(ticks[..i]) + [DataPage(ticks[i])];
  }

  /** The positions of the calls: configuration first, then open, and on an interrupt close then stop last. */
  lemma LifecycleOrder(pages: seq<seq<Byte>>, intr: Interruption)
    ensures var t := LifecycleTrace(pages, intr);
      && |t| == 7 + (if intr.InterruptDuringOpen? then 0 else 1 + |pages|)
                  + (if Interrupted(intr) then 2 else 0)
      && t[0] == Call.SetNetworkKey(0, NetworkKey)
      && t[1] == Call.NewChannel(BidirectionalTransmit, 0, 0)
      && t[2] == Call.SetId(DeviceNumber, DeviceType, 1)
      && t[3] == Call.SetPeriod(ChannelPeriod)
      && t[4] == Call.SetRfFreq(ChannelFrequency)
      && t[5] == Call.RegisterTxCallback
      && t[6] == Call.Open
      && (Interrupted(intr) ==> t[|t| - 2] == Call.Close && t[|t| - 1] == Call.Stop)
  {
    LifecyclePhases(pages, intr);
    var prologue, run, shutdown := ConfigurationCalls() + [Call.Open], RunCalls(pages, intr), Shutdown(intr);
    var t := LifecycleTrace(pages, intr);
    assert |run| == if intr.InterruptDuringOpen? then 0 else 1 + |pages|;
    forall k | 0 <= k < 7 ensures t[k] == prologue[k] {
      assert t[k] == (prologue + run)[k];
    }
    if Interrupted(intr) {
      assert t[|t| - 2] == shutdown[0] && t[|t| - 1] == shutdown[1];
    }
  }

  /** Between open and the cleanup: start, then the broadcast of each page, in order. */
  lemma LifecycleRunOrder(pages: seq<seq<Byte>>, intr: Interruption)
    requires !intr.InterruptDuringOpen?
    ensures var t := LifecycleTrace(pages, intr);
      && |t| >= 8 + |pages|
      && t[7] == Call.Start
      && forall k :: 0 <= k < |pages| ==> t[8 + k] == SendBroadcastData(pages[k])
  {
    LifecyclePhases(pages, intr);
    var prologue, run := ConfigurationCalls() + [Call.Open], RunCalls(pages, intr);
    var b := Broadcasts(pages);
    var t := LifecycleTrace(pages, intr);
    assert run == [Call.Start] + b;
    assert |prologue| == 7;
    assert t[7] == (prologue + run)[7] == run[0];
    forall k | 0 <= k < |pages| ensures t[8 + k] == SendBroadcastData(pages[k]) {
      assert t[8 + k] == (prologue + run)[8 + k] == run[1 + k] == b[k];
      BroadcastAt(pages, k);
    }
  }

  /** A count over the whole trace is the sum of the counts over its three phases. */
  lemma CountByPhase(pages: seq<seq<Byte>>, intr: Interruption, c: Call)
    ensures Count(LifecycleTrace(pages, intr), c)
         == Count(ConfigurationCalls() + [Call.Open], c) + Count(RunCalls(pages, intr), c) + Count(Shutdown(intr), c)
  {
    LifecyclePhases(pages, intr);
    var prologue, run := ConfigurationCalls() + [Call.Open], RunCalls(pages, intr);
    CountAppend(prologue + run, Shutdown(intr), c);
    CountAppend(prologue, run, c);
  }

  /** The run phase holds no call but start and broadcasts. */
  lemma NotInRun(pages: seq<seq<Byte>>, intr: Interruption, c: Call)
    requires !c.SendBroadcastData? && c != Call.Start
    ensures c !in RunCalls(pages, intr)
  {
    OnlySendsInBroadcasts(pages, c);
  }

  /** The callback is registered once and the channel opened once. */
  lemma RegisterAndOpenOnce(pages: seq<seq<Byte>>, intr: Interruption)
    ensures Count(LifecycleTrace(pages, intr), Call.RegisterTxCallback) == 1
    ensures Count(LifecycleTrace(pages, intr), Call.Open) == 1
  {
    var config := ConfigurationCalls();
    var run, shutdown := RunCalls(pages, intr), Shutdown(intr);
    CountByPhase(pages, intr, Call.RegisterTxCallback);
    CountByPhase(pages, intr, Call.Open);
    NotInRun(pages, intr, Call.RegisterTxCallback);
    NotInRun(pages, intr, Call.Open);
    CountZero(run, Call.RegisterTxCallback);
    CountZero(run, Call.Open);
    CountZero(shutdown, Call.RegisterTxCallback);
    CountZero(shutdown, Call.Open);
    CountOnce(config[..5], Call.RegisterTxCallback, [Call.Open]);
    assert config[..5] + [Call.RegisterTxCallback] + [Call.Open] == config + [Call.Open];
    CountOnce(config, Call.Open, []);
    assert config + [Call.Open] + [] == config + [Call.Open];
  }

  /** The run loop is started once, unless the interrupt came while opening, and then never. */
  lemma StartOnce(pages: seq<seq<Byte>>, intr: Interruption)
    ensures Count(LifecycleTrace(pages, intr), Call.Start) == if intr.InterruptDuringOpen? then 0 else 1
  {
    var run := RunCalls(pages, intr);
    CountByPhase(pages, intr, Call.Start);
    CountZero(ConfigurationCalls() + [Call.Open], Call.Start);
    CountZero(Shutdown(intr), Call.Start);
    if intr.InterruptDuringOpen? {
      CountZero(run, Call.Start);
    } else {
      OnlySendsInBroadcasts(pages, Call.Start);
      CountOnce([], Call.Start, Broadcasts(pages));
      assert [] + [Call.Start] + Broadcasts(pages) == run;
    }
  }

  /** Close and stop are each called exactly once on an interrupt, and never otherwise. */
  lemma CloseAndStopOnce(pages: seq<seq<Byte>>, intr: Interruption)
    ensures Count(LifecycleTrace(pages, intr), Call.Close) == if Interrupted(intr) then 1 else 0
    ensures Count(LifecycleTrace(pages, intr), Call.Stop) == if Interrupted(intr) then 1 else 0
  {
    var prologue, run, shutdown := ConfigurationCalls() + [Call.Open], RunCalls(pages, intr), Shutdown(intr);
    CountByPhase(pages, intr, Call.Close);
    CountByPhase(pages, intr, Call.Stop);
    NotInRun(pages, intr, Call.Close);
    NotInRun(pages, intr, Call.Stop);
    CountZero(run, Call.Close);
    CountZero(run, Call.Stop);
    CountZero(prologue, Call.Close);
    CountZero(prologue, Call.Stop);
    if Interrupted(intr) {
      CountOnce([], Call.Close, [Call.Stop]);
      CountOnce([Call.Close], Call.Stop, []);
      assert [] + [Call.Close] + [Call.Stop] == shutdown;
      assert [Call.Close] + [Call.Stop] + [] == shutdown;
    } else {
      CountZero(shutdown, Call.Close);
      CountZero(shutdown, Call.Stop);
    }
  }

  /** The broadcasts of a run carry its pages, each once, in order. */
  lemma {:induction false} SentPayloadsOfBroadcasts(pages: seq<seq<Byte>>)
    ensures SentPayloads(Broadcasts(pages)) == pages
  {
    if pages != [] {
      var n := |pages| - 1;
      var last := SendBroadcastData(pages[n]);
      assert Broadcasts(pages) == Broadcasts(pages[..n]) + [last];
      SentPayloadsOfBroadcasts(pages[..n]);
      SentPayloadsAppend(Broadcasts(pages[..n]), [last]);
      assert [last][1..] == [];
      assert SentPayloads([last]) == [pages[n]];
      assert pages[..n] + [pages[n]] == pages;
    }
  }

  /**
   * What the lifecycle broadcasts: exactly the pages of the run, each once and
   * in order, and nothing when the interrupt came while opening.
   */
  lemma LifecycleSends(pages: seq<seq<Byte>>, intr: Interruption)
    ensures SentPayloads(LifecycleTrace(pages, intr)) == if intr.InterruptDuringOpen? then [] else pages
  {
    LifecyclePhases(pages, intr);
    var prologue, run, shutdown := ConfigurationCalls() + [Call.Open], RunCalls(pages, intr), Shutdown(intr);
    SentPayloadsNone(prologue);
    SentPayloadsNone(shutdown);
    SentPayloadsAppend(prologue + run, shutdown);
    SentPayloadsAppend(prologue, run);
    var sent := SentPayloads(run);
    assert [] + sent + [] == sent;
    if intr.InterruptDuringOpen? {
      assert sent == [];
    } else {
      SentPayloadsNone([Call.Start]);
      SentPayloadsOfBroadcasts(pages);
      SentPayloadsAppend([Call.Start], Broadcasts(pages));
      assert [] + pages == pages;
    }
  }

  /**
   * The message counter and the broadcasts agree: every page request sends
   * exactly one page, except the one the interrupt cut short inside a tick.
   */
  lemma CounterMatchesSends(pages: seq<seq<Byte>>, intr: Interruption)
    ensures TicksStarted(|pages|, intr)
         == |SentPayloads(LifecycleTrace(pages, intr))| + (if intr.InterruptDuringTick? then 1 else 0)
  {
    LifecycleSends(pages, intr);
  }
}
