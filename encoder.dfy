/**
 * The payload encoder of the weather broadcast: the weather-condition code, the
 * two's-complement reinterpretation of the temperature as an unsigned byte, and
 * the 8-byte data page built from both (main.py, Create_Next_DataPage).
 */
module Encoder {
  import opened Wrappers

  /** One payload byte, as the unsigned value a receiver reads. */
  type Byte = b: int | 0 <= b < 256

  /** The range of a signed 8-bit integer (ctypes.c_byte). */
  predicate IsSignedByte(t: int) {
    -128 <= t <= 127
  }

  /**
   * The unsigned byte (ctypes.c_ubyte) that shares its bit pattern with the
   * signed byte `t`: a reinterpretation, not a clamp, so -1 becomes 255.
   */
  function ToUnsignedByte(t: int): (b: Byte)
    requires IsSignedByte(t)
    ensures b % 256 == t % 256
    ensures b < 128 <==> t >= 0
  {
    if t >= 0 then t else t + 256
  }

  /** The reverse reinterpretation, as a receiver decodes byte 6. */
  function ToSignedByte(b: Byte): (t: int)
    ensures IsSignedByte(t)
    ensures t % 256 == b % 256
    ensures t >= 0 <==> b < 128
  {
    if b >= 128 then b - 256 else b
  }

  lemma SignedRoundTrip(t: int)
    requires IsSignedByte(t)
    ensures ToSignedByte(ToUnsignedByte(t)) == t
  {
  }

  lemma UnsignedRoundTrip(b: Byte)
    ensures ToUnsignedByte(ToSignedByte(b)) == b
  {
  }

  /** The conversion keeps the low eight bits of the two's-complement pattern. */
  lemma UnsignedByteIsLowBits(t: int)
    requires IsSignedByte(t)
    ensures ToUnsignedByte(t) == t % 256
  {
  }

  /** Two signed bytes with the same pattern are the same temperature. */
  lemma UnsignedByteInjective(t: int, u: int)
    requires IsSignedByte(t) && IsSignedByte(u)
    ensures ToUnsignedByte(t) == ToUnsignedByte(u) <==> t == u
  {
    SignedRoundTrip(t);
    SignedRoundTrip(u);
  }

  /** The weather labels the encoder recognises; label `Labels[i]` has code `i + 1`. */
  const Labels: seq<string> := [
    "Clear", "Few Clouds", "Scattered Clouds", "Broken Clouds", "Shower Rain",
    "Rain", "Thunderstorm", "Snow", "Mist", "Clouds"
  ]

  /**
   * The condition code written to byte 7: 1 to 10 for the known labels, in the
   * order of `Labels`, and 0 for every other label.
   */
  function ConditionCode(weather: string): (code: Byte)
    ensures code <= 10
    ensures code == 0 <==> weather !in Labels
    ensures code != 0 ==> Labels[code - 1] == weather
  {
    if weather == "Clear" then 1
    else if weather == "Few Clouds" then 2
    else if weather == "Scattered Clouds" then 3
    else if weather == "Broken Clouds" then 4
    else if weather == "Shower Rain" then 5
    else if weather == "Rain" then 6
    else if weather == "Thunderstorm" then 7
    else if weather == "Snow" then 8
    else if weather == "Mist" then 9
    else if weather == "Clouds" then 10
    else 0
  }

  /** The label a receiver reads back from a condition code, if the code names one. */
  function ConditionLabel(code: Byte): (name: Option<string>)
    ensures name.Some? <==> 1 <= code <= 10
    ensures name.Some? ==> name.value in Labels && ConditionCode(name.value) == code
  {
    if 1 <= code <= 10 then Some(Labels[code - 1]) else None
  }

  /** Every known label comes back from its code. */
  lemma ConditionLabelRoundTrip(weather: string)
    ensures ConditionLabel(ConditionCode(weather)) == if weather in Labels then Some(weather) else None
  {
  }

  /** Distinct known labels get distinct codes. */
  lemma ConditionCodeInjective(a: string, b: string)
    requires a in Labels && b in Labels
    ensures ConditionCode(a) == ConditionCode(b) <==> a == b
  {
  }

  /** A weather reading as the fetch delivers it: a condition label and whole degrees Celsius. */
  datatype WeatherSnapshot = WeatherSnapshot(weather: string, temperature: int)

  /** The readings the encoder accepts: temperatures that fit a signed byte. */
  predicate ValidSnapshot(s: WeatherSnapshot) {
    IsSignedByte(s.temperature)
  }

  /**
   * The 8-byte data page broadcast for one reading: six reserved zero bytes,
   * the temperature byte, then the condition code.
   */
  function DataPage(s: WeatherSnapshot): (page: seq<Byte>)
    requires ValidSnapshot(s)
    ensures |page| == 8
    ensures forall i :: 0 <= i < 6 ==> page[i] == 0
    ensures ToSignedByte(page[6]) == s.temperature
    ensures page[7] == ConditionCode(s.weather) && page[7] <= 10
  {
    SignedRoundTrip(s.temperature);
    [0, 0, 0, 0, 0, 0, ToUnsignedByte(s.temperature), ConditionCode(s.weather)]
  }

  /** Every reading of a run fits the encoder. */
  predicate ValidSnapshots(ticks: seq<WeatherSnapshot>) {
    forall i :: 0 <= i < |ticks| ==> ValidSnapshot(ticks[i])
  }

  /** The data pages of a run of readings, one per reading, in order. */
  function DataPages(ticks: seq<WeatherSnapshot>): (pages: seq<seq<Byte>>)
    requires ValidSnapshots(ticks)
    ensures |pages| == |ticks|
  {
    if ticks == [] then []
    else DataPages(ticks[..|ticks| - 1]) + [DataPage(ticks[|ticks| - 1])]
  }

  /** The page at position `i` of a run is the page of its `i`-th reading. */
  lemma {:induction false} DataPagesAt(ticks: seq<WeatherSnapshot>, i: nat)
    requires ValidSnapshots(ticks) && i < |ticks|
    ensures DataPages(ticks)[i] == DataPage(ticks[i])
  {
    var n := |ticks| - 1;
    if i < n {
      assert ticks[..n][i] == ticks[i];
      DataPagesAt(ticks[..n], i);
    }
  }

  /** What a receiver recovers from a data page. */
  datatype Reading = Reading(temperature: int, code: Byte)

  /**
   * The receiver's view of a page: `None` unless it is eight bytes long, its
   * reserved bytes are zero and its condition code is at most 10.
   */
  function DecodeDataPage(page: seq<Byte>): (r: Option<Reading>)
    ensures r.Some? <==> |page| == 8 && page[..6] == [0, 0, 0, 0, 0, 0] && page[7] <= 10
    ensures r.Some? ==>
              && IsSignedByte(r.value.temperature)
              && ToUnsignedByte(r.value.temperature) == page[6]
              && r.value.code == page[7]
  {
    if |page| == 8 && page[..6] == [0, 0, 0, 0, 0, 0] && page[7] <= 10 then
      UnsignedRoundTrip(page[6]);
      Some(Reading(ToSignedByte(page[6]), page[7]))
    else
      None
  }

  /** Decoding an encoded page gives back the temperature exactly and the condition's code. */
  lemma DecodeDataPageRoundTrip(s: WeatherSnapshot)
    requires ValidSnapshot(s)
    ensures DecodeDataPage(DataPage(s)) == Some(Reading(s.temperature, ConditionCode(s.weather)))
  {
    var page := DataPage(s);
    assert page[..6] == [0, 0, 0, 0, 0, 0];
  }

  /** Every page the receiver accepts is the encoding of the reading it decodes to. */
  lemma DataPageOfDecoded(page: seq<Byte>)
    requires DecodeDataPage(page).Some?
    ensures var rd := DecodeDataPage(page).value;
            page == [0, 0, 0, 0, 0, 0, ToUnsignedByte(rd.temperature), rd.code]
  {
    var rd := DecodeDataPage(page).value;
    var expected: seq<Byte> := [0, 0, 0, 0, 0, 0, ToUnsignedByte(rd.temperature), rd.code];
    forall i | 0 <= i < 8 ensures page[i] == expected[i] {
      if i < 6 {
        assert page[i] == page[..6][i];
      }
    }
  }

  /** Rain at -1 degrees. */
  lemma RainBelowZeroPage()
    ensures DataPage(WeatherSnapshot("Rain", -1)) == [0, 0, 0, 0, 0, 0, 255, 6]
  {
  }

  /** Clear at 20 degrees. */
  lemma ClearWarmPage()
    ensures DataPage(WeatherSnapshot("Clear", 20)) == [0, 0, 0, 0, 0, 0, 20, 1]
  {
  }

  /** An unrecognised label at 0 degrees encodes to the all-zero page. */
  lemma UnknownLabelPage()
    ensures DataPage(WeatherSnapshot("Haze", 0)) == [0, 0, 0, 0, 0, 0, 0, 0]
  {
  }
}
