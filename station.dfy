/**
 * The weather station of Activity 3b: a temperature/pressure pair that the
 * sampling loop replaces on every tick, and five read-only accessors that
 * convert the stored pair into Celsius, Kelvin, Fahrenheit, inches of mercury
 * and millibars.
 *
 * The temperature sensor and the barometer are random and not modelled: the
 * values they would return are passed in as parameters.
 */
module Station {
  import Scales

  /** Kelvin-to-Celsius offset, in the sensor's hundredths of a degree. */
  const KTOC: int := -27315

  /** One sample: the raw sensor value and the raw barometer value taken together. */
  datatype Sample = Sample(temp: int, pressure: real)

  /**
   * The stored sample after the sampling loop has run one tick per element of
   * `ticks`, starting from `current`.
   */
  function Replay(current: Sample, ticks: seq<Sample>): Sample
    decreases |ticks|
  {
    if ticks == [] then current else Replay(ticks[0], ticks[1..])
  }

  /** After any number of ticks the station holds exactly the latest sample. */
  lemma {:induction false} ReplayIsLatest(current: Sample, ticks: seq<Sample>)
    ensures Replay(current, ticks) == if ticks == [] then current else ticks[|ticks| - 1]
    decreases |ticks|
  {
    if ticks != [] {
      ReplayIsLatest(ticks[0], ticks[1..]);
    }
  }

  /**
   * No torn state: whatever the number of ticks, the stored pair is one whole
   * sample (the initial one, or one taken by a tick), never a temperature from
   * one sample with a pressure from another.
   */
  lemma ReplayNeverTorn(current: Sample, ticks: seq<Sample>)
    ensures Replay(current, ticks) == current || Replay(current, ticks) in ticks
    ensures ticks != [] ==> Replay(current, ticks) in ticks
  {
    ReplayIsLatest(current, ticks);
  }

  /** The sensor's range is kept by every tick. */
  lemma ReplayInRange(current: Sample, ticks: seq<Sample>)
    requires Scales.InSensorRange(current.temp)
    requires forall i :: 0 <= i < |ticks| ==> Scales.InSensorRange(ticks[i].temp)
    ensures Scales.InSensorRange(Replay(current, ticks).temp)
  {
    ReplayIsLatest(current, ticks);
  }

  class WeatherStation {
    /** Current temperature reading, in hundredths of a kelvin. */
    var currentTempReading: int
    /** Current barometer reading, in inches of mercury. */
    var currentBaromReading: real

    /** The stored temperature is a value the sensor can report. */
    ghost predicate Valid()
      reads this
    {
      Scales.InSensorRange(currentTempReading)
    }

    /** The stored pair, as one sample. */
    ghost function Reading(): Sample
      reads this
    {
      Sample(currentTempReading, currentBaromReading)
    }

    /** Seeds both readings from one initial sample `(t, p)`. */
    constructor (t: int, p: real)
      requires Scales.InSensorRange(t)
      ensures Valid()
      ensures Reading() == Sample(t, p)
    {
      currentTempReading := t;
      currentBaromReading := p;
    }

    /** One tick of the sampling loop: both readings are replaced by the new sample together. */
    method Tick(t: int, p: real)
      requires Scales.InSensorRange(t)
      modifies this
      ensures Valid()
      ensures Reading() == Sample(t, p)
    {
      currentTempReading := t;
      currentBaromReading := p;
    }

    /** The first `|ticks|` iterations of the sampling loop, one sample per tick. */
    method Run(ticks: seq<Sample>)
      requires Valid()
      requires forall i :: 0 <= i < |ticks| ==> Scales.InSensorRange(ticks[i].temp)
      modifies this
      ensures Valid()
      ensures Reading() == Replay(old(Reading()), ticks)
    {
      var i := 0;
      while i < |ticks|
        invariant 0 <= i <= |ticks|
        invariant Valid()
        invariant Replay(Reading(), ticks[i..]) == Replay(old(Reading()), ticks)
      {
        assert ticks[i..][1..] == ticks[i + 1..];
        Tick(ticks[i].temp, ticks[i].pressure);
        i := i + 1;
      }
    }

    /** Temperature in degrees Celsius. */
    function GetCelsius(): (c: real)
      reads this
      ensures c == Scales.CelsiusOfKelvin(GetKelvin())
      ensures c == 0.0 <==> currentTempReading == -KTOC
    {
      (currentTempReading + KTOC) as real / 100.0
    }

    /** Temperature in kelvins. */
    function GetKelvin(): (k: real)
      reads this
      ensures k * 100.0 == currentTempReading as real
      ensures Valid() ==> 0.0 <= k <= 655.35
    {
      currentTempReading as real / 100.0
    }

    /** Temperature in degrees Fahrenheit. */
    function GetFahrenheit(): (f: real)
      reads this
      ensures f == Scales.FahrenheitOfCelsius(GetCelsius())
      ensures Scales.CelsiusOfFahrenheit(f) == GetCelsius()
    {
      ((currentTempReading as real / 100.0) - 273.15) * 1.8 + 32.0
    }

    /** Pressure in inches of mercury: the stored barometer value itself. */
    function GetInches(): (i: real)
      reads this
      ensures i == Reading().pressure
    {
      currentBaromReading
    }

    /** Pressure in millibars. */
    function GetMillibars(): (m: real)
      reads this
      ensures m / Scales.MillibarsPerInch == GetInches()
    {
      currentBaromReading * 33.864
    }
  }

  /** A higher raw temperature never gives a lower temperature on any of the three scales, and conversely. */
  lemma TemperatureOrder(a: WeatherStation, b: WeatherStation)
    ensures a.currentTempReading <= b.currentTempReading <==> a.GetKelvin() <= b.GetKelvin()
    ensures a.currentTempReading <= b.currentTempReading <==> a.GetCelsius() <= b.GetCelsius()
    ensures a.currentTempReading <= b.currentTempReading <==> a.GetFahrenheit() <= b.GetFahrenheit()
  {
  }

  /** Over the sensor's range the readings stay between absolute zero and 655.35 K. */
  lemma TemperatureBounds(s: WeatherStation)
    requires s.Valid()
    ensures -273.15 <= s.GetCelsius() <= 382.20
    ensures -459.67 <= s.GetFahrenheit() <= 719.96
  {
  }

  /** A raw reading of 27315 is the freezing point of water. */
  lemma FreezingPoint(s: WeatherStation)
    requires s.currentTempReading == 27315
    ensures s.GetKelvin() == 273.15
    ensures s.GetCelsius() == 0.0
    ensures s.GetFahrenheit() == 32.0
  {
  }

  /** A raw reading of 30000 is 300 K, 26.85 degrees C and 80.33 degrees F. */
  lemma RoomTemperature(s: WeatherStation)
    requires s.currentTempReading == 30000
    ensures s.GetKelvin() == 300.0
    ensures s.GetCelsius() == 26.85
    ensures s.GetFahrenheit() == 80.33
  {
  }

  /** A barometer value of 30 inches of mercury is 1015.92 millibars. */
  lemma StandardPressure(s: WeatherStation)
    requires s.currentBaromReading == 30.0
    ensures s.GetInches() == 30.0
    ensures s.GetMillibars() == 1015.92
  {
  }
}
