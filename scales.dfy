/**
 * Reference definitions of the units the weather station reports in.
 *
 * These are the physical definitions of the scales, written independently of
 * the station's own formulas; the station's accessors are proved equal to them.
 * All values are exact reals: the IEEE-754 rounding of the original `double`
 * arithmetic is not modelled.
 */
module Scales {

  /** Largest raw temperature the sensor reports: a 16-bit unsigned value. */
  const MaxRaw: int := 65535

  /** Offset between the Kelvin and Celsius scales, in degrees. */
  const KelvinAtZeroCelsius: real := 273.15

  /** Millibars in one inch of mercury. */
  const MillibarsPerInch: real := 33.864

  /** A raw sensor value: hundredths of a kelvin, 16-bit range. */
  predicate InSensorRange(raw: int) {
    0 <= raw <= MaxRaw
  }

  /** The sensor's unit is a hundredth of a kelvin. */
  function KelvinOfHundredths(raw: int): real {
    raw as real / 100.0
  }

  /** The Celsius scale is the Kelvin scale shifted by 273.15 degrees. */
  function CelsiusOfKelvin(k: real): real {
    k - KelvinAtZeroCelsius
  }

  /** The Fahrenheit scale: 9/5 of a Celsius degree per degree, water freezes at 32. */
  function FahrenheitOfCelsius(c: real): real {
    c * 9.0 / 5.0 + 32.0
  }

  /** Inverse of FahrenheitOfCelsius. */
  function CelsiusOfFahrenheit(f: real): real {
    (f - 32.0) * 5.0 / 9.0
  }
}
