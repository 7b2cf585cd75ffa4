# Weather station (Activity 3b) in Dafny

This project models the weather station of `Activities/Activity3b/WeatherStation.java`.
The station keeps one temperature reading and one barometer reading:

- the temperature is an integer in hundredths of a kelvin, which the sensor reports as a 16-bit value from 0 to 65535;
- the pressure is the barometer's raw value, in inches of mercury.

The constructor takes an initial sample. Each tick of the sampling loop replaces both readings together. Five read-only accessors convert the stored pair to Celsius, Kelvin, Fahrenheit, inches and millibars.

Layout:

- `scales.dfy`, module `Scales`: reference definitions of the units, written independently of the station's formulas. A sensor hundredth is 1/100 K. Celsius is Kelvin minus 273.15. Fahrenheit is Celsius × 9/5 + 32. One inch of mercury is 33.864 millibars.
- `station.dfy`, module `Station`: the `Sample` datatype (one temperature/pressure pair) and the class `WeatherStation`. The class has the source's two fields, a constructor, `Tick` (one `synchronized` block of `run()`), `Run` (the first n iterations of the loop) and the five accessors as `reads this` functions. The module also holds `Replay`, the function that specifies `Run`, and the lemmas.

The Java `double` values are exact Dafny `real`s. The model proves the formulas the code intends. It does not prove bounds on IEEE-754 rounding. The values the sensor and barometer would return are parameters. The sensor's documented range, 0 to 65535, is a precondition of the constructor and of `Tick`.

## Model

| member | source | states |
|---|---|---|
| `Station.WeatherStation.constructor` | Activities/Activity3b/WeatherStation.java:43-48 | both readings hold the one initial sample `(t, p)`, so every accessor is defined before the first tick, and the temperature is in the sensor's range |
| `Station.WeatherStation.Tick` | Activities/Activity3b/WeatherStation.java:64-68 | one tick replaces the stored pair with the new sample `(t, p)` in a single step, so both readings come from the same sample |
| `Station.WeatherStation.Run` | Activities/Activity3b/WeatherStation.java:55-72 | after the loop has run one tick per given sample, the stored pair is `Replay` of the old pair over those samples, and the temperature stays in the sensor's range |
| `Station.ReplayIsLatest` | Activities/Activity3b/WeatherStation.java:55-72 | after any number of ticks the station holds exactly the latest sample, or the initial sample if no tick has run |
| `Station.ReplayNeverTorn` | Activities/Activity3b/WeatherStation.java:64-68 | the stored pair is always one whole sample, never a temperature from one sample with a pressure from another |
| `Station.ReplayInRange` | Activities/Activity3b/WeatherStation.java:13-14 | if the initial and every ticked temperature are in 0..65535, so is the stored one after any number of ticks |
| `Station.WeatherStation.GetCelsius` | Activities/Activity3b/WeatherStation.java:78-80 | the result is the Kelvin reading minus 273.15, and it is 0 exactly when the raw reading is 27315 (the `KTOC` offset of line 34) |
| `Station.WeatherStation.GetKelvin` | Activities/Activity3b/WeatherStation.java:86-88 | the result times 100 is the raw reading, and for a raw reading in 0..65535 it lies in [0, 655.35] |
| `Station.WeatherStation.GetFahrenheit` | Activities/Activity3b/WeatherStation.java:90-92 | the result is the Celsius reading × 9/5 + 32, and converting it back to Celsius gives the Celsius reading |
| `Station.WeatherStation.GetInches` | Activities/Activity3b/WeatherStation.java:94-96 | the result is the stored barometer value, unchanged |
| `Station.WeatherStation.GetMillibars` | Activities/Activity3b/WeatherStation.java:98-100 | the result divided by 33.864 millibars per inch is the inches reading |
| `Station.TemperatureOrder` | Activities/Activity3b/WeatherStation.java:78-92 | a higher raw reading never gives a lower Kelvin, Celsius or Fahrenheit value, and a lower raw reading always gives a lower value |
| `Station.TemperatureBounds` | Activities/Activity3b/WeatherStation.java:13-14 | over the sensor's range, Celsius lies in [−273.15, 382.20] and Fahrenheit in [−459.67, 719.96] |
| `Station.FreezingPoint` | Activities/Activity3b/WeatherStation.java:78-92 | raw 27315 gives 273.15 K, 0 °C and 32 °F |
| `Station.RoomTemperature` | Activities/Activity3b/WeatherStation.java:78-92 | raw 30000 gives 300 K, 26.85 °C and 80.33 °F |
| `Station.StandardPressure` | Activities/Activity3b/WeatherStation.java:94-100 | a barometer value of 30.0 gives 30.0 inches and 1015.92 millibars |

The accessors are Dafny functions that only read `this`. So calling any of them leaves both stored readings unchanged.

## Left out

- The timing of the sampling loop (`Thread.sleep(PERIOD)`, the swallowed exceptions) and its infinite repetition. `Run` models any finite prefix of the loop.
- `synchronized`: the model is sequential. `Tick` assigns both fields in one method, and that gives the guarantee the lock gives the threads.
- The `java.util.Observable` behaviour (`setChanged`, `notifyObservers`, `addObserver`). That code belongs to the JDK and is not part of this model.
- `KelvinTempSensor` and `Barometer` produce random values and are not part of this model. Their outputs are parameters.
- IEEE-754 rounding of the `double` results. All values are exact reals.
- Java `int` overflow in `currentTempReading + KTOC`: it cannot happen for values in the sensor's range.
- `Activities/Activity3b/SwingUI.java`: Swing layout, fonts and label formatting. Its `update` only re-reads the five accessors for display.
- `Activities/Activity2/WeatherStation.java`: a console-printing loop and an interactive menu with UI polling loops. Its only arithmetic repeats the Celsius and Kelvin formulas modelled here.
