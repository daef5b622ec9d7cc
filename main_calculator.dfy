/** The copy of the three-distance transport sum in main/calculator.py (its name is misspelled there). */
module MainCalculator {
  import LegacyCalculator

  function CalulateTransportEmissions(kmCar: real, kmBus: real, kmFlight: real): (r: real)
    ensures kmCar == 0.0 && kmBus == 0.0 && kmFlight == 0.0 ==> r == 0.0
  {
    kmCar * 0.192 + kmBus * 0.105 + kmFlight * 0.255
  }

  /** The copy agrees with the original for every input. */
  lemma AgreesWithLegacy(kmCar: real, kmBus: real, kmFlight: real)
    ensures CalulateTransportEmissions(kmCar, kmBus, kmFlight)
         == LegacyCalculator.CalculateTransportEmissions(kmCar, kmBus, kmFlight)
  {
  }

  /** It is monotone in each distance. */
  lemma Monotone(car: real, bus: real, flight: real, car': real, bus': real, flight': real)
    requires car <= car' && bus <= bus' && flight <= flight'
    ensures CalulateTransportEmissions(car, bus, flight) <= CalulateTransportEmissions(car', bus', flight')
  {
  }
}
