/**
  The older calculator with hard-coded factors (emission_calculator/calculator.py): three
  transport distances, a four-entry diet table with `average` as fallback, and four energy
  sources.
*/
module LegacyCalculator {

  const Co2Car: real := 0.192
  const Co2Bus: real := 0.105
  const Co2Flight: real := 0.255

  const Co2Diet: map<string, real> :=
    map["high_meat" := 7.2, "average" := 5.6, "vegetarian" := 3.8, "vegan" := 2.9]

  const Co2Electricity: real := 0.02
  const Co2Oil: real := 0.267
  const Co2Wood: real := 0.018
  const Co2Gas: real := 0.25

  function CalculateTransportEmissions(kmCar: real, kmBus: real, kmFlight: real): (r: real)
    ensures kmCar >= 0.0 && kmBus >= 0.0 && kmFlight >= 0.0 ==> r >= 0.0
  {
    kmCar * Co2Car + kmBus * Co2Bus + kmFlight * Co2Flight
  }

  function CalculateFoodEmissions(dietType: string): (r: real)
    ensures dietType in Co2Diet ==> r == Co2Diet[dietType] * 30.0
    ensures dietType !in Co2Diet ==> r == 5.6 * 30.0
    ensures 2.9 * 30.0 <= r <= 7.2 * 30.0
  {
    var daily := if dietType in Co2Diet then Co2Diet[dietType] else 5.6;
    daily * 30.0
  }

  function CalculateEnergyEmissions(kwhElectricity: real, kwhOil: real, kwhGas: real, kwhWood: real): (r: real)
    ensures kwhElectricity >= 0.0 && kwhOil >= 0.0 && kwhGas >= 0.0 && kwhWood >= 0.0 ==> r >= 0.0
  {
    kwhElectricity * Co2Electricity + kwhOil * Co2Oil + kwhGas * Co2Gas + kwhWood * Co2Wood
  }

  /** Each function is monotone non-decreasing in each of its numeric inputs. */
  lemma Monotone(car: real, bus: real, flight: real, car': real, bus': real, flight': real)
    requires car <= car' && bus <= bus' && flight <= flight'
    ensures CalculateTransportEmissions(car, bus, flight) <= CalculateTransportEmissions(car', bus', flight')
  {
  }

  lemma EnergyMonotone(e: real, o: real, g: real, w: real, e': real, o': real, g': real, w': real)
    requires e <= e' && o <= o' && g <= g' && w <= w'
    ensures CalculateEnergyEmissions(e, o, g, w) <= CalculateEnergyEmissions(e', o', g', w')
  {
  }

  /** The unknown-diet fallback is exactly the `average` entry. */
  lemma UnknownDietIsAverage(dietType: string)
    requires dietType !in Co2Diet
    ensures CalculateFoodEmissions(dietType) == CalculateFoodEmissions("average")
  {
  }

  /** The values pinned by the repository's unit tests. */
  lemma PinnedValues()
    ensures CalculateTransportEmissions(100.0, 50.0, 200.0) == 100.0 * 0.192 + 50.0 * 0.105 + 200.0 * 0.255
    ensures CalculateFoodEmissions("high_meat") == 7.2 * 30.0
    ensures CalculateFoodEmissions("vegetarian") == 3.8 * 30.0
    ensures CalculateFoodEmissions("vegan") == 2.9 * 30.0
    ensures CalculateFoodEmissions("unkown_diet") == 5.6 * 30.0
  {
  }
}
