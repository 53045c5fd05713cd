/**
 * The planets of script.js and the name lookup of `focusOnPlanet`.
 *
 * Each planet mesh is built by `createPlanet` from an entry of the
 * `solarSystemPlanets` table; the lookup is `planets.find` by name. The
 * random starting angle, the mesh and the model loading are not part of
 * this model: a planet here is its name and the orbit figures derived
 * from the table.
 */
module Planets {
  import opened Options

  /** An entry of the `solarSystemPlanets` table. */
  datatype PlanetData = PlanetData(name: string, size: real, distance: real, orbitalSpeed: real)

  /** A planet as `createPlanet` sets it up. */
  datatype Planet = Planet(name: string, radius: real, orbitalRadius: real, orbitalSpeed: real)

  /** The sphere is 1.5 times the table size, the orbit 7 times the table distance, the speed a third. */
  function CreatePlanet(d: PlanetData): (p: Planet)
    ensures p.name == d.name
  {
    Planet(d.name, d.size * 1.5, d.distance * 7.0, d.orbitalSpeed / 3.0)
  }

  const SolarSystemPlanets: seq<PlanetData> := [
    PlanetData("Mercury", 2.9 * 5.0, 35.0 * 6.0, 0.004),
    PlanetData("Venus", 3.0 * 5.0, 42.0 * 6.0, 0.003),
    PlanetData("Earth", 4.0 * 5.0, 54.0 * 6.0, 0.0025),
    PlanetData("Mars", 2.8 * 5.0, 63.0 * 6.0, 0.002),
    PlanetData("Jupiter", 11.0 * 5.0, 75.0 * 6.0, 0.001),
    PlanetData("Saturn", 10.0 * 5.0, 85.0 * 6.5, 0.0009),
    PlanetData("Uranus", 5.0 * 5.0, 95.0 * 7.3, 0.0008),
    PlanetData("Neptune", 5.0 * 5.0, 110.0 * 7.5, 0.0007)
  ]

  /** The `planets` array: one planet per table entry, in table order. */
  function CreatePlanets(table: seq<PlanetData>): (ps: seq<Planet>)
    ensures |ps| == |table|
    ensures forall i :: 0 <= i < |table| ==> ps[i] == CreatePlanet(table[i])
  {
    seq(|table|, i requires 0 <= i < |table| => CreatePlanet(table[i]))
  }

  /**
   * `planets.find(p => p.name === name)`, as the index of the planet found:
   * the first planet with that name, or `None` when no planet has it.
   */
  function FindByName(planets: seq<Planet>, name: string): (r: Option<nat>)
    ensures r.Some? ==> r.value < |planets| && planets[r.value].name == name
    ensures r.Some? ==> forall j :: 0 <= j < r.value ==> planets[j].name != name
    ensures r.None? <==> forall j :: 0 <= j < |planets| ==> planets[j].name != name
    decreases |planets|
  {
    if planets == [] then None
    else if planets[0].name == name then Some(0)
    else match FindByName(planets[1..], name)
      case None => None
      case Some(i) => Some(i + 1)
  }

  predicate DistinctNames(planets: seq<Planet>) {
    forall i, j :: 0 <= i < j < |planets| ==> planets[i].name != planets[j].name
  }

  /** With distinct names, looking up a planet's own name finds that planet. */
  lemma FindOwnName(planets: seq<Planet>, i: nat)
    requires DistinctNames(planets) && i < |planets|
    ensures FindByName(planets, planets[i].name) == Some(i)
  {
  }

  /** The eight planets of the table have eight different names. */
  lemma SolarSystemNamesDistinct()
    ensures |CreatePlanets(SolarSystemPlanets)| == 8
    ensures DistinctNames(CreatePlanets(SolarSystemPlanets))
  {
    var ps := CreatePlanets(SolarSystemPlanets);
    assert forall i :: 0 <= i < 8 ==> ps[i].name == SolarSystemPlanets[i].name;
  }

  /** Planets of the table are found by their names; the sun is in the scene but not among the planets. */
  lemma SolarSystemLookup()
    ensures FindByName(CreatePlanets(SolarSystemPlanets), "Earth") == Some(2)
    ensures FindByName(CreatePlanets(SolarSystemPlanets), "Neptune") == Some(7)
    ensures FindByName(CreatePlanets(SolarSystemPlanets), "Sun") == None
  {
    var ps := CreatePlanets(SolarSystemPlanets);
    SolarSystemNamesDistinct();
    FindOwnName(ps, 2);
    FindOwnName(ps, 7);
    assert ps[2].name == "Earth" && ps[7].name == "Neptune";
    forall j | 0 <= j < |ps|
      ensures |ps[j].name| >= 4
    {
      assert ps[j].name == SolarSystemPlanets[j].name;
    }
  }

}
