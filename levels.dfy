/**
 * Level descriptions and their placement on the canvas: planets and stars are given as fractions
 * of the canvas size and become absolute positions when a level is created.
 */
module Levels {
  import opened Numerics
  import opened Physics

  /** Collection radius of every star. */
  const StarRadius: real := 14.0

  /** A collectable star. Its visual pulse phase is not part of the model. */
  datatype Star = Star(pos: Vec, radius: real, collected: bool)

  datatype PlanetConfig = PlanetConfig(xFactor: real, yFactor: real, mass: real, radius: real, spin: real)
  datatype StarConfig = StarConfig(xFactor: real, yFactor: real)

  /** A level: its name, planets and stars. The hint text shown with it is not part of the model. */
  datatype LevelConfig = LevelConfig(name: string, planets: seq<PlanetConfig>, stars: seq<StarConfig>)

  /** The six built-in levels, in play order. */
  const BaseLevels: seq<LevelConfig> := [
    LevelConfig("Slingshot Basics",
      [PlanetConfig(0.45, 0.5, 8.0, 36.0, 0.0)],
      [StarConfig(0.8, 0.5)]),
    LevelConfig("Double Curve",
      [PlanetConfig(0.4, 0.45, 9.0, 36.0, 0.15), PlanetConfig(0.65, 0.58, 9.0, 34.0, -0.18)],
      [StarConfig(0.83, 0.45), StarConfig(0.83, 0.65)]),
    LevelConfig("Thread the Needle",
      [PlanetConfig(0.5, 0.4, 10.0, 34.0, 0.15), PlanetConfig(0.5, 0.6, 10.0, 34.0, -0.15)],
      [StarConfig(0.8, 0.4), StarConfig(0.8, 0.6)]),
    LevelConfig("Orbital Carousel",
      [PlanetConfig(0.6, 0.5, 14.0, 42.0, 0.25)],
      [StarConfig(0.8, 0.35), StarConfig(0.86, 0.5), StarConfig(0.8, 0.65)]),
    LevelConfig("Tight Binary",
      [PlanetConfig(0.48, 0.48, 11.0, 30.0, 0.28), PlanetConfig(0.52, 0.52, 11.0, 30.0, -0.28)],
      [StarConfig(0.75, 0.38), StarConfig(0.78, 0.62)]),
    LevelConfig("Gauntlet Run",
      [PlanetConfig(0.35, 0.35, 8.0, 26.0, 0.1), PlanetConfig(0.42, 0.6, 9.0, 28.0, -0.1),
       PlanetConfig(0.58, 0.4, 9.0, 30.0, 0.12), PlanetConfig(0.66, 0.62, 10.0, 32.0, -0.14)],
      [StarConfig(0.72, 0.32), StarConfig(0.82, 0.48), StarConfig(0.72, 0.66)])
  ]

  /** The number of built-in levels; the Next Level button cycles through them. */
  const LevelCount: nat := 6

  lemma LevelCountIsLength()
    ensures |BaseLevels| == LevelCount
  {
  }

  function PlacePlanet(c: PlanetConfig, width: real, height: real): Planet
  {
    Planet(Vec(c.xFactor * width, c.yFactor * height), c.mass, c.radius, c.spin)
  }

  function PlaceStar(c: StarConfig, width: real, height: real): Star
  {
    Star(Vec(c.xFactor * width, c.yFactor * height), StarRadius, false)
  }

  /** The planets of a level on a width-by-height canvas, one per configuration entry (`PlacePlanetsSpec`). */
  function PlacePlanets(cs: seq<PlanetConfig>, width: real, height: real): (ps: seq<Planet>)
    ensures |ps| == |cs|
  {
    if cs == [] then [] else PlacePlanets(cs[..|cs| - 1], width, height) + [PlacePlanet(cs[|cs| - 1], width, height)]
  }

  /** The stars of a level on a width-by-height canvas: every one of radius 14 and not yet collected. */
  function PlaceStars(cs: seq<StarConfig>, width: real, height: real): (ss: seq<Star>)
    ensures |ss| == |cs|
    ensures forall i :: 0 <= i < |ss| ==> !ss[i].collected && ss[i].radius == StarRadius
  {
    if cs == [] then [] else PlaceStars(cs[..|cs| - 1], width, height) + [PlaceStar(cs[|cs| - 1], width, height)]
  }

  /** Planet `i` is configuration entry `i` scaled to the canvas, in configuration order. */
  lemma {:induction false} PlacePlanetsSpec(cs: seq<PlanetConfig>, width: real, height: real, i: nat)
    requires i < |cs|
    ensures PlacePlanets(cs, width, height)[i] == PlacePlanet(cs[i], width, height)
  {
    if i < |cs| - 1 {
      PlacePlanetsSpec(cs[..|cs| - 1], width, height, i);
    }
  }

  /** Star `i` is configuration entry `i` scaled to the canvas, in configuration order. */
  lemma {:induction false} PlaceStarsSpec(cs: seq<StarConfig>, width: real, height: real, i: nat)
    requires i < |cs|
    ensures PlaceStars(cs, width, height)[i] == PlaceStar(cs[i], width, height)
  {
    if i < |cs| - 1 {
      PlaceStarsSpec(cs[..|cs| - 1], width, height, i);
    }
  }
}
