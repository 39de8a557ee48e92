/**
 * The configuration values the renderer and its effects read at construction
 * (`main/Config.java`). Java `float`s are modelled as `real`, `int`s as `int`.
 */
module Settings {

  datatype Config = Config(
    virtualWidth: int,
    virtualHeight: int,
    debugInitZ: int,
    debugRgba: seq<real>,
    baseImageScale: real,
    initFrontDistance: int,
    layerDistance: int,
    removeLayerDistance: int,
    focalLength: real,
    startSpeed: real,
    idleSpeed: real,
    initZ: int,
    initFadeAlpha: real,
    fadeSpeed: real,
    idleAlphaClamp: real,
    wholeRotationSpeed: real,
    wholeOscillationSpeed: real,
    wholeSwingAmplitude: real,
    layerRotationSpeed: real,
    layerOscillationSpeed: real,
    layerSwingAmplitude: real)

  /** The values shipped in `Config.java`. */
  const Default: Config := Config(
    virtualWidth := 1920,
    virtualHeight := 1080,
    debugInitZ := 500,
    debugRgba := [1.0, 1.0, 1.0, 1.0],
    baseImageScale := 0.15,
    initFrontDistance := 500,
    layerDistance := 100,
    removeLayerDistance := 30,
    focalLength := 300.0,
    startSpeed := 30.0,
    idleSpeed := 450.0,
    initZ := 5000,
    initFadeAlpha := 1.0,
    fadeSpeed := 0.25,
    idleAlphaClamp := 0.35,
    wholeRotationSpeed := 20.0,
    wholeOscillationSpeed := 0.35,
    wholeSwingAmplitude := 25.0,
    layerRotationSpeed := 20.0,
    layerOscillationSpeed := 0.8,
    layerSwingAmplitude := 30.0)
}
