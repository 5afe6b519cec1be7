/**
 * The configuration records of `include/SceneConfig.hh`, with its defaults. Doubles are reals and
 * `int` fields are unbounded integers; loading them from JSON is not part of this model.
 */
module SceneConfig {
  import opened Vectors

  datatype BeamConfig = BeamConfig(
    beamType: string,
    sourcePosMm: Vec3,
    detectorPosMm: Vec3,
    detectorUp: Vec3,
    detectorPixels: (int, int),
    detectorPixelSizeMm: (real, real),
    monoEnergyKeV: real,
    photonFluxPerS: real,
    exposureTimeS: real)

  datatype ObjectMaterial = ObjectMaterial(formula: string, densityGCm3: real, cpJKgK: real)

  datatype ObjectConfig = ObjectConfig(id: string, meshPath: string, units: string, material: ObjectMaterial)

  datatype VoxelGridConfig = VoxelGridConfig(nx: int, ny: int, nz: int, halfSizeMm: real)

  datatype AcquisitionConfig = AcquisitionConfig(
    mode: string,
    numProjections: int,
    startAngleDeg: real,
    endAngleDeg: real,
    rotationAxis: Vec3,
    rotationCenterMm: Vec3,
    totalEvents: int)

  datatype Config = Config(
    beam: BeamConfig,
    obj: ObjectConfig,
    voxelGrid: VoxelGridConfig,
    acquisition: AcquisitionConfig,
    configDir: string,
    outputDir: string)

  /** Member initialisers of `VoxelGridConfig`: 100^3 voxels over [-10, +10] mm. */
  const DefaultVoxelGrid: VoxelGridConfig := VoxelGridConfig(100, 100, 100, 10.0)

  /** Member initialisers of `AcquisitionConfig`: one step projection over 0..360 degrees about +z. */
  const DefaultAcquisition: AcquisitionConfig :=
    AcquisitionConfig("step", 1, 0.0, 360.0, Vec3(0.0, 0.0, 1.0), Vec3(0.0, 0.0, 0.0), 0)
}
