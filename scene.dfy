/** The shape record that the editor keeps and the exporter reads. */
module Scene {

  /**
   * One placed object. `shapeType` is the record's `type` property: a library id
   * such as "cube", a model name, or "importedModel" for a loaded file. Positions
   * and rotations are arrays of numbers. String properties the record does not
   * have (`modelType`, `modelUrl` and `texturePath` of a library shape) are "",
   * which JavaScript treats as absent in the same way.
   */
  datatype Shape = Shape(
    id: int,
    shapeType: string,
    icon: string,
    position: seq<int>,
    rotation: seq<int>,
    color: string,
    scale: int,
    modelType: string,
    modelUrl: string,
    texturePath: string)
}
