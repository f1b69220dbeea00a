/** Records exchanged between the inference engine and a custom output parser
    (the structures of nvdsinfer_custom_impl.h that the DETR parser touches).
    Floating-point values are modelled as reals; unsigned counters as naturals. */
module NvDsInfer {

  /** One output tensor of the network: its name, its dimensions (d[0], d[1], ...)
      and its contents, read as a flat row-major buffer of floats. */
  datatype LayerInfo = LayerInfo(layerName: string, inferDims: seq<nat>, buffer: seq<real>)

  /** Input geometry of the network, in pixels. */
  datatype NetworkInfo = NetworkInfo(width: nat, height: nat)

  /** Detection parameters: the number of configured classes and one
      pre-clustering confidence threshold per class. */
  datatype DetectionParams = DetectionParams(numClassesConfigured: nat, perClassPreclusterThreshold: seq<real>)

  /** One decoded detection: class, pixel-space box and confidence. */
  datatype ObjectDetectionInfo = ObjectDetectionInfo(
    classId: nat,
    left: real,
    top: real,
    width: real,
    height: real,
    detectionConfidence: real)

  /** The caller-owned output vector the parser appends to. */
  class ObjectList {
    var items: seq<ObjectDetectionInfo>

    constructor ()
      ensures items == []
    {
      items := [];
    }

    /** std::vector::push_back: the new object goes at the end, nothing else moves. */
    method PushBack(obj: ObjectDetectionInfo)
      modifies this
      ensures items == old(items) + [obj]
    {
      items := items + [obj];
    }
  }
}
