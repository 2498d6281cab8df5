// The shape that layers hand to each other (include/talawa-ai/neuralnetwork/Layer.hpp):
// depth, height and width of one sample, with `flat()` their product. The
// batch is the row count of the matrices a layer receives; one sample is a
// row of depth * height * width cells, channel-major.
module Layers {
  datatype Dims = Dims(depth: int, height: int, width: int)
  {
    /** `flat()`: the number of cells of one sample. */
    function Flat(): int
    {
      depth * height * width
    }
  }
}
