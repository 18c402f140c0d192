/** Stream names, tags and the subgraph type of the image classifier graph. */
module Streams {
  const ClassificationResultStreamName: string := "classification_result_out"
  const ClassificationResultTag: string := "CLASSIFICATION_RESULT"
  const ImageInStreamName: string := "image_in"
  const ImageOutStreamName: string := "image_out"
  const ImageTag: string := "IMAGE"
  const NormRectName: string := "norm_rect_in"
  const NormRectTag: string := "NORM_RECT"
  const SubgraphTypeName: string := "mediapipe.tasks.vision.image_classifier.ImageClassifierGraph"
}
