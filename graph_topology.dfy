/** The graph the image classifier runs: two named graph inputs, one classifier
    subgraph node, two named graph outputs and, in live-stream mode, a flow
    limiter in front of the subgraph. The graph is data. */
module GraphTopology {
  import opened Framework
  import opened Streams
  import opened ClassifierOptions

  /** A tagged stream with a name, as in "IMAGE:image_in". */
  datatype Stream = Stream(tag: string, name: string)

  /** An end of a connection: a graph input or output, or an input or output of
      the classifier subgraph node, each by tag. */
  datatype Port = GraphIn(tag: string) | GraphOut(tag: string) | NodeIn(tag: string) | NodeOut(tag: string)

  /** `source >> sink`. */
  datatype Connection = Connection(source: Port, sink: Port)

  /** The classifier subgraph node with its options and its named outputs. */
  datatype SubgraphNode = SubgraphNode(calculator: string, options: ImageClassifierGraphOptions, outputs: seq<Stream>)

  /** Marker for the flow limiter that foreign code inserts: it gates the
      subgraph inputs with the listed tags and is released by the subgraph
      output with tag `releaseTag`. */
  datatype FlowLimiter = FlowLimiter(gatedTags: seq<string>, releaseTag: string)

  datatype GraphConfig = GraphConfig(
    inputs: seq<Stream>,
    node: SubgraphNode,
    connections: seq<Connection>,
    flowLimiter: Option<FlowLimiter>)

  /** The graph exposes output `tag` under stream name `name`: a subgraph output
      named `name` is connected to graph output `tag`. */
  ghost predicate DeclaresOutput(g: GraphConfig, tag: string, name: string) {
    exists i, j :: 0 <= i < |g.connections| && 0 <= j < |g.node.outputs| &&
      g.connections[i] == Connection(NodeOut(g.node.outputs[j].tag), GraphOut(tag)) &&
      g.node.outputs[j].name == name
  }

  /** Graph input `tag` reaches subgraph input `tag`: directly, or through the
      flow limiter that gates it. */
  predicate DirectlyConnected(g: GraphConfig, tag: string) {
    Connection(GraphIn(tag), NodeIn(tag)) in g.connections
  }

  predicate Gated(g: GraphConfig, tag: string) {
    g.flowLimiter.Some? && tag in g.flowLimiter.value.gatedTags
  }

  predicate Feeds(g: GraphConfig, tag: string) {
    DirectlyConnected(g, tag) || Gated(g, tag)
  }

  /** The limiter's release signal is an output of the subgraph. */
  predicate ReleasedBySubgraph(g: GraphConfig) {
    g.flowLimiter.Some? ==>
      exists j :: 0 <= j < |g.node.outputs| && g.node.outputs[j].tag == g.flowLimiter.value.releaseTag
  }

  /** `CreateGraphConfig`. */
  function CreateGraphConfig(options: ImageClassifierGraphOptions, enableFlowLimiting: bool): (g: GraphConfig)
    ensures g.inputs == [Stream(ImageTag, ImageInStreamName), Stream(NormRectTag, NormRectName)]
    ensures g.node.calculator == SubgraphTypeName && g.node.options == options
    ensures g.flowLimiter.Some? <==> enableFlowLimiting
    ensures enableFlowLimiting ==>
      g.flowLimiter.value == FlowLimiter([ImageTag, NormRectTag], ClassificationResultTag)
    ensures !enableFlowLimiting ==> DirectlyConnected(g, ImageTag) && DirectlyConnected(g, NormRectTag)
    ensures enableFlowLimiting ==> !DirectlyConnected(g, ImageTag) && !DirectlyConnected(g, NormRectTag)
  {
    var node := SubgraphNode(SubgraphTypeName, options,
      [Stream(ClassificationResultTag, ClassificationResultStreamName), Stream(ImageTag, ImageOutStreamName)]);
    var outputs := [
      Connection(NodeOut(ClassificationResultTag), GraphOut(ClassificationResultTag)),
      Connection(NodeOut(ImageTag), GraphOut(ImageTag))];
    var inputs := [Stream(ImageTag, ImageInStreamName), Stream(NormRectTag, NormRectName)];
    if enableFlowLimiting then
      GraphConfig(inputs, node, outputs, Some(FlowLimiter([ImageTag, NormRectTag], ClassificationResultTag)))
    else
      GraphConfig(inputs, node, outputs + [
        Connection(GraphIn(ImageTag), NodeIn(ImageTag)),
        Connection(GraphIn(NormRectTag), NodeIn(NormRectTag))], None)
  }

  /** In both topologies the graph's outputs are the classification result and
      the pass-through image, under their stream names. */
  lemma CreateGraphConfigOutputs(options: ImageClassifierGraphOptions, enableFlowLimiting: bool)
    ensures var g := CreateGraphConfig(options, enableFlowLimiting);
      DeclaresOutput(g, ClassificationResultTag, ClassificationResultStreamName) &&
      DeclaresOutput(g, ImageTag, ImageOutStreamName)
  {
    var g := CreateGraphConfig(options, enableFlowLimiting);
    assert g.connections[0] == Connection(NodeOut(g.node.outputs[0].tag), GraphOut(ClassificationResultTag));
    assert g.connections[1] == Connection(NodeOut(g.node.outputs[1].tag), GraphOut(ImageTag));
  }

  /** In both topologies every declared graph input reaches the subgraph input
      with the same tag, and a limiter is released by a subgraph output. */
  lemma CreateGraphConfigFeedsSubgraph(options: ImageClassifierGraphOptions, enableFlowLimiting: bool)
    ensures var g := CreateGraphConfig(options, enableFlowLimiting);
      (forall s :: s in g.inputs ==> Feeds(g, s.tag)) && ReleasedBySubgraph(g)
  {
    var g := CreateGraphConfig(options, enableFlowLimiting);
    if enableFlowLimiting {
      assert g.node.outputs[0].tag == g.flowLimiter.value.releaseTag;
    }
  }
}
